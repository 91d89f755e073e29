/** The soldiers list page: the search filter over the loaded list and the
    add-soldier dialog. The database write is a parameter: it either yields
    the id of the new document or fails. */
module SoldiersPage {
  import opened Options
  import opened Schema
  import opened Text
  import opened Sequences

  /** What the page holds: the loaded list, the search box and the dialog. */
  datatype PageState = PageState(
    soldiers: seq<SoldierRecord>,
    searchTerm: string,
    dialogOpen: bool,
    newName: string,
    newId: string,
    submitting: bool)

  /** The search term occurs in the soldier's full name or personal id
      (case-sensitive, as `includes` is). */
  function MatchesSearch(s: SoldierRecord, term: string): (b: bool)
    ensures term == "" ==> b
    ensures Includes(s.fullName, term) ==> b
    ensures Includes(s.personalId, term) ==> b
    ensures !Includes(s.fullName, term) && !Includes(s.personalId, term) ==> !b
  {
    Includes(s.fullName, term) || Includes(s.personalId, term)
  }

  /** `filteredSoldiers`: the soldiers the search term matches, in list order. */
  function FilteredSoldiers(soldiers: seq<SoldierRecord>, term: string): (r: seq<SoldierRecord>)
    ensures IsSubsequence(r, soldiers)
    ensures forall i :: 0 <= i < |r| ==> MatchesSearch(r[i], term)
    ensures forall i :: 0 <= i < |soldiers| && MatchesSearch(soldiers[i], term) ==> soldiers[i] in r
    ensures forall i :: 0 <= i < |soldiers| && MatchesSearch(soldiers[i], term) ==>
              multiset(r)[soldiers[i]] == multiset(soldiers)[soldiers[i]]
  {
    var matching := s => MatchesSearch(s, term);
    FilterMultiset(soldiers, matching);
    Filter(soldiers, matching)
  }

  /** An empty search box shows every soldier. */
  lemma EmptySearchKeepsAll(soldiers: seq<SoldierRecord>)
    ensures FilteredSoldiers(soldiers, "") == soldiers
  {
    forall i | 0 <= i < |soldiers|
      ensures MatchesSearch(soldiers[i], "")
    {
      assert StartsWith(soldiers[i].fullName, "");
    }
  }

  /** Typing more narrows the list: a longer term that contains the shorter
      one keeps a subsequence of what the shorter one kept. */
  lemma NarrowingSearch(soldiers: seq<SoldierRecord>, term: string, longer: string)
    requires Includes(longer, term)
    ensures IsSubsequence(FilteredSoldiers(soldiers, longer), FilteredSoldiers(soldiers, term))
  {
    forall i | 0 <= i < |soldiers| && MatchesSearch(soldiers[i], longer)
      ensures MatchesSearch(soldiers[i], term)
    {
      if Includes(soldiers[i].fullName, longer) {
        IncludesTransitive(soldiers[i].fullName, longer, term);
      } else {
        IncludesTransitive(soldiers[i].personalId, longer, term);
      }
    }
    FilterImplies(soldiers, s => MatchesSearch(s, longer), s => MatchesSearch(s, term));
  }

  /** The route of a soldier's own page. */
  const SoldierRoute: string := "/soldiers/"

  /** The record the page adds to its list for a new document: name and
      personal id from the form, `now` as the creation time, nothing else. */
  function NewSoldier(docId: string, fullName: string, personalId: string, now: int): (r: SoldierRecord)
    ensures r.id == docId && r.fullName == fullName && r.personalId == personalId && r.createdAt == now
    ensures r.unit.None? && r.phone.None? && r.notes.None? && r.updatedAt.None?
    ensures r.isLoneSoldier.None? && r.isTashmash.None? && r.isOrPopulation.None?
    ensures r.loneSoldierType.None? && r.tashmashType.None? && r.orType.None?
  {
    SoldierRecord(docId, personalId, fullName, None, None, None, None, None, None, None, None, None, now, None)
  }

  /** The page after an add attempt, and where the router is sent, if anywhere. */
  datatype AddResult = AddResult(page: PageState, navigateTo: Option<string>)

  /** `handleAddSoldier`. `written` is the id of the created document, or
      `None` when the write throws; `now` is the local clock. */
  function AddSoldier(p: PageState, written: Option<string>, now: int): (r: AddResult)
    ensures p.newName == "" || p.newId == "" ==> r == AddResult(p, None)
    ensures p.newName != "" && p.newId != "" && written.None? ==>
              r == AddResult(p.(submitting := false), None)
    ensures p.newName != "" && p.newId != "" && written.Some? ==>
              && |r.page.soldiers| == |p.soldiers| + 1
              && r.page.soldiers[1..] == p.soldiers
              && r.page.soldiers[0].id == written.value
              && r.page.soldiers[0].fullName == p.newName
              && r.page.soldiers[0].personalId == p.newId
              && r.page.soldiers[0].createdAt == now
              && !r.page.dialogOpen && r.page.newName == "" && r.page.newId == ""
              && !r.page.submitting
              && r.page.searchTerm == p.searchTerm
              && r.navigateTo == Some(SoldierRoute + written.value)
  {
    if p.newName == "" || p.newId == "" then AddResult(p, None)
    else
      match written
      case None => AddResult(p.(submitting := false), None)
      case Some(id) =>
        var added := NewSoldier(id, p.newName, p.newId, now);
        AddResult(PageState([added] + p.soldiers, p.searchTerm, false, "", "", false),
                  Some(SoldierRoute + id))
  }

  /** After a successful add the search shows the new soldier first when
      the term matches it, followed by exactly what it showed before. */
  lemma AddedSoldierInSearch(p: PageState, id: string, now: int)
    requires p.newName != "" && p.newId != ""
    ensures var q := AddSoldier(p, Some(id), now).page;
            var added := NewSoldier(id, p.newName, p.newId, now);
            FilteredSoldiers(q.soldiers, q.searchTerm)
            == (if MatchesSearch(added, p.searchTerm) then [added] else []) + FilteredSoldiers(p.soldiers, p.searchTerm)
  {
    var q := AddSoldier(p, Some(id), now).page;
    assert q.soldiers[1..] == p.soldiers;
  }

  /** A successful add clears the form, so adding again at once does nothing. */
  lemma AddClearsForm(p: PageState, id: string, now: int, again: Option<string>, later: int)
    requires p.newName != "" && p.newId != ""
    ensures var q := AddSoldier(p, Some(id), now).page;
            AddSoldier(q, again, later) == AddResult(q, None)
  {
  }
}
