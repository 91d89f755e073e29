/** The upload script: every catalogue template is written, in one batch,
    to the document named by its id with merge semantics, and after a
    successful commit the script reports a per-category tally and the total
    number of requirements. The collection is a map from document key to
    stored fields; a failed commit writes nothing. */
module SeedUpload {
  import opened Options
  import opened Schema
  import opened Sequences
  import opened TemplateStore

  type Collection = map<string, StoredTemplate>

  /** The stored form of a template: every field it has, and nothing for the
      optional fields it leaves out. */
  function Encode(t: RequestTemplate): (d: StoredTemplate)
    ensures d.id == Some(t.id) && d.title == Some(t.title) && d.category == Some(t.category)
    ensures d.relatedBenefits == t.relatedBenefits && d.procedure30Days == t.procedure30Days
    ensures d.soldierActions == t.soldierActions && d.mashakActions == t.mashakActions
  {
    StoredTemplate(
      id := Some(t.id),
      title := Some(t.title),
      category := Some(t.category),
      shortDescription := Some(t.shortDescription),
      eligibilityCriteria := Some(t.eligibilityCriteria),
      aiKeywords := Some(t.aiKeywords),
      approvingAuthority := Some(t.approvingAuthority),
      requiresHomeVisit := Some(t.requiresHomeVisit),
      requiresDeclaration := Some(t.requiresDeclaration),
      procedure30Days := t.procedure30Days,
      relatedBenefits := t.relatedBenefits,
      requirements := Some(t.requirements),
      workflow := Some(t.workflow),
      soldierActions := t.soldierActions,
      mashakActions := t.mashakActions,
      slaHours := Some(t.slaHours),
      lastUpdated := Some(t.lastUpdated))
  }

  /** One field of a merge write: a field present in the new data replaces
      the stored one (arrays are replaced whole); an absent one keeps it. */
  function MergeField<T>(stored: Option<T>, written: Option<T>): (r: Option<T>)
    ensures written.Some? ==> r == written
    ensures written.None? ==> r == stored
  {
    if written.Some? then written else stored
  }

  /** Every field of the document is present. */
  predicate Complete(d: StoredTemplate)
  {
    && d.id.Some? && d.title.Some? && d.category.Some? && d.shortDescription.Some?
    && d.eligibilityCriteria.Some? && d.aiKeywords.Some? && d.approvingAuthority.Some?
    && d.requiresHomeVisit.Some? && d.requiresDeclaration.Some? && d.procedure30Days.Some?
    && d.relatedBenefits.Some? && d.requirements.Some? && d.workflow.Some?
    && d.soldierActions.Some? && d.mashakActions.Some? && d.slaHours.Some? && d.lastUpdated.Some?
  }

  /** `set(ref, data, { merge: true })` on a document that may not exist yet:
      on a new document the data is stored as is, and data carrying every
      field replaces whatever was stored. */
  function Merge(stored: Option<StoredTemplate>, written: StoredTemplate): (r: StoredTemplate)
    ensures stored.None? ==> r == written
    ensures Complete(written) ==> r == written
    ensures stored.Some? && written == EmptyStored ==> r == stored.value
  {
    var s := stored.GetOr(EmptyStored);
    StoredTemplate(
      id := MergeField(s.id, written.id),
      title := MergeField(s.title, written.title),
      category := MergeField(s.category, written.category),
      shortDescription := MergeField(s.shortDescription, written.shortDescription),
      eligibilityCriteria := MergeField(s.eligibilityCriteria, written.eligibilityCriteria),
      aiKeywords := MergeField(s.aiKeywords, written.aiKeywords),
      approvingAuthority := MergeField(s.approvingAuthority, written.approvingAuthority),
      requiresHomeVisit := MergeField(s.requiresHomeVisit, written.requiresHomeVisit),
      requiresDeclaration := MergeField(s.requiresDeclaration, written.requiresDeclaration),
      procedure30Days := MergeField(s.procedure30Days, written.procedure30Days),
      relatedBenefits := MergeField(s.relatedBenefits, written.relatedBenefits),
      requirements := MergeField(s.requirements, written.requirements),
      workflow := MergeField(s.workflow, written.workflow),
      soldierActions := MergeField(s.soldierActions, written.soldierActions),
      mashakActions := MergeField(s.mashakActions, written.mashakActions),
      slaHours := MergeField(s.slaHours, written.slaHours),
      lastUpdated := MergeField(s.lastUpdated, written.lastUpdated))
  }

  function Lookup(store: Collection, key: string): Option<StoredTemplate>
  {
    if key in store then Some(store[key]) else None
  }

  /** Merging into a missing document just writes the data. */
  lemma MergeIntoNothing(written: StoredTemplate)
    ensures Merge(None, written) == written
  {
  }

  /** Merging the same data twice is merging it once. */
  lemma MergeIdempotent(stored: Option<StoredTemplate>, written: StoredTemplate)
    ensures Merge(Some(Merge(stored, written)), written) == Merge(stored, written)
  {
  }

  /** A merge write of a template replaces every field the template has, and
      keeps a stored value only for an optional field the template leaves out. */
  lemma MergeEncoded(stored: StoredTemplate, t: RequestTemplate)
    ensures var m := Merge(Some(stored), Encode(t));
            && m.title == Some(t.title)
            && m.requirements == Some(t.requirements)
            && (t.relatedBenefits.None? ==> m.relatedBenefits == stored.relatedBenefits)
            && (t.procedure30Days.None? ==> m.procedure30Days == stored.procedure30Days)
            && m == Encode(t).(
                 procedure30Days := if t.procedure30Days.Some? then t.procedure30Days else stored.procedure30Days,
                 relatedBenefits := if t.relatedBenefits.Some? then t.relatedBenefits else stored.relatedBenefits,
                 soldierActions := if t.soldierActions.Some? then t.soldierActions else stored.soldierActions,
                 mashakActions := if t.mashakActions.Some? then t.mashakActions else stored.mashakActions)
  {
  }

  /** The ids of a batch of templates. */
  ghost function Ids(ts: seq<RequestTemplate>): set<string>
  {
    set i | 0 <= i < |ts| :: ts[i].id
  }

  /** The batch applied to the collection: each template merged into the
      document named by its id, in order. */
  function Upload(store: Collection, ts: seq<RequestTemplate>): (r: Collection)
    ensures r.Keys == store.Keys + Ids(ts)
    ensures forall k :: k in store && k !in Ids(ts) ==> r[k] == store[k]
    decreases |ts|
  {
    if |ts| == 0 then store
    else
      var t := ts[0];
      var r := Upload(store[t.id := Merge(Lookup(store, t.id), Encode(t))], ts[1..]);
      assert Ids(ts) == {t.id} + Ids(ts[1..]) by {
        forall k | k in Ids(ts) ensures k in {t.id} + Ids(ts[1..]) {
          var i :| 0 <= i < |ts| && ts[i].id == k;
          if i > 0 { assert ts[1..][i - 1] == ts[i]; }
        }
        forall k | k in Ids(ts[1..]) ensures k in Ids(ts) {
          var i :| 0 <= i < |ts[1..]| && ts[1..][i].id == k;
          assert ts[i + 1].id == k;
        }
      }
      r
  }

  /** With distinct ids, each template's document ends up as the merge of
      that template into what was stored before the batch. */
  lemma {:induction false} UploadWritesEach(store: Collection, ts: seq<RequestTemplate>, i: int)
    requires DistinctBy(ts, (t: RequestTemplate) => t.id)
    requires 0 <= i < |ts|
    ensures ts[i].id in Upload(store, ts)
    ensures Upload(store, ts)[ts[i].id] == Merge(Lookup(store, ts[i].id), Encode(ts[i]))
    decreases |ts|
  {
    var t := ts[0];
    var next := store[t.id := Merge(Lookup(store, t.id), Encode(t))];
    var tail := ts[1..];
    assert DistinctBy(tail, (t: RequestTemplate) => t.id) by {
      forall a, b | 0 <= a < b < |tail| ensures tail[a].id != tail[b].id {
        assert tail[a] == ts[a + 1] && tail[b] == ts[b + 1];
      }
    }
    if i == 0 {
      assert t.id !in Ids(tail);
    } else {
      UploadWritesEach(next, tail, i - 1);
      assert tail[i - 1] == ts[i];
      assert Lookup(next, ts[i].id) == Lookup(store, ts[i].id) by {
        assert ts[i].id != ts[0].id;
      }
    }
  }

  /** The whole script's write: the batch lands completely on a successful
      commit and not at all on a failed one. */
  function CommitBatch(store: Collection, ts: seq<RequestTemplate>, commitOk: bool): (r: Collection)
    ensures !commitOk ==> r == store
    ensures commitOk ==> r.Keys == store.Keys + Ids(ts)
  {
    if commitOk then Upload(store, ts) else store
  }

  /** A template written to a fresh document and read back is the same
      template exactly when it is already in normal form; otherwise the
      reader fills in its defaults. */
  lemma RoundTrip(t: RequestTemplate, now: string)
    requires now != ""
    ensures Normalise(Document(t.id, Merge(None, Encode(t))), now) == t <==> IsNormal(t)
  {
  }

  /** Reading a written template back only fills in defaults: every field
      that is present and non-empty comes back unchanged. */
  lemma ReadBackKeepsFields(t: RequestTemplate, now: string)
    requires now != ""
    requires t.title != "" && t.category != "" && t.lastUpdated != ""
    ensures Normalise(Document(t.id, Encode(t)), now)
         == t.(relatedBenefits := Some(t.relatedBenefits.GetOr([])),
               soldierActions := Some(t.soldierActions.GetOr([])),
               mashakActions := Some(t.mashakActions.GetOr([])))
  {
  }

  /** How many templates of `ts` are in category `c`. */
  function CategoryCount(ts: seq<RequestTemplate>, c: string): (n: nat)
    ensures n <= |ts|
    decreases |ts|
  {
    if |ts| == 0 then 0
    else CategoryCount(ts[..|ts| - 1], c) + (if ts[|ts| - 1].category == c then 1 else 0)
  }

  /** Counting one more template adds one to its own category only. */
  lemma CategoryCountStep(ts: seq<RequestTemplate>, i: int)
    requires 0 <= i < |ts|
    ensures forall k :: CategoryCount(ts[..i + 1], k) == CategoryCount(ts[..i], k) + (if ts[i].category == k then 1 else 0)
  {
    assert ts[..i + 1][..i] == ts[..i];
  }

  /** Every template is counted exactly when all of them are in the category. */
  lemma {:induction false} CategoryCountAll(ts: seq<RequestTemplate>, c: string)
    ensures CategoryCount(ts, c) == |ts| <==> forall j :: 0 <= j < |ts| ==> ts[j].category == c
    decreases |ts|
  {
    if |ts| > 0 {
      CategoryCountAll(ts[..|ts| - 1], c);
    }
  }

  /** A category no template has counts zero. */
  lemma {:induction false} CategoryCountAbsent(ts: seq<RequestTemplate>, c: string)
    requires forall j :: 0 <= j < |ts| ==> ts[j].category != c
    ensures CategoryCount(ts, c) == 0
    decreases |ts|
  {
    if |ts| > 0 {
      CategoryCountAbsent(ts[..|ts| - 1], c);
    }
  }

  /** The number of requirements over all templates of `ts`. */
  function RequirementTotal(ts: seq<RequestTemplate>): (n: nat)
    ensures forall j :: 0 <= j < |ts| ==> |ts[j].requirements| <= n
    ensures n == 0 <==> forall j :: 0 <= j < |ts| ==> ts[j].requirements == []
    decreases |ts|
  {
    if |ts| == 0 then 0 else RequirementTotal(ts[..|ts| - 1]) + |ts[|ts| - 1].requirements|
  }

  /** The sum of the counts of a tally. */
  function TallySum(entries: seq<(string, nat)>): nat
    decreases |entries|
  {
    if |entries| == 0 then 0 else TallySum(entries[..|entries| - 1]) + entries[|entries| - 1].1
  }

  /** The sum of `counts` over the keys listed in `keys`. */
  function KeyedSum(keys: seq<string>, counts: map<string, nat>): nat
    requires forall k :: k in keys ==> k in counts
    decreases |keys|
  {
    if |keys| == 0 then 0 else KeyedSum(keys[..|keys| - 1], counts) + counts[keys[|keys| - 1]]
  }

  /** Changing the count of a key that is not listed leaves the sum alone. */
  lemma {:induction false} KeyedSumFresh(keys: seq<string>, counts: map<string, nat>, c: string, v: nat)
    requires forall k :: k in keys ==> k in counts
    requires c !in keys
    ensures KeyedSum(keys, counts[c := v]) == KeyedSum(keys, counts)
    decreases |keys|
  {
    if |keys| > 0 {
      var init := keys[..|keys| - 1];
      assert forall k :: k in init ==> k in keys;
      KeyedSumFresh(init, counts, c, v);
    }
  }

  /** Changing the count of a key listed once changes the sum by the same amount. */
  lemma {:induction false} KeyedSumUpdate(keys: seq<string>, counts: map<string, nat>, c: string, v: nat)
    requires forall k :: k in keys ==> k in counts
    requires forall a, b :: 0 <= a < b < |keys| ==> keys[a] != keys[b]
    requires c in keys
    ensures KeyedSum(keys, counts[c := v]) + counts[c] == KeyedSum(keys, counts) + v
    decreases |keys|
  {
    var init := keys[..|keys| - 1];
    assert forall k :: k in init ==> k in keys;
    if keys[|keys| - 1] == c {
      assert c !in init;
      KeyedSumFresh(init, counts, c, v);
    } else {
      assert c in init;
      KeyedSumUpdate(init, counts, c, v);
    }
  }

  /** Listing one more key adds its count. */
  lemma KeyedSumSnoc(keys: seq<string>, counts: map<string, nat>, c: string)
    requires forall k :: k in keys ==> k in counts
    requires c in counts
    ensures KeyedSum(keys + [c], counts) == KeyedSum(keys, counts) + counts[c]
  {
    assert (keys + [c])[..|keys|] == keys;
  }

  /** The tally built from `keys` and `counts` sums to their keyed sum. */
  lemma {:induction false} TallySumOfKeys(keys: seq<string>, counts: map<string, nat>)
    requires forall k :: k in keys ==> k in counts
    ensures TallySum(seq(|keys|, a requires 0 <= a < |keys| => (keys[a], counts[keys[a]]))) == KeyedSum(keys, counts)
    decreases |keys|
  {
    if |keys| > 0 {
      var init := keys[..|keys| - 1];
      assert forall k :: k in init ==> k in keys;
      TallySumOfKeys(init, counts);
      var entries := seq(|keys|, a requires 0 <= a < |keys| => (keys[a], counts[keys[a]]));
      assert entries[..|keys| - 1] == seq(|init|, a requires 0 <= a < |init| => (init[a], counts[init[a]]));
    }
  }

  /** The tally state after the first `i` templates: every category seen so
      far is listed once, with its count, and the counts add up to `i`. */
  ghost predicate TallyAfter(ts: seq<RequestTemplate>, i: int, keys: seq<string>, counts: map<string, nat>)
    requires 0 <= i <= |ts|
  {
    && (forall a, b :: 0 <= a < b < |keys| ==> keys[a] != keys[b])
    && (forall k :: k in counts <==> k in keys)
    && (forall k :: k in counts ==> counts[k] == CategoryCount(ts[..i], k) && counts[k] > 0)
    && (forall j :: 0 <= j < i ==> ts[j].category in counts)
    && KeyedSum(keys, counts) == i
  }

  /** Counting template `i` whose category is already listed keeps the
      tally state. */
  lemma TallyStepSeen(ts: seq<RequestTemplate>, i: int, keys: seq<string>, counts: map<string, nat>)
    requires 0 <= i < |ts|
    requires TallyAfter(ts, i, keys, counts)
    requires ts[i].category in counts
    ensures TallyAfter(ts, i + 1, keys, counts[ts[i].category := counts[ts[i].category] + 1])
  {
    var c := ts[i].category;
    CategoryCountStep(ts, i);
    KeyedSumUpdate(keys, counts, c, counts[c] + 1);
  }

  /** Counting template `i` whose category is not yet listed, by listing it
      with count one, keeps the tally state. */
  lemma TallyStepNew(ts: seq<RequestTemplate>, i: int, keys: seq<string>, counts: map<string, nat>)
    requires 0 <= i < |ts|
    requires TallyAfter(ts, i, keys, counts)
    requires ts[i].category !in counts
    ensures TallyAfter(ts, i + 1, keys + [ts[i].category], counts[ts[i].category := 1])
  {
    var c := ts[i].category;
    var keys', counts' := keys + [c], counts[c := 1];
    assert c !in keys;
    forall k | k in counts'
      ensures counts'[k] == CategoryCount(ts[..i + 1], k) && counts'[k] > 0
    {
      CategoryCountStep(ts, i);
      if k == c {
        assert forall j :: 0 <= j < i ==> ts[..i][j].category != c;
        CategoryCountAbsent(ts[..i], c);
      }
    }
    KeyedSumFresh(keys, counts, c, 1);
    KeyedSumSnoc(keys, counts', c);
  }

  /** The per-category tally, one entry per category in order of first
      appearance, each with its number of templates. */
  method TallyCategories(ts: seq<RequestTemplate>) returns (entries: seq<(string, nat)>)
    ensures forall a, b :: 0 <= a < b < |entries| ==> entries[a].0 != entries[b].0
    ensures forall a :: 0 <= a < |entries| ==> entries[a].1 == CategoryCount(ts, entries[a].0) && entries[a].1 > 0
    ensures forall i :: 0 <= i < |ts| ==> exists a :: 0 <= a < |entries| && entries[a].0 == ts[i].category
    ensures TallySum(entries) == |ts|
  {
    var keys: seq<string> := [];
    var counts: map<string, nat> := map[];
    for i := 0 to |ts|
      invariant TallyAfter(ts, i, keys, counts)
    {
      var c := ts[i].category;
      if c in counts {
        TallyStepSeen(ts, i, keys, counts);
        counts := counts[c := counts[c] + 1];
      } else {
        TallyStepNew(ts, i, keys, counts);
        keys := keys + [c];
        counts := counts[c := 1];
      }
    }
    assert ts[..|ts|] == ts;
    entries := seq(|keys|, a requires 0 <= a < |keys| => (keys[a], counts[keys[a]]));
    TallySumOfKeys(keys, counts);
    forall i | 0 <= i < |ts|
      ensures exists a :: 0 <= a < |entries| && entries[a].0 == ts[i].category
    {
      var a :| 0 <= a < |keys| && keys[a] == ts[i].category;
      assert entries[a].0 == ts[i].category;
    }
  }

  /** The total number of requirements over all templates. */
  method TotalRequirements(ts: seq<RequestTemplate>) returns (total: nat)
    ensures total == RequirementTotal(ts)
  {
    total := 0;
    for i := 0 to |ts|
      invariant total == RequirementTotal(ts[..i])
    {
      assert ts[..i + 1][..i] == ts[..i];
      total := total + |ts[i].requirements|;
    }
    assert ts[..|ts|] == ts;
  }

  /** What the script reports after a successful commit. */
  datatype Summary = Summary(categories: seq<(string, nat)>, totalRequirements: nat)

  /** `uploadTemplates`: the batch write, then the summary; on a failed
      commit the collection is untouched and nothing is reported. */
  method UploadTemplates(store: Collection, ts: seq<RequestTemplate>, commitOk: bool)
    returns (written: Collection, summary: Option<Summary>)
    ensures written == CommitBatch(store, ts, commitOk)
    ensures summary.Some? <==> commitOk
    ensures summary.Some? ==> summary.value.totalRequirements == RequirementTotal(ts)
    ensures summary.Some? ==> forall a :: 0 <= a < |summary.value.categories| ==>
              summary.value.categories[a].1 == CategoryCount(ts, summary.value.categories[a].0)
    ensures summary.Some? ==> forall a, b :: 0 <= a < b < |summary.value.categories| ==>
              summary.value.categories[a].0 != summary.value.categories[b].0
    ensures summary.Some? ==> forall i :: 0 <= i < |ts| ==>
              exists a :: 0 <= a < |summary.value.categories| && summary.value.categories[a].0 == ts[i].category
    ensures summary.Some? ==> TallySum(summary.value.categories) == |ts|
  {
    written := CommitBatch(store, ts, commitOk);
    if !commitOk {
      return written, None;
    }
    var entries := TallyCategories(ts);
    var total := TotalRequirements(ts);
    summary := Some(Summary(entries, total));
  }
}
