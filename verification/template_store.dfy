/** Server-side access to the `requestTemplates` collection: turning stored
    documents, whose fields may be missing or empty, into total
    `RequestTemplate` records, fetching one template by id, and keyword
    search. The database itself is a parameter: a read either yields the
    documents or fails. */
module TemplateStore {
  import opened Options
  import opened Schema
  import opened Text
  import opened Sequences

  /** The fields of a stored template document as read; any may be absent. */
  datatype StoredTemplate = StoredTemplate(
    id: Option<string>,
    title: Option<string>,
    category: Option<string>,
    shortDescription: Option<string>,
    eligibilityCriteria: Option<seq<string>>,
    aiKeywords: Option<seq<string>>,
    approvingAuthority: Option<string>,
    requiresHomeVisit: Option<bool>,
    requiresDeclaration: Option<bool>,
    procedure30Days: Option<int>,
    relatedBenefits: Option<seq<string>>,
    requirements: Option<seq<Requirement>>,
    workflow: Option<seq<ProcessStep>>,
    soldierActions: Option<seq<string>>,
    mashakActions: Option<seq<string>>,
    slaHours: Option<int>,
    lastUpdated: Option<string>)

  /** A document with no fields at all. */
  const EmptyStored := StoredTemplate(None, None, None, None, None, None, None, None, None,
                                      None, None, None, None, None, None, None, None)

  /** A document of the collection: its key and its data. */
  datatype Document = Document(key: string, data: StoredTemplate)

  /** A database read: `Unavailable` when there is no database handle or the
      read throws. */
  datatype Read<T> = Unavailable | Available(value: T)

  const UntitledTitle: string := "ללא כותרת"
  const GeneralCategory: string := "general"

  /** `value || fallback` on a string field: absent and empty both fall back. */
  function StringOr(v: Option<string>, fallback: string): (r: string)
    ensures v.Some? && v.value != "" ==> r == v.value
    ensures v.None? || v.value == "" ==> r == fallback
    ensures fallback != "" ==> r != ""
  {
    if v.Some? && v.value != "" then v.value else fallback
  }

  /** What every normalised template satisfies: the defaulted fields are
      present and the defaulted strings non-empty. */
  predicate IsNormal(t: RequestTemplate)
  {
    && t.title != ""
    && t.category != ""
    && t.lastUpdated != ""
    && t.relatedBenefits.Some?
    && t.soldierActions.Some?
    && t.mashakActions.Some?
  }

  /** The record built from one document. `now` is the read time, used when
      `lastUpdated` is missing. */
  function Normalise(doc: Document, now: string): (t: RequestTemplate)
    requires now != ""
    ensures t.id == doc.key
    ensures IsNormal(t)
    ensures doc.data.title.Some? && doc.data.title.value != "" ==> t.title == doc.data.title.value
    ensures doc.data.category.Some? && doc.data.category.value != "" ==> t.category == doc.data.category.value
    ensures doc.data.title.None? || doc.data.title.value == "" ==> t.title == UntitledTitle
    ensures doc.data.category.None? || doc.data.category.value == "" ==> t.category == GeneralCategory
    ensures doc.data.lastUpdated.Some? && doc.data.lastUpdated.value != "" ==> t.lastUpdated == doc.data.lastUpdated.value
    ensures doc.data.lastUpdated.None? || doc.data.lastUpdated.value == "" ==> t.lastUpdated == now
    // An empty string is already the default of the other two string fields.
    ensures t.shortDescription == doc.data.shortDescription.GetOr("")
    ensures t.approvingAuthority == doc.data.approvingAuthority.GetOr("")
    // Arrays are never falsy: a stored list, even an empty one, is kept.
    ensures t.eligibilityCriteria == doc.data.eligibilityCriteria.GetOr([])
    ensures t.aiKeywords == doc.data.aiKeywords.GetOr([])
    ensures t.relatedBenefits == Some(doc.data.relatedBenefits.GetOr([]))
    ensures t.requirements == doc.data.requirements.GetOr([])
    ensures t.workflow == doc.data.workflow.GetOr([])
    ensures t.soldierActions == Some(doc.data.soldierActions.GetOr([]))
    ensures t.mashakActions == Some(doc.data.mashakActions.GetOr([]))
    // `false` and `0` are their own defaults, so a stored value is kept as is.
    ensures t.requiresHomeVisit == doc.data.requiresHomeVisit.GetOr(false)
    ensures t.requiresDeclaration == doc.data.requiresDeclaration.GetOr(false)
    ensures t.slaHours == doc.data.slaHours.GetOr(0)
    ensures t.procedure30Days == doc.data.procedure30Days
  {
    var d := doc.data;
    RequestTemplate(
      id := doc.key,
      title := StringOr(d.title, UntitledTitle),
      category := StringOr(d.category, GeneralCategory),
      shortDescription := StringOr(d.shortDescription, ""),
      eligibilityCriteria := d.eligibilityCriteria.GetOr([]),
      aiKeywords := d.aiKeywords.GetOr([]),
      approvingAuthority := StringOr(d.approvingAuthority, ""),
      requiresHomeVisit := d.requiresHomeVisit.GetOr(false),
      requiresDeclaration := d.requiresDeclaration.GetOr(false),
      procedure30Days := d.procedure30Days,
      relatedBenefits := Some(d.relatedBenefits.GetOr([])),
      requirements := d.requirements.GetOr([]),
      workflow := d.workflow.GetOr([]),
      soldierActions := Some(d.soldierActions.GetOr([])),
      mashakActions := Some(d.mashakActions.GetOr([])),
      slaHours := d.slaHours.GetOr(0),
      lastUpdated := StringOr(d.lastUpdated, now))
  }

  /** A document with no fields becomes the all-defaults template. */
  lemma NormaliseEmpty(key: string, now: string)
    requires now != ""
    ensures Normalise(Document(key, EmptyStored), now)
         == RequestTemplate(key, UntitledTitle, GeneralCategory, "", [], [], "", false, false,
                            None, Some([]), [], [], Some([]), Some([]), 0, now)
  {
  }

  /** The `id` field stored inside the document plays no part: only the key does. */
  lemma NormaliseIgnoresStoredId(doc: Document, storedId: Option<string>, now: string)
    requires now != ""
    ensures Normalise(Document(doc.key, doc.data.(id := storedId)), now) == Normalise(doc, now)
  {
  }

  /** One template per document, in snapshot order. */
  function NormaliseAll(docs: seq<Document>, now: string): (ts: seq<RequestTemplate>)
    requires now != ""
    ensures |ts| == |docs|
    ensures forall i :: 0 <= i < |docs| ==> ts[i] == Normalise(docs[i], now)
    decreases |docs|
  {
    if |docs| == 0 then [] else [Normalise(docs[0], now)] + NormaliseAll(docs[1..], now)
  }

  /** `getAllTemplatesForAI`: every document of the collection as a
      template, or nothing when the read fails. */
  function GetAllTemplatesForAI(snapshot: Read<seq<Document>>, now: string): (ts: seq<RequestTemplate>)
    requires now != ""
    ensures snapshot.Unavailable? ==> ts == []
    ensures snapshot.Available? ==> |ts| == |snapshot.value|
    ensures snapshot.Available? ==> forall i :: 0 <= i < |ts| ==>
              ts[i].id == snapshot.value[i].key && IsNormal(ts[i])
    ensures snapshot.Available? ==> forall i :: 0 <= i < |ts| ==> ts[i] == Normalise(snapshot.value[i], now)
  {
    match snapshot
    case Unavailable => []
    case Available(docs) => NormaliseAll(docs, now)
  }

  /** `getTemplateById`: the template stored under `id`; nothing when there
      is no such document or the read fails. */
  function GetTemplateById(store: Read<map<string, StoredTemplate>>, id: string, now: string): (r: Option<RequestTemplate>)
    requires now != ""
    ensures r.Some? <==> store.Available? && id in store.value
    ensures r.Some? ==> r.value.id == id && IsNormal(r.value)
    ensures store.Available? && id in store.value ==> r == Some(Normalise(Document(id, store.value[id]), now))
  {
    match store
    case Unavailable => None
    case Available(m) => if id in m then Some(Normalise(Document(id, m[id]), now)) else None
  }

  /** `docs` is a snapshot of the collection `store`: each key once, with its data. */
  ghost predicate SnapshotOf(docs: seq<Document>, store: map<string, StoredTemplate>)
  {
    && DistinctBy(docs, (d: Document) => d.key)
    && (forall i :: 0 <= i < |docs| ==> docs[i].key in store && store[docs[i].key] == docs[i].data)
    && (forall k :: k in store ==> exists i :: 0 <= i < |docs| && docs[i].key == k)
  }

  /** The single-document read applies the same defaults as the bulk read. */
  lemma ByIdAgreesWithBulk(docs: seq<Document>, store: map<string, StoredTemplate>, i: int, now: string)
    requires now != ""
    requires SnapshotOf(docs, store) && 0 <= i < |docs|
    ensures GetTemplateById(Available(store), docs[i].key, now)
         == Some(GetAllTemplatesForAI(Available(docs), now)[i])
  {
  }

  /** The ids of the bulk read are exactly the keys of the collection. */
  lemma BulkIdsAreKeys(docs: seq<Document>, store: map<string, StoredTemplate>, now: string)
    requires now != ""
    requires SnapshotOf(docs, store)
    ensures var ts := GetAllTemplatesForAI(Available(docs), now);
            forall k :: k in store <==> exists i :: 0 <= i < |ts| && ts[i].id == k
  {
    var ts := GetAllTemplatesForAI(Available(docs), now);
    forall k | k in store
      ensures exists i :: 0 <= i < |ts| && ts[i].id == k
    {
      var i :| 0 <= i < |docs| && docs[i].key == k;
      assert ts[i].id == k;
    }
  }

  /** The lower-cased fields of `t` that `searchTemplates` looks in contain
      the already lower-cased query. */
  function Matches(t: RequestTemplate, queryLower: string, lower: char -> char): (b: bool)
    ensures queryLower == "" ==> b
    ensures Includes(MapChars(t.title, lower), queryLower) ==> b
    ensures !b ==> !Includes(MapChars(t.shortDescription, lower), queryLower)
    ensures !b ==> forall k :: k in t.aiKeywords ==> !Includes(MapChars(k, lower), queryLower)
    ensures !b ==> forall c :: c in t.eligibilityCriteria ==> !Includes(MapChars(c, lower), queryLower)
  {
    || Includes(MapChars(t.title, lower), queryLower)
    || Includes(MapChars(t.shortDescription, lower), queryLower)
    || (exists k :: k in t.aiKeywords && Includes(MapChars(k, lower), queryLower))
    || (exists c :: c in t.eligibilityCriteria && Includes(MapChars(c, lower), queryLower))
  }

  /** `searchTemplates`: the templates of the collection whose title, short
      description, some keyword or some eligibility criterion contains the
      query, both sides lower-cased by `lower`. */
  function SearchTemplates(snapshot: Read<seq<Document>>, now: string, query: string, lower: char -> char)
    : (r: seq<RequestTemplate>)
    requires now != ""
    ensures var all := GetAllTemplatesForAI(snapshot, now);
            && IsSubsequence(r, all)
            && (forall i :: 0 <= i < |r| ==> Matches(r[i], MapChars(query, lower), lower))
            && (forall i :: 0 <= i < |all| && Matches(all[i], MapChars(query, lower), lower) ==> all[i] in r)
            && (forall i :: 0 <= i < |all| && Matches(all[i], MapChars(query, lower), lower) ==>
                  multiset(r)[all[i]] == multiset(all)[all[i]])
  {
    var ql := MapChars(query, lower);
    var matching := t => Matches(t, ql, lower);
    FilterMultiset(GetAllTemplatesForAI(snapshot, now), matching);
    Filter(GetAllTemplatesForAI(snapshot, now), matching)
  }

  /** The empty query matches every template. */
  lemma SearchEmptyQuery(snapshot: Read<seq<Document>>, now: string, lower: char -> char)
    requires now != ""
    ensures SearchTemplates(snapshot, now, "", lower) == GetAllTemplatesForAI(snapshot, now)
  {
    var all := GetAllTemplatesForAI(snapshot, now);
    forall i | 0 <= i < |all|
      ensures Matches(all[i], MapChars("", lower), lower)
    {
      assert MapChars("", lower) == "";
      assert StartsWith(MapChars(all[i].title, lower), "");
    }
  }

  /** A template that matches a query matches every substring of it. */
  lemma MatchesSubstring(t: RequestTemplate, query: string, part: string, lower: char -> char)
    requires Includes(query, part)
    requires Matches(t, MapChars(query, lower), lower)
    ensures Matches(t, MapChars(part, lower), lower)
  {
    var ql, pl := MapChars(query, lower), MapChars(part, lower);
    IncludesMapChars(query, part, lower);
    if Includes(MapChars(t.title, lower), ql) {
      IncludesTransitive(MapChars(t.title, lower), ql, pl);
    } else if Includes(MapChars(t.shortDescription, lower), ql) {
      IncludesTransitive(MapChars(t.shortDescription, lower), ql, pl);
    } else if exists k :: k in t.aiKeywords && Includes(MapChars(k, lower), ql) {
      var k :| k in t.aiKeywords && Includes(MapChars(k, lower), ql);
      IncludesTransitive(MapChars(k, lower), ql, pl);
    } else {
      var c :| c in t.eligibilityCriteria && Includes(MapChars(c, lower), ql);
      IncludesTransitive(MapChars(c, lower), ql, pl);
    }
  }

  /** Search is monotone: narrowing the query to a substring keeps every
      result, in the same relative order. */
  lemma SearchMonotone(snapshot: Read<seq<Document>>, now: string, query: string, part: string, lower: char -> char)
    requires now != ""
    requires Includes(query, part)
    ensures IsSubsequence(SearchTemplates(snapshot, now, query, lower), SearchTemplates(snapshot, now, part, lower))
  {
    var all := GetAllTemplatesForAI(snapshot, now);
    var ql, pl := MapChars(query, lower), MapChars(part, lower);
    forall i | 0 <= i < |all| && Matches(all[i], ql, lower)
      ensures Matches(all[i], pl, lower)
    {
      MatchesSubstring(all[i], query, part, lower);
    }
    FilterImplies(all, t => Matches(t, ql, lower), t => Matches(t, pl, lower));
  }
}
