/** Facts about the seed catalogue, stated over its index, and what they
    mean for the consultation endpoint once the catalogue is the collection
    it reads. */
module CatalogueFacts {
  import opened Options
  import opened Schema
  import opened SeedCatalogue
  import opened CatalogueIndexing
  import opened Consult

  /** `id` is the id of a catalogue template. */
  ghost predicate IsCatalogueId(id: string)
  {
    exists k :: 0 <= k < |CatalogueIndex| && CatalogueIndex[k].id == id
  }

  /** The index has one row per template, and no two rows share an id, so
      the keyed upload writes each template to a document of its own. */
  lemma IndexIdsDistinct()
    ensures |CatalogueIndex| == CatalogueSize
    ensures forall i, j :: 0 <= i < j < |CatalogueIndex| ==> CatalogueIndex[i].id != CatalogueIndex[j].id
  {
  }

  /** Every template's category is a key of the category table, and no
      template is filed under "shortening". */
  lemma IndexCategoriesKnown()
    ensures forall k :: 0 <= k < |CatalogueIndex| ==>
              CategoryOfKey(CatalogueIndex[k].category).Some?
    ensures forall k :: 0 <= k < |CatalogueIndex| ==>
              CategoryOfKey(CatalogueIndex[k].category) != Some(Shortening)
  {
  }

  /** The sum of the requirement counts of the rows from `k` on. */
  function RowTotal(rows: seq<Row>, k: nat): nat
    decreases |rows| - k
  {
    if k >= |rows| then 0 else rows[k].requirementCount + RowTotal(rows, k + 1)
  }

  /** The requirement total the upload reports for the catalogue. */
  lemma IndexRequirementTotal()
    ensures RowTotal(CatalogueIndex, 0) == 144
  {
    // Evaluated a stretch of rows at a time, from the end.
    assert RowTotal(CatalogueIndex, 21) == 15;
    assert RowTotal(CatalogueIndex, 14) == 50;
    assert RowTotal(CatalogueIndex, 7) == 78;
  }

  /** Two ids that the prompt's rules name belong to no catalogue template. */
  lemma StaleRuleIds()
    ensures "special-economic-leave" in PromptRuleIds && "tashmash-married-basic" in PromptRuleIds
    ensures !IsCatalogueId("special-economic-leave")
    ensures !IsCatalogueId("tashmash-married-basic")
  {
    assert PromptRuleIds[6] == "special-economic-leave" && PromptRuleIds[7] == "tashmash-married-basic";
  }

  /** Every other id the prompt's rules name is a catalogue id. */
  lemma LiveRuleIds()
    ensures forall i :: 0 <= i < |PromptRuleIds| && i != 6 && i != 7 ==> IsCatalogueId(PromptRuleIds[i])
  {
    assert CatalogueIndex[4].id == PromptRuleIds[0];
    assert CatalogueIndex[5].id == PromptRuleIds[1];
    assert CatalogueIndex[7].id == PromptRuleIds[2];
    assert CatalogueIndex[0].id == PromptRuleIds[3];
    assert CatalogueIndex[16].id == PromptRuleIds[4];
    assert CatalogueIndex[15].id == PromptRuleIds[5];
    assert CatalogueIndex[2].id == PromptRuleIds[8];
  }

  /** When the collection holds catalogue templates only, the two rule ids
      that name no template are never suggested, whatever the model says. */
  lemma StaleRuleIdsNeverSuggested(corpus: seq<RequestTemplate>, parsed: Option<seq<string>>)
    requires forall i :: 0 <= i < |corpus| ==> IsCatalogueId(corpus[i].id)
    ensures forall i :: 0 <= i < |Recommend(corpus, parsed)| ==>
              && Recommend(corpus, parsed)[i].id != "special-economic-leave"
              && Recommend(corpus, parsed)[i].id != "tashmash-married-basic"
  {
    StaleRuleIds();
    UnknownIdsDropped(corpus, parsed, "special-economic-leave");
    UnknownIdsDropped(corpus, parsed, "tashmash-married-basic");
  }

  /** The rule ids as the prompt evidently means them: the two stale ids
      replaced by the catalogue ids of the same procedures, the economic
      special leave and the married soldier's allowance. */
  const IntendedRuleIds: seq<string> := PromptRuleIds[6 := "special-leave-economic"][7 := "tashmash-married"]

  /** With the intended ids, every id the rules name is a catalogue id. */
  lemma IntendedRuleIdsLive()
    ensures |IntendedRuleIds| == |PromptRuleIds|
    ensures forall i :: 0 <= i < |IntendedRuleIds| ==> IsCatalogueId(IntendedRuleIds[i])
  {
    LiveRuleIds();
    assert CatalogueIndex[19].id == IntendedRuleIds[6];
    assert CatalogueIndex[1].id == IntendedRuleIds[7];
  }
}
