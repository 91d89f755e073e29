/** The consultation endpoint: given a free-text description of a soldier's
    situation, ask a language model which request templates apply and return
    those templates. The model call (`infer`) and the JSON parser
    (`parseIds`) are parameters; everything around them is fixed. */
module Consult {
  import opened Options
  import opened Schema
  import opened Text
  import opened Sequences
  import opened TemplateStore

  /** The request body: unreadable JSON, or an object whose `text` may be absent. */
  datatype RequestBody = Malformed | Body(text: Option<string>)

  /** What the model is told about one template. */
  datatype ContextEntry = ContextEntry(
    id: string,
    title: string,
    category: string,
    description: string,
    requirements: string)

  /** The data embedded in the prompt: the case text and the template
      context. The fixed instructions around them are not modelled. */
  datatype Prompt = Prompt(caseText: string, templates: seq<ContextEntry>)

  datatype Response =
    | BadRequest                                  // "No text provided"
    | ServerError                                 // "Failed to analyze"
    | Suggestions(templates: seq<RequestTemplate>)

  function StatusCode(r: Response): int
  {
    match r
    case BadRequest => 400
    case ServerError => 500
    case Suggestions(_) => 200
  }

  /** The template ids that the prompt's decision rules and sample answer name. */
  const PromptRuleIds: seq<string> := [
    "lone-soldier-muvhak", "lone-soldier-hame", "rent-participation",
    "tashmash-parents", "bzack-grant", "work-permit", "special-economic-leave",
    "tashmash-married-basic", "tashmash-pregnancy"
  ]

  const RequirementSeparator: string := ", "

  function RequirementTitles(rs: seq<Requirement>): (titles: seq<string>)
    ensures |titles| == |rs|
    ensures forall i :: 0 <= i < |rs| ==> titles[i] == rs[i].title
    decreases |rs|
  {
    if |rs| == 0 then [] else [rs[0].title] + RequirementTitles(rs[1..])
  }

  /** `templatesContext`: one entry per template, in corpus order, each
      carrying the template's identity fields and its requirement titles
      joined by ", ". */
  function TemplatesContext(corpus: seq<RequestTemplate>): (ctx: seq<ContextEntry>)
    ensures |ctx| == |corpus|
    ensures forall i :: 0 <= i < |corpus| ==>
              && ctx[i].id == corpus[i].id
              && ctx[i].title == corpus[i].title
              && ctx[i].category == corpus[i].category
              && ctx[i].description == corpus[i].shortDescription
              && ctx[i].requirements == Join(RequirementTitles(corpus[i].requirements), RequirementSeparator)
    decreases |corpus|
  {
    if |corpus| == 0 then []
    else
      var t := corpus[0];
      [ContextEntry(t.id, t.title, t.category, t.shortDescription,
                    Join(RequirementTitles(t.requirements), RequirementSeparator))]
      + TemplatesContext(corpus[1..])
  }

  const JsonFence: string := "```json"

  /** `cleanJson`: the model's answer with every "```json" and then every
      "```" deleted, then trimmed. */
  function Clean(raw: string): (r: string)
    ensures !Includes(r, Fence)
    ensures |r| > 0 ==> !IsWhitespace(r[0]) && !IsWhitespace(r[|r| - 1])
  {
    var unfenced := RemoveAll(RemoveAll(raw, JsonFence), Fence);
    NoFenceAfterRemoval(RemoveAll(raw, JsonFence));
    var r := Trim(unfenced);
    assert !Includes(r, Fence) by {
      var k :| TrimmedAt(unfenced, r, k);
      IncludesIff(unfenced, r);
      assert OccursAt(unfenced, r, k);
      if Includes(r, Fence) {
        IncludesTransitive(unfenced, r, Fence);
      }
    }
    r
  }

  /** An answer without backticks is only trimmed. */
  lemma CleanPlain(raw: string)
    requires '`' !in raw
    ensures Clean(raw) == Trim(raw)
  {
    NoBacktickNoFence(raw, JsonFence);
    NoBacktickNoFence(raw, Fence);
  }

  /** An answer wrapped in a JSON code fence is cleaned to its trimmed
      content, whatever whitespace surrounds the content. */
  lemma CleanFenced(content: string)
    requires '`' !in content
    ensures Clean(JsonFence + content + Fence) == Trim(content)
  {
    var raw := JsonFence + content + Fence;
    assert StartsWith(raw, JsonFence);
    assert raw[|JsonFence|..] == content + Fence;
    assert !Includes(content + Fence, JsonFence) by {
      forall i | 0 <= i < |content|
        ensures !OccursAt(content + Fence, JsonFence, i)
      {
        assert (content + Fence)[i] == content[i] != '`' == JsonFence[0];
        if i + |JsonFence| <= |content + Fence| {
          assert (content + Fence)[i..i + |JsonFence|][0] == content[i];
        }
      }
      IncludesIff(content + Fence, JsonFence);
    }
    assert RemoveAll(raw, JsonFence) == content + Fence;
    RemoveClosingFence(content);
  }

  /** Cleaning an already clean answer changes nothing. */
  lemma CleanIdempotent(raw: string)
    ensures Clean(Clean(raw)) == Clean(raw)
  {
    var unfenced := RemoveAll(RemoveAll(raw, JsonFence), Fence);
    var c := Clean(raw);
    assert c == Trim(unfenced);
    assert !Includes(c, JsonFence) by {
      if Includes(c, JsonFence) {
        assert JsonFence == Fence + "json";
        IncludesPrefixOfPattern(c, Fence, "json");
      }
    }
    assert RemoveAll(RemoveAll(c, JsonFence), Fence) == c;
    assert Clean(c) == Trim(c);
    TrimIdempotent(unfenced);
  }

  /** The templates whose id the model named, in corpus order; none when the
      answer did not parse. */
  function Recommend(corpus: seq<RequestTemplate>, parsed: Option<seq<string>>): (r: seq<RequestTemplate>)
    ensures parsed.None? ==> r == []
    ensures parsed.Some? ==> IsSubsequence(r, corpus)
    ensures parsed.Some? ==> forall i :: 0 <= i < |r| ==> r[i] in corpus && r[i].id in parsed.value
    ensures parsed.Some? ==> forall i :: 0 <= i < |corpus| && corpus[i].id in parsed.value ==> corpus[i] in r
    ensures parsed.Some? ==> forall i :: 0 <= i < |corpus| && corpus[i].id in parsed.value ==>
              multiset(r)[corpus[i]] == multiset(corpus)[corpus[i]]
  {
    match parsed
    case None => []
    case Some(ids) =>
      var named := (t: RequestTemplate) => t.id in ids;
      FilterMultiset(corpus, named);
      Filter(corpus, named)
  }

  /** The `POST` handler. `snapshot` is the template collection as read at
      request time and `now` the read time. */
  function Consult(body: RequestBody, snapshot: Read<seq<Document>>, now: string,
                   infer: Prompt -> Option<string>, parseIds: string -> Option<seq<string>>): (r: Response)
    requires now != ""
    ensures body.Malformed? ==> r == ServerError
    ensures body.Body? && (body.text.None? || body.text.value == "") ==> r == BadRequest
    ensures body.Body? && body.text.Some? && body.text.value != "" ==> r != BadRequest
    ensures r.Suggestions? ==> IsSubsequence(r.templates, GetAllTemplatesForAI(snapshot, now))
  {
    match body
    case Malformed => ServerError
    case Body(text) =>
      if text.None? || text.value == "" then BadRequest
      else
        var corpus := GetAllTemplatesForAI(snapshot, now);
        match infer(Prompt(text.value, TemplatesContext(corpus)))
        case None => ServerError
        case Some(raw) => Suggestions(Recommend(corpus, parseIds(Clean(raw))))
  }

  /** An empty request is answered without reading templates or calling the
      model: the answer does not depend on either. */
  lemma EmptyTextNeedsNoModel(text: Option<string>, s1: Read<seq<Document>>, s2: Read<seq<Document>>, now: string,
                              infer1: Prompt -> Option<string>, infer2: Prompt -> Option<string>,
                              parse1: string -> Option<seq<string>>, parse2: string -> Option<seq<string>>)
    requires now != ""
    requires text.None? || text.value == ""
    ensures Consult(Body(text), s1, now, infer1, parse1) == Consult(Body(text), s2, now, infer2, parse2)
    ensures StatusCode(Consult(Body(text), s1, now, infer1, parse1)) == 400
  {
  }

  /** A failing model call is a 500; an answer that does not parse is an
      empty suggestion list, not an error. */
  lemma ModelFailures(text: string, snapshot: Read<seq<Document>>, now: string,
                      infer: Prompt -> Option<string>, parseIds: string -> Option<seq<string>>)
    requires now != "" && text != ""
    ensures var p := Prompt(text, TemplatesContext(GetAllTemplatesForAI(snapshot, now)));
            var r := Consult(Body(Some(text)), snapshot, now, infer, parseIds);
            && (infer(p).None? ==> r == ServerError)
            && (infer(p).Some? && parseIds(Clean(infer(p).value)).None? ==> r == Suggestions([]))
  {
  }

  /** When the model answers, the response is 200 with the stored templates
      whose ids the cleaned, parsed answer names, in collection order. */
  lemma ModelAnswered(text: string, snapshot: Read<seq<Document>>, now: string,
                      infer: Prompt -> Option<string>, parseIds: string -> Option<seq<string>>)
    requires now != "" && text != ""
    ensures var corpus := GetAllTemplatesForAI(snapshot, now);
            var p := Prompt(text, TemplatesContext(corpus));
            var r := Consult(Body(Some(text)), snapshot, now, infer, parseIds);
            infer(p).Some? ==> && r == Suggestions(Recommend(corpus, parseIds(Clean(infer(p).value))))
                               && StatusCode(r) == 200
  {
  }

  /** Only the set of ids the model names matters: neither their order nor
      repetitions change the suggestions. */
  lemma RecommendIgnoresOrder(corpus: seq<RequestTemplate>, ids1: seq<string>, ids2: seq<string>)
    requires forall x :: x in ids1 <==> x in ids2
    ensures Recommend(corpus, Some(ids1)) == Recommend(corpus, Some(ids2))
  {
    FilterCongruent(corpus, (t: RequestTemplate) => t.id in ids1, (t: RequestTemplate) => t.id in ids2);
  }

  /** With distinct template ids, no template is suggested twice, however
      often the model repeats an id. */
  lemma RecommendNoDuplicates(corpus: seq<RequestTemplate>, ids: seq<string>)
    requires DistinctBy(corpus, (t: RequestTemplate) => t.id)
    ensures DistinctBy(Recommend(corpus, Some(ids)), (t: RequestTemplate) => t.id)
  {
    FilterDistinctBy(corpus, (t: RequestTemplate) => t.id in ids, (t: RequestTemplate) => t.id);
  }

  /** An id that no template of the corpus has never leads to a suggestion. */
  lemma UnknownIdsDropped(corpus: seq<RequestTemplate>, parsed: Option<seq<string>>, id: string)
    requires forall i :: 0 <= i < |corpus| ==> corpus[i].id != id
    ensures forall i :: 0 <= i < |Recommend(corpus, parsed)| ==> Recommend(corpus, parsed)[i].id != id
  {
    var r := Recommend(corpus, parsed);
    forall i | 0 <= i < |r|
      ensures r[i].id != id
    {
      assert r[i] in corpus;
    }
  }
}
