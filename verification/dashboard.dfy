/** The dashboard page: the greeting, the user's newest open cases as the
    page's query selects them, and the checked-documents counter on each
    case card. */
module Dashboard {
  import opened Options
  import opened Schema
  import opened Text
  import opened Sequences

  /** The number of checked items, as the card shows it next to the list length. */
  function CheckedCount(items: seq<ChecklistItem>): (n: nat)
    ensures n <= |items|
    ensures |items| == 0 ==> n == 0
    ensures n == |items| <==> forall i :: 0 <= i < |items| ==> items[i].isChecked
  {
    |Filter(items, (i: ChecklistItem) => i.isChecked)|
  }

  /** Counting distributes over concatenation: the card's count of a list is
      the sum of the counts of its parts. */
  lemma {:induction false} CheckedCountAppend(a: seq<ChecklistItem>, b: seq<ChecklistItem>)
    ensures CheckedCount(a + b) == CheckedCount(a) + CheckedCount(b)
    decreases |a|
  {
    if |a| > 0 {
      assert (a + b)[1..] == a[1..] + b;
      CheckedCountAppend(a[1..], b);
    } else {
      assert a + b == b;
    }
  }

  /** Checking one more item raises the count by exactly one. */
  lemma CheckOneMore(items: seq<ChecklistItem>, k: int)
    requires 0 <= k < |items| && !items[k].isChecked
    ensures CheckedCount(items[k := items[k].(isChecked := true)]) == CheckedCount(items) + 1
  {
    var after := items[k := items[k].(isChecked := true)];
    assert items == items[..k] + [items[k]] + items[k + 1..];
    assert after == items[..k] + [after[k]] + items[k + 1..];
    CheckedCountAppend(items[..k] + [items[k]], items[k + 1..]);
    CheckedCountAppend(items[..k], [items[k]]);
    CheckedCountAppend(items[..k] + [after[k]], items[k + 1..]);
    CheckedCountAppend(items[..k], [after[k]]);
  }

  /** The name used when there is no usable first name. */
  const DefaultName: string := "משתמש"

  /** `displayName?.split(" ")[0] || "משתמש"`: the first space-separated
      word of the display name, or the default when the name is missing or
      that word is empty. */
  function GreetingName(displayName: Option<string>): (r: string)
    ensures r != "" && ' ' !in r
    ensures displayName.None? || displayName.value == "" || displayName.value[0] == ' ' ==> r == DefaultName
    ensures displayName.Some? && displayName.value != "" && displayName.value[0] != ' ' ==>
              && StartsWith(displayName.value, r)
              && (|r| == |displayName.value| || displayName.value[|r|] == ' ')
  {
    var first := if displayName.Some? then FirstSegment(displayName.value, ' ') else "";
    if first != "" then first else DefaultName
  }

  /** The greeting is determined by the name: any non-empty, space-free
      prefix that runs up to a space or to the end is the greeting. */
  lemma GreetingNameUnique(name: string, r: string)
    requires r != "" && ' ' !in r && StartsWith(name, r) && (|r| == |name| || name[|r|] == ' ')
    ensures GreetingName(Some(name)) == r
  {
    FirstSegmentUnique(name, ' ', r);
  }

  /** How many cases the dashboard lists at most. */
  const ActiveCaseLimit: nat := 5

  /** The case belongs to the user and is still open. */
  predicate OpenFor(c: ConsultationCase, userId: string)
  {
    c.userId == userId && c.status == Active
  }

  /** Newest first. */
  predicate NewestFirst(s: seq<ConsultationCase>)
  {
    forall i, j :: 0 <= i < j < |s| ==> s[i].createdAt >= s[j].createdAt
  }

  /** Places `c` into a list, ahead of the first case older than it. */
  function Insert(c: ConsultationCase, s: seq<ConsultationCase>): (r: seq<ConsultationCase>)
    ensures multiset(r) == multiset(s) + multiset{c}
    decreases |s|
  {
    if |s| == 0 || c.createdAt >= s[0].createdAt then [c] + s
    else
      assert s == [s[0]] + s[1..];
      [s[0]] + Insert(c, s[1..])
  }

  /** Inserting into a newest-first list keeps it newest first. */
  lemma {:induction false} InsertNewestFirst(c: ConsultationCase, s: seq<ConsultationCase>)
    requires NewestFirst(s)
    ensures NewestFirst(Insert(c, s))
    decreases |s|
  {
    if |s| > 0 && c.createdAt < s[0].createdAt {
      InsertNewestFirst(c, s[1..]);
      var rest := Insert(c, s[1..]);
      forall x | x in rest
        ensures x.createdAt <= s[0].createdAt
      {
        assert x in multiset(rest);
        if x != c {
          assert x in multiset(s[1..]);
        }
      }
      assert Insert(c, s) == [s[0]] + rest;
    }
  }

  /** `orderBy("createdAt", "desc")`: the same cases, newest first. */
  function SortNewestFirst(s: seq<ConsultationCase>): (r: seq<ConsultationCase>)
    ensures multiset(r) == multiset(s)
    ensures NewestFirst(r)
    decreases |s|
  {
    if |s| == 0 then []
    else
      assert s == [s[0]] + s[1..];
      InsertNewestFirst(s[0], SortNewestFirst(s[1..]));
      Insert(s[0], SortNewestFirst(s[1..]))
  }

  /** The user's open cases, in stored order. */
  function OpenCases(cases: seq<ConsultationCase>, userId: string): (r: seq<ConsultationCase>)
    ensures forall c :: c in r ==> c in cases && OpenFor(c, userId)
  {
    Filter(cases, c => OpenFor(c, userId))
  }

  /** The dashboard query: the user's open cases, newest first, at most five,
      each listed no more often than it is stored. */
  function ActiveCases(cases: seq<ConsultationCase>, userId: string): (r: seq<ConsultationCase>)
    ensures |r| <= ActiveCaseLimit
    ensures forall i :: 0 <= i < |r| ==> r[i] in cases && OpenFor(r[i], userId)
    ensures NewestFirst(r)
    ensures multiset(r) <= multiset(OpenCases(cases, userId))
  {
    var open := OpenCases(cases, userId);
    var sorted := SortNewestFirst(open);
    TakeOfPermutation(open, sorted, ActiveCaseLimit);
    Take(sorted, ActiveCaseLimit)
  }

  /** The query leaves nothing better out: it lists every open case when
      there are at most five, and otherwise five, none older than any open
      case it leaves out. */
  lemma ActiveCasesAreNewest(cases: seq<ConsultationCase>, userId: string, c: ConsultationCase)
    requires c in cases && OpenFor(c, userId)
    ensures var r := ActiveCases(cases, userId);
            c !in r ==> |r| == ActiveCaseLimit && forall i :: 0 <= i < |r| ==> r[i].createdAt >= c.createdAt
  {
    var open := OpenCases(cases, userId);
    var sorted := SortNewestFirst(open);
    var r := ActiveCases(cases, userId);
    assert r == Take(sorted, ActiveCaseLimit);
    assert c in open;
    assert c in multiset(sorted);
    var j :| 0 <= j < |sorted| && sorted[j] == c;
    if c !in r {
      assert j >= |r|;
    }
  }

  /** With at most five open cases, the list holds each of them exactly as
      often as it is stored. */
  lemma ActiveCasesAllWhenFew(cases: seq<ConsultationCase>, userId: string)
    requires |OpenCases(cases, userId)| <= ActiveCaseLimit
    ensures multiset(ActiveCases(cases, userId)) == multiset(OpenCases(cases, userId))
  {
    var sorted := SortNewestFirst(OpenCases(cases, userId));
    assert |multiset(sorted)| == |OpenCases(cases, userId)|;
    assert ActiveCases(cases, userId) == sorted;
  }

  /** How many open cases the user has, capped: the length of the list. */
  lemma ActiveCasesLength(cases: seq<ConsultationCase>, userId: string)
    ensures var open := OpenCases(cases, userId);
            |ActiveCases(cases, userId)| == if |open| < ActiveCaseLimit then |open| else ActiveCaseLimit
  {
    var open := OpenCases(cases, userId);
    var sorted := SortNewestFirst(open);
    assert |multiset(sorted)| == |multiset(open)|;
  }
}
