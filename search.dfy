/**
 * The case-insensitive search filter: `searchFiles` in the API client
 * matches the name only, `filteredDrafts` in the three draft panels matches
 * the name or, when there is one, the project name.
 */
module Search {
  import opened Text
  import opened Drafts

  datatype Criterion = ByName | ByNameOrProject

  /** `x.toLowerCase().includes(q.toLowerCase())` */
  predicate MatchesText(x: string, q: string) {
    Contains(Lower(x), Lower(q))
  }

  predicate Matches(c: Criterion, d: Draft, q: string) {
    MatchesText(d.name, q)
    || (c == ByNameOrProject && Truthy(d.projectName) && MatchesText(d.projectName.value, q))
  }

  /** `s.filter(d => matches(d))` */
  function Filter(s: seq<Draft>, c: Criterion, q: string): (r: seq<Draft>)
    ensures |r| <= |s|
  {
    if s == [] then []
    else if Matches(c, s[0], q) then [s[0]] + Filter(s[1..], c, q)
    else Filter(s[1..], c, q)
  }

  /** The filter keeps exactly the entries that match. */
  lemma {:induction false} FilterMembers(s: seq<Draft>, c: Criterion, q: string)
    ensures forall d :: d in Filter(s, c, q) <==> d in s && Matches(c, d, q)
  {
    if s != [] {
      FilterMembers(s[1..], c, q);
      assert forall d :: d in s <==> d == s[0] || d in s[1..];
    }
  }

  /** The filter keeps the survivors in their original order. */
  lemma {:induction false} FilterAppend(a: seq<Draft>, b: seq<Draft>, c: Criterion, q: string)
    ensures Filter(a + b, c, q) == Filter(a, c, q) + Filter(b, c, q)
  {
    if a == [] {
      assert a + b == b;
    } else {
      var h := a[0];
      assert (a + b)[0] == h;
      assert (a + b)[1..] == a[1..] + b;
      FilterAppend(a[1..], b, c, q);
      if Matches(c, h, q) {
        assert Filter(a + b, c, q) == [h] + Filter(a[1..] + b, c, q);
        assert Filter(a, c, q) == [h] + Filter(a[1..], c, q);
      } else {
        assert Filter(a + b, c, q) == Filter(a[1..] + b, c, q);
        assert Filter(a, c, q) == Filter(a[1..], c, q);
      }
    }
  }

  /** When every entry matches, nothing is removed. */
  lemma {:induction false} FilterAllMatch(s: seq<Draft>, c: Criterion, q: string)
    requires forall i :: 0 <= i < |s| ==> Matches(c, s[i], q)
    ensures Filter(s, c, q) == s
  {
    if s != [] {
      FilterAllMatch(s[1..], c, q);
    }
  }

  /** An empty query keeps everything. */
  lemma FilterEmptyQuery(s: seq<Draft>, c: Criterion)
    ensures Filter(s, c, "") == s
  {
    forall i | 0 <= i < |s| ensures Matches(c, s[i], "") {
      ContainsEmpty(Lower(s[i].name));
    }
    FilterAllMatch(s, c, "");
  }

  /** The query's letter case does not matter. */
  lemma {:induction false} FilterCaseInsensitive(s: seq<Draft>, c: Criterion, q: string)
    ensures Filter(s, c, Lower(q)) == Filter(s, c, q)
  {
    LowerIdempotent(q);
    if s != [] {
      FilterCaseInsensitive(s[1..], c, q);
    }
  }
}
