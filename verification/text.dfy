/** The string operations the request handler relies on: `split("?", 1)[0]`,
    `endswith`, `startswith('.')`, `'\n'.join` and its inverse `split('\n')`. */
module Text {

  /** `s.split("?", 1)[0]`: the text before the first `?`, or all of `s`
      when it has none. The three ensures determine the result uniquely
      (see `StripQueryUnique`). */
  function StripQuery(s: string): (r: string)
    ensures r <= s
    ensures '?' !in r
    ensures r == s || s[|r|] == '?'
  {
    if s == [] || s[0] == '?' then [] else [s[0]] + StripQuery(s[1..])
  }

  /** Any prefix without `?` that stops at the end or at a `?` is the one
      `StripQuery` returns. */
  lemma StripQueryUnique(s: string, r: string)
    requires r <= s && '?' !in r && (r == s || s[|r|] == '?')
    ensures r == StripQuery(s)
  {
  }

  /** Stripping the query of `a + b` where `a` has no `?` leaves `a` whole:
      the server root in front of the request path is never cut. */
  lemma {:induction false} StripQueryAfterPrefix(a: string, b: string)
    requires '?' !in a
    ensures StripQuery(a + b) == a + StripQuery(b)
  {
    var q := a + StripQuery(b);
    assert q <= a + b by {
      assert StripQuery(b) <= b;
    }
    assert '?' !in q by {
      assert forall c :: c in q ==> c in a || c in StripQuery(b);
    }
    if StripQuery(b) != b {
      assert (a + b)[|q|] == b[|StripQuery(b)|];
    }
    StripQueryUnique(a + b, q);
  }

  /** When the root itself holds a `?`, the query strip cuts inside the
      root: whatever path follows it, only a proper prefix of the root is
      left. */
  lemma {:induction false} StripQueryInsidePrefix(a: string, b: string)
    requires '?' in a
    ensures StripQuery(a + b) == StripQuery(a)
    ensures StripQuery(a + b) < a
  {
    var q := StripQuery(a);
    assert q != a;
    assert a[|q|] == '?';
    assert (a + b)[|q|] == a[|q|];
    StripQueryUnique(a + b, q);
  }

  /** `s.endswith(suffix)`. */
  predicate EndsWith(s: string, suffix: string)
    ensures EndsWith(s, suffix) ==> |suffix| <= |s| && s == s[..|s| - |suffix|] + suffix
  {
    |suffix| <= |s| && s[|s| - |suffix|..] == suffix
  }

  lemma EndsWithAppended(p: string, suffix: string)
    ensures EndsWith(p + suffix, suffix)
  {
    assert (p + suffix)[|p|..] == suffix;
  }

  /** `e.startswith('.')`: the mark of a hidden directory entry. */
  predicate IsHidden(e: string)
    ensures IsHidden(e) <==> "." <= e
  {
    |e| > 0 && e[0] == '.'
  }

  /** `'\n'.join(xs)`. */
  function JoinLines(xs: seq<string>): (r: string)
    ensures xs == [] ==> r == ""
    ensures |xs| == 1 ==> r == xs[0]
  {
    if |xs| == 0 then "" else if |xs| == 1 then xs[0] else xs[0] + "\n" + JoinLines(xs[1..])
  }

  /** Two lines joined by one newline. */
  lemma JoinTwoLines(x: string, y: string)
    ensures JoinLines([x, y]) == x + "\n" + y
  {
    assert [x, y][1..] == [y];
  }

  /** The index of the first `c` in `s`, or `|s|`. */
  function IndexOf(s: string, c: char): (i: nat)
    ensures i <= |s|
    ensures i < |s| ==> s[i] == c
    ensures forall j :: 0 <= j < i ==> s[j] != c
  {
    if s == [] || s[0] == c then 0 else 1 + IndexOf(s[1..], c)
  }

  /** `s.split('\n')`: the pieces between newlines, at least one. */
  function SplitLines(s: string): (r: seq<string>)
    ensures |r| >= 1
    decreases |s|
  {
    var i := IndexOf(s, '\n');
    if i == |s| then [s] else [s[..i]] + SplitLines(s[i + 1..])
  }

  /** A position holding `c` with no `c` before it is the first `c`. */
  lemma IndexOfFirst(s: string, c: char, i: nat)
    requires i <= |s| && (i < |s| ==> s[i] == c)
    requires forall j :: 0 <= j < i ==> s[j] != c
    ensures IndexOf(s, c) == i
  {
  }

  /** Splitting at newlines undoes joining with newlines, as long as there is
      at least one piece and no piece holds a newline itself. */
  lemma {:induction false} SplitJoinLines(xs: seq<string>)
    requires xs != []
    requires forall k :: 0 <= k < |xs| ==> '\n' !in xs[k]
    ensures SplitLines(JoinLines(xs)) == xs
  {
    var head := xs[0];
    assert '\n' !in head;
    if |xs| == 1 {
      IndexOfFirst(head, '\n', |head|);
    } else {
      var rest := JoinLines(xs[1..]);
      var s := head + "\n" + rest;
      assert JoinLines(xs) == s;
      assert forall j :: 0 <= j < |head| ==> s[j] == head[j];
      IndexOfFirst(s, '\n', |head|);
      assert s[..|head|] == head;
      assert s[|head| + 1..] == rest;
      assert forall k :: 0 <= k < |xs[1..]| ==> '\n' !in xs[1..][k];
      SplitJoinLines(xs[1..]);
    }
  }
}
