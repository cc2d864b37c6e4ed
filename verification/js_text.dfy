/** The JavaScript string operations the gate and the form rely on, over
    `string` (a `seq<char>`): `split` and `join` with a one-character
    separator, `includes`, `startsWith`, and the truthiness of a value that
    may be a string, `undefined` or `null`. */
module JsText {
  import opened Wrappers

  /** JavaScript truthiness of a possibly-absent string: `undefined`, `null`
      and `''` are falsy, every other string is truthy. */
  predicate Truthy(v: Option<string>) {
    v.Some? && v.value != ""
  }

  /** `v || fallback` for a possibly-absent string. */
  function OrElse(v: Option<string>, fallback: string): string {
    if Truthy(v) then v.value else fallback
  }

  /** `s.startsWith(p)`. */
  predicate StartsWith(s: string, p: string) {
    p <= s
  }

  /** The position of the first `c` in `s`. */
  function IndexOf(s: string, c: char): (i: nat)
    requires c in s
    ensures i < |s| && s[i] == c
    ensures c !in s[..i]
  {
    if s[0] == c then 0 else 1 + IndexOf(s[1..], c)
  }

  /** The first `c` in `s` is at `j` when `s[j]` is a `c` and no earlier
      character is. */
  lemma IndexOfIs(s: string, c: char, j: nat)
    requires j < |s| && s[j] == c && c !in s[..j]
    ensures IndexOf(s, c) == j
  {
  }

  /** `s.split(c)` for a one-character separator: the maximal runs of `s`
      that contain no `c`, in order, including empty runs. `"".split(c)` is
      `[""]`, so the result is never empty. */
  function Split(s: string, c: char): (parts: seq<string>)
    ensures |parts| >= 1
    ensures forall k :: 0 <= k < |parts| ==> c !in parts[k]
    decreases |s|
  {
    if c !in s then [s]
    else
      var i := IndexOf(s, c);
      [s[..i]] + Split(s[i + 1..], c)
  }

  /** `parts.join(sep)`: an empty array joins to `""`. */
  function Join(parts: seq<string>, sep: string): (r: string)
    ensures |parts| == 0 ==> r == ""
    ensures |parts| >= 1 ==> parts[0] <= r
  {
    if |parts| == 0 then ""
    else if |parts| == 1 then parts[0]
    else parts[0] + sep + Join(parts[1..], sep)
  }

  /** Joining two non-empty arrays back to back puts one separator
      between the join of each: every element appears, in order, each later
      one after a separator. */
  lemma {:induction false} JoinConcat(p: seq<string>, q: seq<string>, sep: string)
    requires |p| >= 1 && |q| >= 1
    ensures Join(p + q, sep) == Join(p, sep) + sep + Join(q, sep)
    decreases |p|
  {
    if |p| == 1 {
      assert (p + q)[1..] == q;
    } else {
      assert (p + q)[1..] == p[1..] + q;
      JoinConcat(p[1..], q, sep);
    }
  }

  /** `s.includes(t)`. */
  predicate Contains(s: string, t: string)
    ensures t <= s ==> Contains(s, t)
    ensures Contains(s, t) ==> |t| <= |s|
    decreases |s|
  {
    t <= s || (|s| > 0 && Contains(s[1..], t))
  }

  /** `t` occurs in `s` starting at index `i`. */
  ghost predicate OccursAt(s: string, t: string, i: nat) {
    i + |t| <= |s| && s[i..i + |t|] == t
  }

  /** `t` occurs somewhere in `s`. */
  ghost predicate Mentions(s: string, t: string) {
    exists i: nat :: OccursAt(s, t, i)
  }

  /** The structural shape check both sides apply to a token before using
      it: `token.split('.').length === 3`, the three dot-separated parts of
      the JWS Compact Serialization (section 7.1 of RFC 7515). */
  predicate ThreeSegments(token: string) {
    |Split(token, '.')| == 3
  }

  /** Joining the pieces of a split with the separator gives the string back. */
  lemma {:induction false} JoinSplit(s: string, c: char)
    ensures Join(Split(s, c), [c]) == s
    decreases |s|
  {
    if c in s {
      var i := IndexOf(s, c);
      var rest := s[i + 1..];
      JoinSplit(rest, c);
      assert Split(s, c)[1..] == Split(rest, c);
      assert s == s[..i] + [c] + rest;
    }
  }

  /** Splitting a join of separator-free pieces gives the pieces back. */
  lemma {:induction false} SplitJoin(parts: seq<string>, c: char)
    requires |parts| >= 1
    requires forall k :: 0 <= k < |parts| ==> c !in parts[k]
    ensures Split(Join(parts, [c]), c) == parts
    decreases |parts|
  {
    if |parts| > 1 {
      var s := Join(parts, [c]);
      var head := parts[0];
      var tail := Join(parts[1..], [c]);
      assert s == head + [c] + tail;
      assert s[|head|] == c;
      assert s[..|head|] == head;
      IndexOfIs(s, c, |head|);
      assert s[|head| + 1..] == tail;
      SplitJoin(parts[1..], c);
    }
  }

  /** `split(c).length` is one more than the number of `c`s. */
  lemma {:induction false} SplitLength(s: string, c: char)
    ensures |Split(s, c)| == multiset(s)[c] + 1
    decreases |s|
  {
    if c in s {
      var i := IndexOf(s, c);
      var rest := s[i + 1..];
      SplitLength(rest, c);
      assert s == s[..i] + [c] + rest;
      assert multiset(s) == multiset(s[..i]) + multiset([c]) + multiset(rest);
      assert multiset(s[..i])[c] == 0;
    } else {
      assert multiset(s)[c] == 0;
    }
  }

  /** A token has three segments exactly when it has exactly two dots. */
  lemma ThreeSegmentsIffTwoDots(token: string)
    ensures ThreeSegments(token) <==> multiset(token)['.'] == 2
  {
    SplitLength(token, '.');
  }

  /** `s.split(c)` has a second element exactly when `s` contains `c`. */
  lemma SplitHasSecond(s: string, c: char)
    ensures |Split(s, c)| >= 2 <==> c in s
  {
  }

  /** `s.split(c)[1]` is the text between the first and the second `c` (or
      the end of `s` when there is no second `c`). */
  lemma SplitSecond(s: string, c: char, before: string, between: string, after: string)
    requires s == before + [c] + between + after
    requires c !in before && c !in between
    requires after == [] || after[0] == c
    ensures |Split(s, c)| >= 2 && Split(s, c)[1] == between
  {
    assert s[|before|] == c;
    assert s[..|before|] == before;
    IndexOfIs(s, c, |before|);
    var rest := s[|before| + 1..];
    assert rest == between + after;
    SplitFirst(rest, c, between, after);
  }

  /** `t.split(c)[0]` is the longest prefix of `t` without `c`. */
  lemma SplitFirst(t: string, c: char, first: string, after: string)
    requires t == first + after
    requires c !in first
    requires after == [] || after[0] == c
    ensures Split(t, c)[0] == first
  {
    if c in t {
      var i := IndexOf(t, c);
      assert after != [] && t[|first|] == c;
      assert t[..|first|] == first;
      IndexOfIs(t, c, |first|);
    }
  }

  /** `includes` agrees with the occurrence-at-an-index definition. */
  lemma {:induction false} ContainsIffOccurs(s: string, t: string)
    ensures Contains(s, t) <==> Mentions(s, t)
    decreases |s|
  {
    if t <= s {
      assert OccursAt(s, t, 0);
    } else if |s| == 0 {
      forall i: nat | OccursAt(s, t, i)
        ensures false
      {
      }
    } else {
      ContainsIffOccurs(s[1..], t);
      if Contains(s[1..], t) {
        var j: nat :| OccursAt(s[1..], t, j);
        assert s[j + 1..j + 1 + |t|] == s[1..][j..j + |t|];
        assert OccursAt(s, t, j + 1);
      } else {
        forall i: nat | OccursAt(s, t, i)
          ensures false
        {
          if i > 0 {
            assert s[1..][i - 1..i - 1 + |t|] == s[i..i + |t|];
            assert OccursAt(s[1..], t, i - 1);
          }
        }
      }
    }
  }
}
