/** The Python string operations the report templates rely on:
    `sep.join(xs)`, `s.split(c)` and `s.split(c, 1)`, with the search for
    the first `c` they rely on,
    for a separator made of one character. */
module Text {

  datatype Option<+T> = None | Some(value: T)

  /** `s.startswith(p)`. */
  predicate IsPrefix(p: string, s: string)
  {
    |p| <= |s| && s[..|p|] == p
  }

  /** `s.endswith(p)`. */
  predicate IsSuffix(p: string, s: string)
  {
    |p| <= |s| && s[|s| - |p|..] == p
  }

  /** `p in s` for strings: `p` occurs somewhere in `s`. */
  predicate IsInfix(p: string, s: string)
  {
    exists i :: 0 <= i <= |s| && IsPrefix(p, s[i..])
  }

  /** A text occurs in anything built around it. */
  lemma InfixOf(a: string, p: string, b: string)
    ensures IsInfix(p, a + p + b)
  {
    assert (a + p + b)[|a|..] == p + b;
    assert (p + b)[..|p|] == p;
  }

  /** A text starts with at most one of two prefixes whose first
      characters differ. */
  lemma PrefixesExclude(p: string, q: string, s: string)
    requires |p| > 0 && |q| > 0 && p[0] != q[0]
    requires IsPrefix(p, s)
    ensures !IsPrefix(q, s)
  {
    assert s[0] == s[..|p|][0] == p[0];
  }

  /** `sep.join(xs)`: the items with `sep` between neighbours. */
  function Join(sep: string, xs: seq<string>): string
  {
    if |xs| == 0 then ""
    else if |xs| == 1 then xs[0]
    else xs[0] + sep + Join(sep, xs[1..])
  }

  /** `[p + x for x in xs]`. */
  function PrefixEach(p: string, xs: seq<string>): seq<string>
  {
    seq(|xs|, i requires 0 <= i < |xs| => p + xs[i])
  }

  /** `[p + x for x in xs]` taken apart at its first item. */
  lemma PrefixEachFirst(p: string, xs: seq<string>)
    requires |xs| >= 1
    ensures PrefixEach(p, xs) == [p + xs[0]] + PrefixEach(p, xs[1..])
  {
    var l, r := PrefixEach(p, xs), [p + xs[0]] + PrefixEach(p, xs[1..]);
    assert |l| == |r|;
    forall k | 0 <= k < |l| ensures l[k] == r[k] {
      if k > 0 {
        assert r[k] == PrefixEach(p, xs[1..])[k - 1];
      }
    }
  }

  /** The first position of `c` in `s`, if any: where `split` cuts. */
  function FindChar(s: string, c: char): (r: Option<nat>)
    ensures r.None? <==> c !in s
    ensures r.Some? ==> r.value < |s| && s[r.value] == c && c !in s[..r.value]
  {
    if |s| == 0 then None
    else if s[0] == c then Some(0)
    else
      match FindChar(s[1..], c)
      case None => None
      case Some(i) =>
        assert s[..i + 1] == [s[0]] + s[1..][..i];
        Some(i + 1)
  }

  /** `s.split(c)`: the pieces of `s` between the occurrences of `c`;
      there is always at least one piece, and joining them back with `c`
      gives `s`. */
  function Split(s: string, c: char): (parts: seq<string>)
    ensures |parts| >= 1
    ensures forall k :: 0 <= k < |parts| ==> c !in parts[k]
    ensures Join([c], parts) == s
    decreases |s|
  {
    match FindChar(s, c)
    case None => [s]
    case Some(i) =>
      var rest := Split(s[i + 1..], c);
      assert ([s[..i]] + rest)[1..] == rest;
      assert s == s[..i] + [c] + s[i + 1..];
      [s[..i]] + rest
  }

  /** `s.split(c, 1)`: at most one cut, at the first `c`. */
  function SplitOnce(s: string, c: char): (parts: seq<string>)
    ensures c !in s ==> parts == [s]
    ensures c in s ==> |parts| == 2 && c !in parts[0] && parts[0] + [c] + parts[1] == s
  {
    match FindChar(s, c)
    case None => [s]
    case Some(i) =>
      assert s == s[..i] + [c] + s[i + 1..];
      [s[..i], s[i + 1..]]
  }

  /** The first piece of `s.split(c)` is the first piece of `s.split(c, 1)`:
      the text before the first `c`, or all of `s` when there is none. */
  lemma SplitFirstPiece(s: string, c: char)
    ensures Split(s, c)[0] == SplitOnce(s, c)[0]
    ensures c in s ==> Split(s, c)[0] + [c] + SplitOnce(s, c)[1] == s
    ensures c !in s ==> Split(s, c) == [s]
  {
  }

  /** Splitting at `c` a text whose first `c` follows the item `a` cuts
      `a` off as the first piece. */
  lemma SplitAfterItem(a: string, c: char, b: string)
    requires c !in a
    ensures Split(a + [c] + b, c) == [a] + Split(b, c)
  {
    var s := a + [c] + b;
    assert s[|a|] == c;
    assert s[..|a|] == a;
    assert s[|a| + 1..] == b;
  }

  /** `sep.join([x] + xs)` for a non-empty `xs`. */
  lemma JoinCons(sep: string, x: string, xs: seq<string>)
    requires |xs| >= 1
    ensures Join(sep, [x] + xs) == x + sep + Join(sep, xs)
  {
    assert ([x] + xs)[1..] == xs;
  }

  /** Putting `t` in front of the first item puts it in front of the join. */
  lemma JoinPrefixFirst(sep: string, t: string, xs: seq<string>)
    requires |xs| >= 1
    ensures Join(sep, [t + xs[0]] + xs[1..]) == t + Join(sep, xs)
  {
    if |xs| > 1 {
      JoinCons(sep, t + xs[0], xs[1..]);
      JoinCons(sep, xs[0], xs[1..]);
      assert [xs[0]] + xs[1..] == xs;
    }
  }

  /** Joining with a separator `[c] + t` and splitting at `c` again gives
      back the first item and every later item behind a copy of `t`, as
      long as neither the items nor `t` contain `c`. */
  lemma {:induction false} SplitJoin(c: char, t: string, xs: seq<string>)
    requires |xs| >= 1
    requires c !in t
    requires forall k :: 0 <= k < |xs| ==> c !in xs[k]
    ensures Split(Join([c] + t, xs), c) == [xs[0]] + PrefixEach(t, xs[1..])
    decreases |xs|
  {
    var sep := [c] + t;
    if |xs| == 1 {
      assert Join(sep, xs) == xs[0];
      assert Split(xs[0], c) == [xs[0]];
    } else {
      var tail := Join(sep, xs[1..]);
      JoinCons(sep, xs[0], xs[1..]);
      assert [xs[0]] + xs[1..] == xs;
      assert Join(sep, xs) == xs[0] + [c] + (t + tail);
      SplitAfterItem(xs[0], c, t + tail);
      var ys := [t + xs[1]] + xs[2..];
      assert xs[1..][1..] == xs[2..];
      JoinPrefixFirst(sep, t, xs[1..]);
      assert Join(sep, ys) == t + tail;
      assert forall k :: 0 <= k < |ys| ==> c !in ys[k] by {
        assert c !in t + xs[1];
        forall k | 1 <= k < |ys| ensures c !in ys[k] {
          assert ys[k] == xs[k + 1];
        }
      }
      SplitJoin(c, t, ys);
      assert ys[1..] == xs[2..];
      PrefixEachFirst(t, xs[1..]);
    }
  }

  /** Joining lines with `c` and splitting at `c` is the identity on a
      non-empty list of items that do not contain `c`. */
  lemma JoinedLines(c: char, xs: seq<string>)
    requires |xs| >= 1
    requires forall k :: 0 <= k < |xs| ==> c !in xs[k]
    ensures Split(Join([c], xs), c) == xs
  {
    SplitJoin(c, "", xs);
    assert [c] + "" == [c];
    assert PrefixEach("", xs[1..]) == xs[1..];
    assert [xs[0]] + xs[1..] == xs;
  }
}
