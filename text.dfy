/** Strings as sequences of characters: prefix, suffix and infix tests, and the
    text a `StringBuilder` accumulates when a `forEach` appends one piece per
    element. */
module Text {

  predicate IsPrefix(p: string, s: string) {
    |p| <= |s| && s[..|p|] == p
  }

  predicate IsSuffix(p: string, s: string) {
    |p| <= |s| && s[|s| - |p|..] == p
  }

  /** `p` occurs somewhere inside `s`. */
  predicate IsInfix(p: string, s: string) {
    exists k :: 0 <= k <= |s| && IsPrefix(p, s[k..])
  }

  /** Java's `s.endsWith(suffix)`. */
  predicate EndsWith(s: string, suffix: string) {
    IsSuffix(suffix, s)
  }

  /** The pieces `f(x)` for the elements `x` of `xs`, concatenated in order. */
  function ConcatMap<T>(xs: seq<T>, f: T -> string): string {
    if xs == [] then "" else ConcatMap(xs[..|xs| - 1], f) + f(xs[|xs| - 1])
  }

  lemma {:induction false} ConcatMapAppend<T>(xs: seq<T>, ys: seq<T>, f: T -> string)
    ensures ConcatMap(xs + ys, f) == ConcatMap(xs, f) + ConcatMap(ys, f)
    decreases |ys|
  {
    if ys == [] {
      assert xs + ys == xs;
    } else {
      var zs := xs + ys;
      assert zs[..|zs| - 1] == xs + ys[..|ys| - 1];
      assert zs[|zs| - 1] == ys[|ys| - 1];
      ConcatMapAppend(xs, ys[..|ys| - 1], f);
    }
  }

  /** Element `i` contributes its piece right after the pieces of `xs[..i]`. */
  lemma {:induction false} ConcatMapAt<T>(xs: seq<T>, i: int, f: T -> string)
    requires 0 <= i < |xs|
    ensures ConcatMap(xs, f) == ConcatMap(xs[..i], f) + f(xs[i]) + ConcatMap(xs[i + 1..], f)
  {
    assert xs == xs[..i] + [xs[i]] + xs[i + 1..];
    ConcatMapAppend(xs[..i] + [xs[i]], xs[i + 1..], f);
    ConcatMapAppend(xs[..i], [xs[i]], f);
    assert [xs[i]][..0] == [];
  }

  /** A piece that is followed by a known string occurs in the whole text at a known offset. */
  lemma InfixAt(a: string, p: string, b: string)
    ensures IsPrefix(p, (a + p + b)[|a|..])
    ensures IsInfix(p, a + p + b)
  {
    var s := a + p + b;
    assert s[|a|..][..|p|] == p;
  }

  lemma PrefixOfConcat(a: string, b: string)
    ensures IsPrefix(a, a + b)
  {
    assert (a + b)[..|a|] == a;
  }

  lemma SuffixOfConcat(a: string, b: string)
    ensures IsSuffix(b, a + b)
  {
    assert (a + b)[|a|..] == b;
  }

  lemma SuffixOfConcat3(a: string, b: string, c: string)
    ensures IsSuffix(b + c, a + b + c)
  {
    assert a + b + c == a + (b + c);
    SuffixOfConcat(a, b + c);
  }

  lemma ConcatAssoc(a: string, b: string, c: string, d: string)
    ensures a + b + c + d == a + (b + c + d)
  {
  }

  /** Occurrence is transitive: a piece of a piece of `s` is a piece of `s`. */
  lemma InfixTrans(p: string, q: string, s: string)
    requires IsInfix(p, q) && IsInfix(q, s)
    ensures IsInfix(p, s)
  {
    var j :| 0 <= j <= |q| && IsPrefix(p, q[j..]);
    var k :| 0 <= k <= |s| && IsPrefix(q, s[k..]);
    assert s[k + j..][..|p|] == q[j..][..|p|];
    assert IsPrefix(p, s[k + j..]);
  }

  lemma PrefixTrans(p: string, q: string, s: string)
    requires IsPrefix(p, q) && IsPrefix(q, s)
    ensures IsPrefix(p, s)
  {
    assert s[..|p|] == s[..|q|][..|p|];
  }
}
