/** Byte sequences: what a list of equal blocks means as one flat sequence, and
    what overwriting part of such a sequence does. */
module Bytes {

  type Byte = x: int | 0 <= x < 256

  /** The flat sequence a list of blocks stands for. */
  function Flatten(blocks: seq<seq<Byte>>): seq<Byte> {
    if blocks == [] then [] else blocks[0] + Flatten(blocks[1..])
  }

  ghost predicate Uniform(blocks: seq<seq<Byte>>, n: nat) {
    forall i :: 0 <= i < |blocks| ==> |blocks[i]| == n
  }

  /** The length of `count` blocks of `n` bytes, count * n. */
  function Span(count: nat, n: nat): nat {
    if count == 0 then 0 else Span(count - 1, n) + n
  }

  lemma {:induction false} SpanIsProduct(count: nat, n: nat)
    ensures Span(count, n) == count * n
  {
    if count > 0 {
      SpanIsProduct(count - 1, n);
    }
  }

  lemma SpanOne(n: nat)
    ensures Span(1, n) == n
  {
  }

  lemma {:induction false} SpanAdd(a: nat, b: nat, n: nat)
    ensures Span(a + b, n) == Span(a, n) + Span(b, n)
  {
    if b > 0 {
      SpanAdd(a, b - 1, n);
    }
  }

  lemma {:induction false} SpanMonotone(a: nat, b: nat, n: nat)
    requires a <= b
    ensures Span(a, n) <= Span(b, n)
  {
    if a < b {
      SpanMonotone(a, b - 1, n);
    }
  }

  /** `s` with `t` in place of the bytes from `p` on. */
  function Splice(s: seq<Byte>, p: nat, t: seq<Byte>): (r: seq<Byte>)
    requires p + |t| <= |s|
    ensures |r| == |s|
  {
    s[..p] + t + s[p + |t|..]
  }

  /** Writing `t` at `p`, where the sequence may end before `t` does. */
  function Overwrite(d: seq<Byte>, p: nat, t: seq<Byte>): (r: seq<Byte>)
    requires p <= |d|
    ensures |r| == if p + |t| <= |d| then |d| else p + |t|
  {
    d[..p] + t + (if p + |t| <= |d| then d[p + |t|..] else [])
  }

  lemma OverwriteNothing(d: seq<Byte>, p: nat)
    requires p <= |d|
    ensures Overwrite(d, p, []) == d
  {
  }

  function Reverse(s: seq<Byte>): (r: seq<Byte>)
    ensures |r| == |s|
    ensures forall i :: 0 <= i < |s| ==> r[i] == s[|s| - 1 - i]
  {
    if s == [] then [] else Reverse(s[1..]) + [s[0]]
  }

  lemma ReverseTwice(s: seq<Byte>)
    ensures Reverse(Reverse(s)) == s
  {
  }

  lemma {:induction false} FlattenLength(blocks: seq<seq<Byte>>, n: nat)
    requires Uniform(blocks, n)
    ensures |Flatten(blocks)| == Span(|blocks|, n)
  {
    if blocks != [] {
      FlattenLength(blocks[1..], n);
    }
  }

  lemma Associates(a: seq<Byte>, b: seq<Byte>, c: seq<Byte>)
    ensures a + (b + c) == a + b + c
  {
  }

  lemma FlattenFirst(blocks: seq<seq<Byte>>)
    requires blocks != []
    ensures Flatten(blocks) == blocks[0] + Flatten(blocks[1..])
  {
  }

  lemma {:induction false} FlattenAppend(a: seq<seq<Byte>>, b: seq<seq<Byte>>)
    ensures Flatten(a + b) == Flatten(a) + Flatten(b)
  {
    if a == [] {
      assert a + b == b;
    } else {
      hide Flatten;
      FlattenAppend(a[1..], b);
      var c := a + b;
      assert c[0] == a[0] && c[1..] == a[1..] + b;
      FlattenFirst(c);
      FlattenFirst(a);
      Associates(a[0], Flatten(a[1..]), Flatten(b));
    }
  }

  lemma FlattenPrefix(a: seq<seq<Byte>>, b: seq<seq<Byte>>)
    requires a <= b
    ensures Flatten(a) <= Flatten(b)
  {
    assert b == a + b[|a|..];
    FlattenAppend(a, b[|a|..]);
  }

  /** Block `i` holds exactly the bytes from `i * n` to `(i + 1) * n`. */
  lemma {:induction false} FlattenSplit(blocks: seq<seq<Byte>>, n: nat, i: nat)
    requires Uniform(blocks, n) && i < |blocks|
    ensures Span(i, n) + n <= |Flatten(blocks)| == Span(|blocks|, n)
    ensures Flatten(blocks) == Flatten(blocks[..i]) + blocks[i] + Flatten(blocks[i + 1..])
    ensures |Flatten(blocks[..i])| == Span(i, n)
    ensures Flatten(blocks)[Span(i, n)..Span(i, n) + n] == blocks[i]
  {
    assert blocks == blocks[..i] + ([blocks[i]] + blocks[i + 1..]);
    FlattenAppend(blocks[..i], [blocks[i]] + blocks[i + 1..]);
    FlattenAppend([blocks[i]], blocks[i + 1..]);
    assert Flatten([blocks[i]]) == blocks[i] + [];
    FlattenLength(blocks, n);
    FlattenLength(blocks[..i], n);
  }

  lemma FlattenSlice(blocks: seq<seq<Byte>>, n: nat, i: nat, p: nat, m: nat)
    requires Uniform(blocks, n) && i < |blocks| && p + m <= n
    ensures Span(i, n) + p + m <= |Flatten(blocks)|
    ensures Flatten(blocks)[Span(i, n) + p..Span(i, n) + p + m] == blocks[i][p..p + m]
  {
    hide Flatten;
    FlattenSplit(blocks, n, i);
    var s, a := Flatten(blocks), Span(i, n);
    assert s[a..a + n][p..p + m] == s[a + p..a + p + m];
  }

  lemma FlattenReplace(blocks: seq<seq<Byte>>, n: nat, i: nat, b: seq<Byte>)
    requires Uniform(blocks, n) && i < |blocks| && |b| == n
    ensures Flatten(blocks[i := b]) == Flatten(blocks[..i]) + b + Flatten(blocks[i + 1..])
  {
    hide Flatten;
    var after := blocks[i := b];
    FlattenSplit(after, n, i);
    assert after[..i] == blocks[..i] && after[i + 1..] == blocks[i + 1..];
  }

  lemma SpliceMiddle(l: seq<Byte>, b: seq<Byte>, r: seq<Byte>, p: nat, t: seq<Byte>)
    requires p + |t| <= |b|
    ensures Splice(l + b + r, |l| + p, t) == l + Splice(b, p, t) + r
  {
    var s := l + b + r;
    assert s[..|l| + p] == l + b[..p];
    assert s[|l| + p + |t|..] == b[p + |t|..] + r;
  }

  /** Replacing bytes inside one block is replacing them in the flat sequence. */
  lemma FlattenSplice(blocks: seq<seq<Byte>>, n: nat, i: nat, p: nat, t: seq<Byte>)
    requires Uniform(blocks, n) && i < |blocks| && p + |t| <= n
    ensures Span(i, n) + p + |t| <= |Flatten(blocks)|
    ensures Flatten(blocks[i := Splice(blocks[i], p, t)]) == Splice(Flatten(blocks), Span(i, n) + p, t)
  {
    hide Flatten;
    FlattenSplit(blocks, n, i);
    FlattenReplace(blocks, n, i, Splice(blocks[i], p, t));
    SpliceMiddle(Flatten(blocks[..i]), blocks[i], Flatten(blocks[i + 1..]), p, t);
  }

  lemma OverwriteTwice(d: seq<Byte>, p: nat, a: seq<Byte>, b: seq<Byte>)
    requires p <= |d|
    ensures Overwrite(Overwrite(d, p, a), p + |a|, b) == Overwrite(d, p, a + b)
  {
  }

  /** Overwriting after growth: the old bytes are overwritten, and so are the
      first `size` of them, which the new bytes may extend. */
  lemma OverwriteGrown(s: seq<Byte>, grown: seq<Byte>, size: nat, p: nat, t: seq<Byte>)
    requires s <= grown && p <= size <= |s|
    ensures p + |t| <= |grown| ==> Overwrite(s, p, t) <= Splice(grown, p, t)
    ensures p + |t| <= |grown| ==>
      Splice(grown, p, t)[..if p + |t| > size then p + |t| else size] == Overwrite(s[..size], p, t)
  {
  }

  lemma SpliceNothing(s: seq<Byte>, p: nat)
    requires p <= |s|
    ensures Splice(s, p, []) == s
  {
  }

  /** Two adjacent overwrites are one: the first `i` bytes of `t`, then the
      next `n`. */
  lemma SpliceNext(s: seq<Byte>, p: nat, t: seq<Byte>, i: nat, n: nat)
    requires i + n <= |t| && p + i + n <= |s|
    ensures Splice(Splice(s, p, t[..i]), p + i, t[i..i + n]) == Splice(s, p, t[..i + n])
  {
    assert t[..i + n] == t[..i] + t[i..i + n];
  }
}
