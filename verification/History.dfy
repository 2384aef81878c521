/** Whole histories of a ByteArray: any list of writes, reads, cursor moves and
    clears behaves as on one flat byte sequence, and every read returns the bytes
    written last. */
module Histories {
  import opened Bytes
  import opened ByteArrays
  import opened Options
  import opened Tapes

  datatype Call = DoWrite(buf: seq<Byte>) | DoRead(n: nat) | DoSeek(v: nat) | DoClear

  /** What a call did: its work, handing out bytes or a failure to, throwing
      out_of_range, or dereferencing the null block, which ends the history. */
  datatype Effect = Fine | Fetched(r: ReadOutcome<seq<Byte>>) | Thrown | Crashed

  /** One call takes tape `t` to `t'`. A cursor moved behind the data makes what
      is there part of the data, whatever it is. */
  predicate Follows(t: Tape, call: Call, e: Effect, t': Tape) {
    t.base > 0 && t.pos <= |t.data| <= t.pos + t.room &&
    match call
    case DoWrite(buf) => e == Fine && t.Write(buf) == Some(t')
    case DoRead(n) => e == Fetched(t.Read(n)) && t' == if t.Read(n).Got? then t.Skip(n) else t
    case DoSeek(v) =>
      if v > t.pos + t.room then e == Thrown && t' == t
      else
        && e == Fine && t'.base == t.base && t'.pos == v && t'.pos + t'.room == t.pos + t.room
        && t.data <= t'.data && |t'.data| == if v > |t.data| then v else |t.data|
    case DoClear => e == Fine && t' == Tape(t.base, [], 0, t.base)
  }

  /** `tapes` is what the first |effects| calls go through. */
  predicate IsHistory(tapes: seq<Tape>, calls: seq<Call>, effects: seq<Effect>) {
    && |tapes| == |effects| + 1 <= |calls| + 1
    && forall i :: 0 <= i < |effects| ==> Follows(tapes[i], calls[i], effects[i], tapes[i + 1])
  }

  /** The block list goes through the same history as the tape. It ends early only
      where a write runs into the null block, which is exactly where the growth
      falls short, or a read of nothing meets it. */
  method Replay(ba: ByteArray, calls: seq<Call>) returns (effects: seq<Effect>, ghost tapes: seq<Tape>, crashed: bool)
    requires ba.Valid()
    modifies ba.Repr
    ensures IsHistory(tapes, calls, effects) && tapes[0] == old(ba.AsTape())
    ensures !crashed ==> |effects| == |calls| && ba.Valid() && ba.AsTape() == tapes[|calls|]
    ensures crashed ==>
              && |effects| < |calls| && tapes[|effects|].Valid()
              && match calls[|effects|]
                 case DoWrite(buf) => tapes[|effects|].Write(buf) == None
                 case DoRead(n) => tapes[|effects|].Read(n) == NullBlock
                 case _ => false
  {
    hide Follows;
    effects, tapes := [], [ba.AsTape()];
    for i := 0 to |calls|
      invariant |effects| == i && ba.Valid() && fresh(ba.Repr - old(ba.Repr))
      invariant IsHistory(tapes, calls, effects) && tapes[0] == old(ba.AsTape()) && ba.AsTape() == tapes[i]
    {
      var e := Perform(ba, calls[i]);
      if e == Crashed {
        return effects, tapes, true;
      }
      effects, tapes := effects + [e], tapes + [ba.AsTape()];
    }
    crashed := false;
  }

  method Perform(ba: ByteArray, call: Call) returns (e: Effect)
    requires ba.Valid()
    modifies ba.Repr
    ensures e != Crashed ==> ba.Valid() && fresh(ba.Repr - old(ba.Repr))
    ensures e != Crashed ==> Follows(old(ba.AsTape()), call, e, ba.AsTape())
    ensures e == Crashed ==>
              match call
              case DoWrite(buf) => old(ba.AsTape()).Write(buf) == None
              case DoRead(n) => old(ba.AsTape()).Read(n) == NullBlock
              case _ => false
  {
    hide Overwrite, Fits, Grown, Spine, Holds, Flatten, Span;
    match call
    case DoWrite(buf) =>
      var ok := ba.Write(buf);
      e := if ok then Fine else Crashed;
    case DoRead(n) =>
      var r := ba.Read(n);
      e := if r == NullBlock then Crashed else Fetched(r);
    case DoSeek(v) =>
      var ok := ba.SetPosition(v);
      e := if ok then Fine else Thrown;
    case DoClear =>
      ba.Clear();
      e := Fine;
  }

  /** The byte written last at place `p` in the first `i` calls, since the last
      clear. */
  function LastWritten(tapes: seq<Tape>, calls: seq<Call>, i: nat, p: nat): Option<Byte>
    requires i <= |calls| && i <= |tapes|
  {
    if i == 0 then None
    else
      var at := tapes[i - 1].pos;
      match calls[i - 1]
      case DoWrite(buf) => if at <= p < at + |buf| then Some(buf[p - at]) else LastWritten(tapes, calls, i - 1, p)
      case DoClear => None
      case _ => LastWritten(tapes, calls, i - 1, p)
  }

  /** The data keep the byte written last at each place. */
  lemma {:induction false} Remembered(tapes: seq<Tape>, calls: seq<Call>, effects: seq<Effect>, i: nat, p: nat)
    requires IsHistory(tapes, calls, effects) && i <= |effects| && LastWritten(tapes, calls, i, p).Some?
    ensures p < |tapes[i].data| && tapes[i].data[p] == LastWritten(tapes, calls, i, p).value
  {
    hide Fits, Grown;
    if i > 0 {
      assert Follows(tapes[i - 1], calls[i - 1], effects[i - 1], tapes[i]);
      if LastWritten(tapes, calls, i - 1, p).Some? && !calls[i - 1].DoClear? {
        Remembered(tapes, calls, effects, i - 1, p);
      }
      if calls[i - 1].DoWrite? {
        OverwriteAt(tapes[i - 1].data, tapes[i - 1].pos, calls[i - 1].buf, p);
      }
    }
  }

  lemma OverwriteAt(d: seq<Byte>, at: nat, buf: seq<Byte>, p: nat)
    requires at <= |d|
    ensures var r := Overwrite(d, at, buf);
            && (at <= p < at + |buf| ==> p < |r| && r[p] == buf[p - at])
            && (p < |d| && !(at <= p < at + |buf|) ==> p < |r| && r[p] == d[p])
  {
  }

  /** In every history, a read that succeeds returns at each place the byte that
      was written there last. */
  lemma ReadsLastWritten(tapes: seq<Tape>, calls: seq<Call>, effects: seq<Effect>, i: nat, s: seq<Byte>)
    requires IsHistory(tapes, calls, effects) && i < |effects| && calls[i].DoRead? && effects[i] == Fetched(Got(s))
    ensures |s| == calls[i].n
    ensures forall j :: 0 <= j < |s| ==>
              var w := LastWritten(tapes, calls, i, tapes[i].pos + j); w.Some? ==> s[j] == w.value
  {
    assert Follows(tapes[i], calls[i], effects[i], tapes[i + 1]);
    forall j | 0 <= j < |s| && LastWritten(tapes, calls, i, tapes[i].pos + j).Some?
      ensures s[j] == LastWritten(tapes, calls, i, tapes[i].pos + j).value
    {
      Remembered(tapes, calls, effects, i, tapes[i].pos + j);
    }
  }
}
