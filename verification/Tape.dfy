/** What a ByteArray is for its users: one flat byte sequence with a cursor,
    and the typed reads and writes at that cursor. */
module Tapes {
  import opened Bytes
  import opened Codec
  import opened Options

  datatype ReadOutcome<+T> =
    | Got(value: T)
    | OutOfRange   // std::out_of_range is thrown
    | NullBlock    // the null block pointer is dereferenced

  // ---- growth ----------------------------------------------------------

  /** What addCapacity computes: the number of blocks it appends when `room`
      bytes are free from the cursor on and `want` are asked for. */
  function GrowBlocks(base: nat, room: nat, want: nat): nat
    requires base > 0
  {
    if want <= room then 0
    else
      var more := want - room;
      more / base + if more % base > room then 1 else 0
  }

  /** The guard that decides whether that is enough. */
  predicate Fits(base: nat, room: nat, want: nat)
    requires base > 0
  {
    want <= room || (want - room) % base == 0 || (want - room) % base > room
  }

  function Grown(base: nat, room: nat, want: nat): nat
    requires base > 0
  {
    room + Span(GrowBlocks(base, room, want), base)
  }

  /** addCapacity leaves the room it was asked for exactly when `Fits`. */
  lemma GrowthSuffices(base: nat, room: nat, want: nat)
    requires base > 0
    ensures Grown(base, room, want) >= want <==> Fits(base, room, want)
  {
    SpanIsProduct(GrowBlocks(base, room, want), base);
    if want > room {
      var d := want - room;
      assert d == (d / base) * base + d % base;
      assert (d / base + 1) * base == (d / base) * base + base;
    }
  }

  /** It always does when no room was left, and when blocks are single bytes. */
  lemma GrowthSufficesWhenFull(base: nat, room: nat, want: nat)
    requires base > 0 && (room == 0 || base == 1)
    ensures Fits(base, room, want)
  {
    if base == 1 {
      QuotientUnique(want - room, 1, want - room, 0);
    }
  }

  lemma NoGrowth(base: nat, room: nat, want: nat)
    requires base > 0 && (want == 0 || room >= want)
    ensures Fits(base, room, want) && Grown(base, room, want) == room
  {
  }

  /** It appends what rounding up would, or one block less; never more. */
  lemma GrowthIs(base: nat, room: nat, want: nat)
    requires base > 0 && want > room
    ensures GrowBlocks(base, room, want)
            == (want - room + base - 1) / base - if Fits(base, room, want) then 0 else 1
  {
    var d := want - room;
    var q, r := d / base, d % base;
    assert d == q * base + r;
    if r == 0 {
      QuotientUnique(d + base - 1, base, q, base - 1);
    } else {
      assert (q + 1) * base == q * base + base;
      QuotientUnique(d + base - 1, base, q + 1, r - 1);
    }
  }

  /** Rounding up, as the growth is evidently meant to, always leaves the room
      and never appends a block too many. */
  lemma CeilingSuffices(base: nat, room: nat, want: nat)
    requires base > 0 && want > room
    ensures var count := (want - room + base - 1) / base;
            room + count * base >= want && room + (count - 1) * base < want
  {
    var d := want - room + base - 1;
    assert d == (d / base) * base + d % base;
    assert (d / base - 1) * base == (d / base) * base - base;
  }

  /** A fresh array of the default block size has no room for 4097 bytes after
      addCapacity(4097). */
  lemma GrowthFails()
    ensures !Fits(4096, 4096, 4097) && GrowBlocks(4096, 4096, 4097) == 0
  {
  }

  // ---- the tape --------------------------------------------------------

  /** `data` is what was written so far, `pos` the cursor and `room` the number
      of bytes of capacity from the cursor on. */
  datatype Tape = Tape(base: nat, data: seq<Byte>, pos: nat, room: nat) {
    ghost predicate Valid() {
      base > 0 && pos <= |data| <= pos + room
    }

    /** Overwrites at the cursor; None when the growth falls short. */
    function Write(buf: seq<Byte>): (t: Option<Tape>)
      requires Valid()
      ensures t.Some? ==> t.value.Valid()
    {
      GrowthSuffices(base, room, |buf|);
      if !Fits(base, room, |buf|) then None
      else Some(Tape(base, Overwrite(data, pos, buf), pos + |buf|, Grown(base, room, |buf|) - |buf|))
    }

    function Read(n: nat): ReadOutcome<seq<Byte>>
      requires Valid()
    {
      if n > |data| - pos then OutOfRange
      else if n == 0 && room == 0 then NullBlock
      else Got(data[pos..pos + n])
    }

    /** The cursor somewhere in the data. */
    function Seek(v: nat): (t: Tape)
      requires Valid() && v <= |data|
      ensures t.Valid() && t.data == data && t.pos == v
    {
      Tape(base, data, v, pos + room - v)
    }

    function Skip(n: nat): (t: Tape)
      requires Valid() && n <= |data| - pos
      ensures t.Valid() && t.data == data && t.pos == pos + n
    {
      Seek(pos + n)
    }
  }

  // ---- numbers ---------------------------------------------------------

  /** How a number is stored: in `width` bytes (Fint, Fuint), or as a varint of
      a type of `bits` bits. */
  datatype Code = Fixed(width: nat) | Var(bits: nat)

  function Bits(c: Code): nat {
    match c
    case Fixed(w) => 8 * w
    case Var(bits) => bits
  }

  predicate Sized(c: Code) {
    Bits(c) > 0
  }

  /** The bytes of an unsigned number, which is first converted to the type. */
  function PutUint(order: Order, c: Code, u: nat): (s: seq<Byte>)
    requires Sized(c)
    ensures |s| > 0
  {
    match c
    case Fixed(w) => Memory(order, w, u % Pow2(8 * w))
    case Var(bits) => Leb(u % Pow2(bits))
  }

  lemma PutConverted(order: Order, c: Code, u: nat)
    requires Sized(c)
    ensures PutUint(order, c, u % Pow2(Bits(c))) == PutUint(order, c, u)
    ensures u % Pow2(Bits(c)) < Pow2(Bits(c))
  {
    var m := Pow2(Bits(c));
    ModBelow(u, m);
    QuotientUnique(u % m, m, 0, u % m);
  }

  /** The number read and the tape behind it; a failing read may have moved the
      cursor. */
  function GetUint(order: Order, c: Code, t: Tape): (r: (ReadOutcome<nat>, Tape))
    requires t.Valid() && Sized(c)
    ensures r.1.Valid() && r.1.data == t.data && r.1.base == t.base
    ensures t.pos <= r.1.pos && r.1.pos + r.1.room == t.pos + t.room
  {
    match c
    case Fixed(w) =>
      if w > |t.data| - t.pos then (OutOfRange, t)
      else (Got(Load(order, t.data[t.pos..t.pos + w])), t.Skip(w))
    case Var(bits) =>
      match UnLeb(bits, 0, 0, t.data[t.pos..])
      case Done(v, n) => (Got(v), t.Skip(n))
      case Starved(n) => (OutOfRange, t.Skip(n))
  }

  /** `t` holds `s` from the cursor on. */
  ghost predicate Ahead(t: Tape, s: seq<Byte>)
    requires t.Valid()
  {
    t.pos + |s| <= |t.data| && t.data[t.pos..t.pos + |s|] == s
  }

  lemma LoadBack(order: Order, w: nat, v: nat)
    requires v < Pow2(8 * w)
    ensures Load(order, Memory(order, w, v)) == v
  {
    hide Pow2, Load, Memory;
    LoadMemory(order, w, v);
    QuotientUnique(v, Pow2(8 * w), 0, v);
  }

  lemma GetPutFixed(order: Order, w: nat, v: nat, t: Tape)
    requires t.Valid() && w > 0 && v < Pow2(8 * w) && Ahead(t, Memory(order, w, v))
    ensures GetUint(order, Fixed(w), t) == (Got(v), t.Skip(w))
  {
    hide Pow2, Load, Memory;
    LoadBack(order, w, v);
  }

  lemma GetPutVar(order: Order, bits: nat, v: nat, t: Tape)
    requires t.Valid() && bits > 0 && v < Pow2(bits) && Ahead(t, Leb(v))
    ensures GetUint(order, Var(bits), t) == (Got(v), t.Skip(|Leb(v)|))
  {
    hide Pow2, Leb;
    var rest := t.data[t.pos + |Leb(v)|..];
    VarintRoundTrip(bits, v, rest);
    assert t.data[t.pos..] == Leb(v) + rest;
  }

  lemma GetPutUint(order: Order, c: Code, u: nat, t: Tape)
    requires t.Valid() && Sized(c) && Ahead(t, PutUint(order, c, u))
    ensures GetUint(order, c, t) == (Got(u % Pow2(Bits(c))), t.Skip(|PutUint(order, c, u)|))
    ensures u < Pow2(Bits(c)) ==> u % Pow2(Bits(c)) == u
  {
    hide Pow2, Leb, GetUint;
    var m := Pow2(Bits(c));
    if u < m {
      QuotientUnique(u, m, 0, u);
    }
    match c
    case Fixed(w) => GetPutFixed(order, w, u % m, t);
    case Var(bits) => GetPutVar(order, bits, u % m, t);
  }

  /** Signed numbers: two's complement when fixed, zigzag when variable. */
  function ToUint(c: Code, n: int): nat
    requires Sized(c)
  {
    match c
    case Fixed(w) => AsUnsigned(8 * w, n)
    case Var(bits) => EncodeZigzag(bits, n)
  }

  function ToSigned(c: Code, u: nat): int
    requires Sized(c) && u < Pow2(Bits(c))
  {
    match c
    case Fixed(w) => AsSigned(8 * w, u)
    case Var(bits) => DecodeZigzag(bits, u)
  }

  lemma SignedRoundTrip(c: Code, n: int)
    requires Sized(c) && InSigned(Bits(c), n)
    ensures ToUint(c, n) < Pow2(Bits(c)) && ToSigned(c, ToUint(c, n)) == n
  {
    match c
    case Fixed(w) => SignedUnsigned(8 * w, n);
    case Var(bits) => ZigzagRoundTrip(bits, n);
  }

  // ---- items -----------------------------------------------------------

  /** One typed value of a script, and what the reader is told of it. */
  datatype Item =
    | Unsigned(code: Code, u: nat)
    | Signed(code: Code, n: int)
    | Text(code: Code, s: seq<Byte>)

  datatype Kind = UnsignedKind(code: Code) | SignedKind(code: Code) | TextKind(code: Code)

  function KindOf(i: Item): Kind {
    match i
    case Unsigned(c, _) => UnsignedKind(c)
    case Signed(c, _) => SignedKind(c)
    case Text(c, _) => TextKind(c)
  }

  /** The values the C++ types admit. */
  ghost predicate Typed(i: Item) {
    Sized(i.code) &&
    match i
    case Unsigned(c, u) => u < Pow2(Bits(c))
    case Signed(c, n) => InSigned(Bits(c), n)
    case Text(_, _) => true
  }

  /** The write calls an item makes: a string writes its length, converted to
      the prefix type, and then its bytes. */
  function Chunks(order: Order, i: Item): seq<seq<Byte>>
    requires Sized(i.code)
  {
    [PutUint(order, i.code, Head(i))] + if i.Text? then [i.s] else []
  }

  /** The number an item starts with. */
  function Head(i: Item): nat
    requires Sized(i.code)
  {
    match i
    case Unsigned(_, u) => u
    case Signed(c, n) => ToUint(c, n)
    case Text(_, s) => |s|
  }

  function WriteChunks(t: Tape, chunks: seq<seq<Byte>>): (r: Option<Tape>)
    requires t.Valid()
    ensures r.Some? ==> r.value.Valid()
    decreases |chunks|
  {
    if chunks == [] then Some(t)
    else
      match t.Write(chunks[0])
      case None => None
      case Some(t') => WriteChunks(t', chunks[1..])
  }

  lemma WriteItemChunks(order: Order, i: Item, t: Tape)
    requires t.Valid() && Sized(i.code)
    ensures var first := t.Write(PutUint(order, i.code, Head(i)));
            WriteChunks(t, Chunks(order, i)) ==
            if first.Some? && i.Text? then first.value.Write(i.s) else first
  {
    hide PutUint, Head;
    WriteOneOrTwo(t, PutUint(order, i.code, Head(i)), if i.Text? then i.s else []);
  }

  lemma WriteOneOrTwo(t: Tape, a: seq<Byte>, b: seq<Byte>)
    requires t.Valid()
    ensures WriteChunks(t, [a]) == t.Write(a)
    ensures WriteChunks(t, [a] + [b]) == if t.Write(a).Some? then t.Write(a).value.Write(b) else None
  {
    hide Tape.Write;
    assert [a][1..] == [] && [b][1..] == [] && ([a] + [b])[1..] == [b];
    forall u: Tape | u.Valid() ensures WriteChunks(u, [b]) == u.Write(b) {
    }
  }

  function ReadItem(order: Order, k: Kind, t: Tape): (r: (ReadOutcome<Item>, Tape))
    requires t.Valid() && Sized(k.code)
    ensures r.1.Valid() && r.1.data == t.data && r.1.base == t.base
    ensures t.pos <= r.1.pos && r.1.pos + r.1.room == t.pos + t.room
  {
    var (u, t') := GetUint(order, k.code, t);
    match u
    case OutOfRange => (OutOfRange, t')
    case NullBlock => (NullBlock, t')
    case Got(n) =>
      GetUintInRange(order, k.code, t);
      match k
      case UnsignedKind(c) => (Got(Unsigned(c, n)), t')
      case SignedKind(c) => (Got(Signed(c, ToSigned(c, n))), t')
      case TextKind(c) =>
        match t'.Read(n)
        case Got(s) => (Got(Text(c, s)), t'.Skip(n))
        case OutOfRange => (OutOfRange, t')
        case NullBlock => (NullBlock, t')
  }

  lemma GetUintInRange(order: Order, c: Code, t: Tape)
    requires t.Valid() && Sized(c)
    ensures var r := GetUint(order, c, t).0; r.Got? ==> r.value < Pow2(Bits(c))
  {
    match c
    case Fixed(w) =>
      if w <= |t.data| - t.pos {
        var s := t.data[t.pos..t.pos + w];
        ToFromLittle(s);
        ToFromLittle(Reverse(s));
      }
    case Var(bits) => UnLebInRange(bits, 0, 0, t.data[t.pos..]);
  }

  /** A chain of writes that succeeds is one write of all the bytes. */
  lemma {:induction false} WriteChunksJoins(t: Tape, chunks: seq<seq<Byte>>)
    requires t.Valid() && WriteChunks(t, chunks).Some?
    ensures var t' := WriteChunks(t, chunks).value;
            && t'.base == t.base && t'.pos == t.pos + |Flatten(chunks)|
            && t'.data == Overwrite(t.data, t.pos, Flatten(chunks))
    decreases |chunks|
  {
    if chunks != [] {
      var t1 := t.Write(chunks[0]).value;
      WriteChunksJoins(t1, chunks[1..]);
      OverwriteTwice(t.data, t.pos, chunks[0], Flatten(chunks[1..]));
    }
  }

  /** Rewinding to where the writing began finds exactly the written bytes. */
  lemma WrittenIsAhead(t: Tape, chunks: seq<seq<Byte>>)
    requires t.Valid() && WriteChunks(t, chunks).Some?
    ensures t.pos <= |WriteChunks(t, chunks).value.data|
    ensures Ahead(WriteChunks(t, chunks).value.Seek(t.pos), Flatten(chunks))
  {
    WriteChunksJoins(t, chunks);
  }

  function Encode(order: Order, i: Item): (s: seq<Byte>)
    requires Sized(i.code)
    ensures |s| > 0
  {
    PutUint(order, i.code, Head(i)) + if i.Text? then i.s else []
  }

  lemma EncodeIsFlat(order: Order, i: Item)
    requires Sized(i.code)
    ensures Flatten(Chunks(order, i)) == Encode(order, i)
  {
    var c := Chunks(order, i);
    if i.Text? {
      assert c[1..] == [i.s] && Flatten([i.s]) == i.s + [];
    }
  }

  // ---- what is on the wire ---------------------------------------------

  /** An unsigned varint is its LEB128 encoding; a signed one is the encoding of
      its place in 0, -1, 1, -2, 2, ..., and takes at most k bytes exactly when it
      has at most 7k - 1 bits and a sign. */
  lemma VarintItem(order: Order, bits: nat, u: nat, n: int, k: nat)
    requires bits > 0 && u < Pow2(bits) && InSigned(bits, n) && k > 0
    ensures Encode(order, Unsigned(Var(bits), u)) == Leb(u)
    ensures var e := Encode(order, Signed(Var(bits), n));
            && (n >= 0 ==> e == Leb(2 * n)) && (n < 0 ==> e == Leb(-2 * n - 1))
            && (|e| <= k <==> -Pow2(7 * k - 1) <= n < Pow2(7 * k - 1))
  {
    hide Pow2, Leb, EncodeZigzag, InSigned;
    ZigzagInterleaves(bits, n);
    ZigzagSize(bits, n, k);
    QuotientUnique(u, Pow2(bits), 0, u);
    QuotientUnique(EncodeZigzag(bits, n), Pow2(bits), 0, EncodeZigzag(bits, n));
  }

  /** A fixed-width number, signed or not, is the number modulo 256^w, its low
      byte first in little-endian and last in big-endian order. */
  lemma FixedItem(w: nat, u: nat, n: int, i: nat)
    requires i < w && u < Pow2(8 * w) && InSigned(8 * w, n)
    ensures forall order :: |Encode(order, Unsigned(Fixed(w), u))| == |Encode(order, Signed(Fixed(w), n))| == w
    ensures var byte := u / Pow2(8 * i) % 256;
            && Encode(LittleEndian, Unsigned(Fixed(w), u))[i] == byte
            && Encode(BigEndian, Unsigned(Fixed(w), u))[w - 1 - i] == byte
    ensures var byte := n % Pow2(8 * w) / Pow2(8 * i) % 256;
            && Encode(LittleEndian, Signed(Fixed(w), n))[i] == byte
            && Encode(BigEndian, Signed(Fixed(w), n))[w - 1 - i] == byte
  {
    hide Pow2, Memory, InSigned;
    QuotientUnique(u, Pow2(8 * w), 0, u);
    var v := n % Pow2(8 * w);
    QuotientUnique(v, Pow2(8 * w), 0, v);
    MemoryBytes(w, u, i);
    MemoryBytes(w, v, i);
  }

  /** A string is its length, as an unsigned number of the prefix type, and its
      bytes. */
  lemma TextItem(order: Order, c: Code, s: seq<Byte>)
    requires Sized(c)
    ensures Encode(order, Text(c, s)) == Encode(order, Unsigned(c, |s|)) + s
  {
    hide PutUint;
    assert PutUint(order, c, |s|) + [] == PutUint(order, c, |s|);
  }

  /** A string survives when its length fits its prefix. */
  ghost predicate Intact(i: Item)
    requires Sized(i.code)
  {
    i.Text? ==> |i.s| < Pow2(Bits(i.code))
  }

  predicate EmptyText(i: Item) {
    i.Text? && i.s == []
  }

  /** Reading an item back where it was written: it returns the item and stops
      behind it unless the string's length was cut, or the string is empty and
      ends at the end of the capacity. */
  lemma ReadBack(order: Order, i: Item, t: Tape)
    requires t.Valid() && Typed(i) && Ahead(t, Encode(order, i))
    ensures Intact(i) && !(EmptyText(i) && t.room == |Encode(order, i)|) ==>
      ReadItem(order, KindOf(i), t) == (Got(i), t.Skip(|Encode(order, i)|))
    ensures !Intact(i) || (EmptyText(i) && t.room == |Encode(order, i)|) ==>
      ReadItem(order, KindOf(i), t).0 != Got(i)
  {
    hide PutUint, GetUint, ToUint, ToSigned, InSigned;
    var u := Head(i);
    var p := PutUint(order, i.code, u);
    TextAhead(t, p, if i.Text? then i.s else []);
    GetPutUint(order, i.code, u, t);
    TruncatedBelow(u, Pow2(Bits(i.code)));
    if i.Signed? {
      SignedRoundTrip(i.code, i.n);
    }
  }

  lemma TextAhead(t: Tape, p: seq<Byte>, s: seq<Byte>)
    requires t.Valid() && Ahead(t, p + s)
    ensures Ahead(t, p) && Ahead(t.Skip(|p|), s)
  {
    var q := t.data[t.pos..t.pos + |p + s|];
    assert q[..|p|] == p && q[|p|..] == s;
  }

  lemma TruncatedBelow(n: nat, m: int)
    requires m > 0
    ensures n >= m ==> n % m < n
  {
  }

  lemma EmptyTextRead(order: Order, c: Code, t: Tape)
    requires t.Valid() && Sized(c) && Ahead(t, PutUint(order, c, 0)) && t.room == |PutUint(order, c, 0)|
    ensures ReadItem(order, TextKind(c), t).0 == NullBlock
  {
    hide PutUint, GetUint;
    GetPutUint(order, c, 0, t);
  }

  /** The first bytes of a tape that has just the room for them. */
  lemma FilledUp(base: nat, s: seq<Byte>)
    requires base > 0
    ensures var t := Tape(base, [], 0, |s|);
            var w := Tape(base, s, |s|, 0);
            t.Write(s) == Some(w) && w.Write([]) == Some(w) && Ahead(w.Seek(0), s) && w.Seek(0).room == |s|
  {
    WriteNothing(Tape(base, s, |s|, 0));
    NoGrowth(base, |s|, |s|);
    assert Overwrite([], 0, s) == s && s[0..0 + |s|] == s;
  }

  /** It does happen: an empty string in a fresh array whose one block is filled
      by the string's prefix is written and cannot be read back. */
  lemma EmptyTextAtCapacity(order: Order)
    ensures var i := Text(Fixed(2), []);
            var w := WriteChunks(Tape(2, [], 0, 2), Chunks(order, i));
            w.Some? && ReadItem(order, KindOf(i), w.value.Seek(0)).0 == NullBlock
  {
    hide PutUint, ReadItem, Tape.Write, Tape.Seek, WriteChunks;
    var i := Text(Fixed(2), []);
    var s := PutUint(order, Fixed(2), 0);
    PutLength(order, Fixed(2), 0);
    WriteItemChunks(order, i, Tape(2, [], 0, 2));
    FilledUp(2, s);
    EmptyTextRead(order, Fixed(2), Tape(2, s, 2, 0).Seek(0));
  }

  // ---- scripts ---------------------------------------------------------

  function AllChunks(order: Order, items: seq<Item>): seq<seq<Byte>>
    requires forall i <- items :: Sized(i.code)
  {
    if items == [] then [] else Chunks(order, items[0]) + AllChunks(order, items[1..])
  }

  function Kinds(items: seq<Item>): (ks: seq<Kind>)
    ensures |ks| == |items| && forall j :: 0 <= j < |items| ==> ks[j] == KindOf(items[j])
  {
    seq(|items|, j requires 0 <= j < |items| => KindOf(items[j]))
  }

  /** The result of a read script of which `items` were read before. */
  function Behind(items: seq<Item>, r: (ReadOutcome<seq<Item>>, Tape)): (ReadOutcome<seq<Item>>, Tape) {
    (match r.0 case Got(more) => Got(items + more) case OutOfRange => OutOfRange case NullBlock => NullBlock, r.1)
  }

  function ReadScript(order: Order, ks: seq<Kind>, t: Tape): (r: (ReadOutcome<seq<Item>>, Tape))
    requires t.Valid() && forall k <- ks :: Sized(k.code)
    ensures r.1.Valid() && r.1.data == t.data && r.1.base == t.base
    ensures r.1.pos + r.1.room == t.pos + t.room
    decreases |ks|
  {
    if ks == [] then (Got([]), t)
    else
      var (i, t') := ReadItem(order, ks[0], t);
      match i
      case OutOfRange => (OutOfRange, t')
      case NullBlock => (NullBlock, t')
      case Got(item) =>
        Behind([item], ReadScript(order, ks[1..], t'))
  }

  lemma {:induction false} EncodingNonEmpty(order: Order, items: seq<Item>)
    requires forall i <- items :: Sized(i.code)
    ensures Flatten(AllChunks(order, items)) == [] <==> items == []
  {
    if items != [] {
      FlattenAppend(Chunks(order, items[0]), AllChunks(order, items[1..]));
      EncodeIsFlat(order, items[0]);
      assert |Encode(order, items[0])| > 0;
    }
  }

  /** The last item is an empty string and ends where the capacity does. */
  predicate EndsAtCapacity(items: seq<Item>, room: nat, length: nat) {
    items != [] && EmptyText(items[|items| - 1]) && room == length
  }

  lemma ReadScriptStep(order: Order, items: seq<Item>, t: Tape, end: Tape)
    requires t.Valid() && items != [] && forall i <- items :: Sized(i.code)
    ensures var (i, t') := ReadItem(order, KindOf(items[0]), t);
            ReadScript(order, Kinds(items), t) == (Got(items), end) <==>
            i == Got(items[0]) && ReadScript(order, Kinds(items[1..]), t') == (Got(items[1..]), end)
  {
    hide ReadItem, Sized;
    assert Kinds(items)[0] == KindOf(items[0]) && Kinds(items)[1..] == Kinds(items[1..]);
    var (i, t') := ReadItem(order, KindOf(items[0]), t);
    var rest := ReadScript(order, Kinds(items[1..]), t').0;
    if i.Got? && rest.Got? {
      assert [i.value] + rest.value == items <==> i.value == items[0] && rest.value == items[1..] by {
        assert ([i.value] + rest.value)[1..] == rest.value;
        assert items == [items[0]] + items[1..];
      }
    }
  }

  /** The first item is read back, or what is read is not it. */
  ghost predicate FirstBack(order: Order, items: seq<Item>, t: Tape, e': nat)
    requires t.Valid() && items != [] && Sized(items[0].code) && t.pos + e' <= |t.data|
  {
    var r := ReadItem(order, KindOf(items[0]), t);
    if Intact(items[0]) && !EndsAtCapacity([items[0]], t.room, e') then r == (Got(items[0]), t.Skip(e'))
    else r.0 != Got(items[0])
  }

  /** The first item of what lies ahead, and the rest. */
  lemma ReadScriptMore(order: Order, items: seq<Item>, t: Tape)
    requires t.Valid() && items != [] && forall i <- items :: Sized(i.code) && Typed(i)
    requires Ahead(t, Flatten(AllChunks(order, items)))
    ensures var e', f := Encode(order, items[0]), Flatten(AllChunks(order, items[1..]));
            && Flatten(AllChunks(order, items)) == e' + f && t.pos + |e'| <= |t.data|
            && Ahead(t.Skip(|e'|), f)
            && FirstBack(order, items, t, |e'|)
            && (f == [] <==> items[1..] == [])
  {
    hide ReadItem, ReadScript, Encode, Chunks, Flatten, Typed, Intact, Sized;
    var i, rest := items[0], items[1..];
    var e', f := Encode(order, i), Flatten(AllChunks(order, rest));
    FlattenAppend(Chunks(order, i), AllChunks(order, rest));
    EncodeIsFlat(order, i);
    TextAhead(t, e', f);
    ReadBack(order, i, t);
    EncodingNonEmpty(order, rest);
  }

  /** What holds for the rest holds for the whole. */
  lemma ReadScriptCons(order: Order, items: seq<Item>, t: Tape, e': nat, f: nat)
    requires t.Valid() && items != [] && (forall i <- items :: Sized(i.code)) && t.pos + e' + f <= |t.data|
    requires FirstBack(order, items, t, e')
    requires (forall i <- items[1..] :: Intact(i)) && !EndsAtCapacity(items[1..], t.Skip(e').room, f) <==>
             ReadScript(order, Kinds(items[1..]), t.Skip(e')) == (Got(items[1..]), t.Skip(e' + f))
    requires f == 0 <==> items[1..] == []
    ensures (forall i <- items :: Intact(i)) && !EndsAtCapacity(items, t.room, e' + f) <==>
            ReadScript(order, Kinds(items), t) == (Got(items), t.Skip(e' + f))
  {
    hide ReadItem, ReadScript, Intact, Sized, EmptyText, Kinds, KindOf;
    var i, rest := items[0], items[1..];
    ReadScriptStep(order, items, t, t.Skip(e' + f));
    assert (forall j <- items :: Intact(j)) <==> Intact(i) && forall j <- rest :: Intact(j);
    assert rest != [] ==> EndsAtCapacity(items, t.room, e' + f) == EndsAtCapacity(rest, t.Skip(e').room, f);
    assert rest == [] ==> items == [i];
    assert t.Skip(e').Skip(f) == t.Skip(e' + f);
  }

  lemma ReadScriptNone(order: Order, t: Tape)
    requires t.Valid()
    ensures Flatten(AllChunks(order, [])) == [] && ReadScript(order, Kinds([]), t) == (Got([]), t.Skip(0))
  {
  }

  /** The mirrored read script returns what was written and ends where the
      writing ended, exactly when every string fits its prefix and no empty
      string ends the capacity. */
  lemma {:induction false} ReadScriptBack(order: Order, items: seq<Item>, t: Tape)
    requires t.Valid() && forall i <- items :: Sized(i.code) && Typed(i)
    requires Ahead(t, Flatten(AllChunks(order, items)))
    ensures var e := Flatten(AllChunks(order, items));
            (forall i <- items :: Intact(i)) && !EndsAtCapacity(items, t.room, |e|) <==>
            ReadScript(order, Kinds(items), t) == (Got(items), t.Skip(|e|))
    decreases |items|
  {
    hide Encode, Flatten, ReadScript, FirstBack, Intact, Sized, Typed, Kinds, AllChunks, EmptyText;
    if items == [] {
      ReadScriptNone(order, t);
    } else {
      var e', f := Encode(order, items[0]), Flatten(AllChunks(order, items[1..]));
      ReadScriptMore(order, items, t);
      ReadScriptBack(order, items[1..], t.Skip(|e'|));
      ReadScriptCons(order, items, t, |e'|, |f|);
    }
  }

  /** The whole round trip: write a script, rewind, read it by the mirrored
      script. The same values come back and the cursor stops where the writing
      ended, exactly when every string fits its prefix and the script does not
      end with an empty string at the end of the capacity. */
  lemma ScriptRoundTrip(order: Order, items: seq<Item>, t: Tape)
    requires t.Valid() && forall i <- items :: Sized(i.code) && Typed(i)
    requires WriteChunks(t, AllChunks(order, items)).Some?
    ensures var t' := WriteChunks(t, AllChunks(order, items)).value;
            && t.pos <= |t'.data|
            && ((forall i <- items :: Intact(i)) && !EndsAtCapacity(items, t'.room, 0) <==>
                ReadScript(order, Kinds(items), t'.Seek(t.pos)) == (Got(items), t'))
  {
    hide ReadScript, Typed, Intact, Sized;
    var chunks := AllChunks(order, items);
    var t' := WriteChunks(t, chunks).value;
    WrittenIsAhead(t, chunks);
    WriteChunksJoins(t, chunks);
    ReadScriptBack(order, items, t'.Seek(t.pos));
    assert t'.Seek(t.pos).Skip(|Flatten(chunks)|) == t';
  }

  /** The room that is left when writes of these lengths follow each other; None
      when the growth falls short at one of them. */
  function RoomLeft(base: nat, room: nat, lengths: seq<nat>): Option<nat>
    requires base > 0
    decreases |lengths|
  {
    if lengths == [] then Some(room)
    else if !Fits(base, room, lengths[0]) then None
    else
      GrowthSuffices(base, room, lengths[0]);
      RoomLeft(base, Grown(base, room, lengths[0]) - lengths[0], lengths[1..])
  }

  function Lengths(chunks: seq<seq<Byte>>): seq<nat> {
    if chunks == [] then [] else [|chunks[0]|] + Lengths(chunks[1..])
  }

  /** Whether writes succeed, and the room they leave, depends on their lengths
      only. */
  lemma {:induction false} WriteChunksRoom(t: Tape, chunks: seq<seq<Byte>>)
    requires t.Valid()
    ensures RoomLeft(t.base, t.room, Lengths(chunks)) ==
            match WriteChunks(t, chunks) case None => None case Some(t') => Some(t'.room)
    decreases |chunks|
  {
    if chunks != [] && Fits(t.base, t.room, |chunks[0]|) {
      WriteChunksRoom(t.Write(chunks[0]).value, chunks[1..]);
    }
  }

  /** The bytes a number takes, in either order. */
  function UintLength(c: Code, u: nat): nat
    requires Sized(c)
  {
    match c
    case Fixed(w) => w
    case Var(bits) => |Leb(u % Pow2(bits))|
  }

  /** The lengths of the writes a script makes. */
  function ItemLengths(items: seq<Item>): seq<nat>
    requires forall i <- items :: Sized(i.code)
  {
    if items == [] then []
    else
      [UintLength(items[0].code, Head(items[0]))] + (if items[0].Text? then [|items[0].s|] else [])
      + ItemLengths(items[1..])
  }

  lemma {:induction false} LengthsOf(order: Order, items: seq<Item>)
    requires forall i <- items :: Sized(i.code)
    ensures Lengths(AllChunks(order, items)) == ItemLengths(items)
  {
    hide Head;
    if items != [] {
      var c := Chunks(order, items[0]);
      LengthsOf(order, items[1..]);
      LengthsAppend(c, AllChunks(order, items[1..]));
      PutLength(order, items[0].code, Head(items[0]));
      LengthsTwo(c);
    }
  }

  lemma LengthsTwo(c: seq<seq<Byte>>)
    requires |c| == 1 || |c| == 2
    ensures Lengths(c) == [|c[0]|] + if |c| == 2 then [|c[1]|] else []
  {
    if |c| == 2 {
      assert c[1..] == [c[1]] && c[1..][1..] == [];
    } else {
      assert c[1..] == [];
    }
  }

  lemma {:induction false} LengthsAppend(a: seq<seq<Byte>>, b: seq<seq<Byte>>)
    ensures Lengths(a + b) == Lengths(a) + Lengths(b)
  {
    if a == [] {
      assert a + b == b;
    } else {
      assert (a + b)[1..] == a[1..] + b;
      LengthsAppend(a[1..], b);
    }
  }

  lemma PutLength(order: Order, c: Code, u: nat)
    requires Sized(c)
    ensures |PutUint(order, c, u)| == UintLength(c, u)
  {
  }

  /** Every script can be written when blocks are single bytes, and when all of
      its bytes fit into the room there is. */
  lemma {:induction false} ScriptFits(t: Tape, chunks: seq<seq<Byte>>)
    requires t.Valid() && (t.base == 1 || |Flatten(chunks)| <= t.room)
    ensures WriteChunks(t, chunks).Some?
    decreases |chunks|
  {
    if chunks != [] {
      if t.base == 1 {
        GrowthSufficesWhenFull(1, t.room, |chunks[0]|);
      }
      ScriptFits(t.Write(chunks[0]).value, chunks[1..]);
    }
  }

  /** A script writes its first item and then the others. */
  lemma WriteStep(t: Tape, order: Order, items: seq<Item>)
    requires t.Valid() && items != [] && forall i <- items :: Sized(i.code)
    ensures var first := WriteChunks(t, Chunks(order, items[0]));
            WriteChunks(t, AllChunks(order, items)) ==
            if first.Some? then WriteChunks(first.value, AllChunks(order, items[1..])) else None
  {
    WriteChunksSplit(t, Chunks(order, items[0]), AllChunks(order, items[1..]));
  }

  lemma WriteNothing(t: Tape)
    requires t.Valid()
    ensures t.Write([]) == Some(t)
  {
    OverwriteNothing(t.data, t.pos);
  }

  lemma WriteNone(t: Tape, order: Order)
    requires t.Valid()
    ensures WriteChunks(t, AllChunks(order, [])) == Some(t)
  {
  }

  lemma {:induction false} WriteChunksSplit(t: Tape, a: seq<seq<Byte>>, b: seq<seq<Byte>>)
    requires t.Valid()
    ensures WriteChunks(t, a + b) ==
            if WriteChunks(t, a).Some? then WriteChunks(WriteChunks(t, a).value, b) else None
    decreases |a|
  {
    hide Tape.Write;
    if a == [] {
      assert a + b == b;
    } else {
      assert (a + b)[0] == a[0] && (a + b)[1..] == a[1..] + b;
      if t.Write(a[0]).Some? {
        WriteChunksSplit(t.Write(a[0]).value, a[1..], b);
      }
    }
  }

  lemma BehindTwice(items: seq<Item>, item: Item, r: (ReadOutcome<seq<Item>>, Tape))
    ensures Behind(items, Behind([item], r)) == Behind(items + [item], r)
    ensures Behind([], r) == r
  {
    if r.0.Got? {
      assert items + ([item] + r.0.value) == items + [item] + r.0.value;
      assert [] + r.0.value == r.0.value;
    }
  }

  lemma ReadStep(order: Order, ks: seq<Kind>, t: Tape, items: seq<Item>)
    requires t.Valid() && forall k <- ks :: Sized(k.code)
    ensures Behind([], ReadScript(order, ks, t)) == ReadScript(order, ks, t)
    ensures ks == [] ==> Behind(items, ReadScript(order, ks, t)) == (Got(items), t)
    ensures ks != [] ==>
      var (i, t') := ReadItem(order, ks[0], t);
      Behind(items, ReadScript(order, ks, t)) ==
      match i
      case OutOfRange => (OutOfRange, t')
      case NullBlock => (NullBlock, t')
      case Got(item) => Behind(items + [item], ReadScript(order, ks[1..], t'))
  {
    hide ReadItem, Sized;
    BehindTwice(items, Unsigned(Fixed(1), 0), ReadScript(order, ks, t));
    if ks == [] {
      assert items + [] == items;
    } else {
      var (i, t') := ReadItem(order, ks[0], t);
      if i.Got? {
        hide Behind;
        BehindTwice(items, i.value, ReadScript(order, ks[1..], t'));
      }
    }
  }
}
