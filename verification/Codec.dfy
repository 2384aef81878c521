/** The number and string encodings of ByteArray, as functions on byte
    sequences: fixed-width integers, LEB128 varints, zigzag, prefixed strings. */
module Codec {
  import opened Bytes

  datatype Order = LittleEndian | BigEndian

  function Pow2(n: nat): (r: int)
    ensures r > 0
  {
    if n == 0 then 1 else 2 * Pow2(n - 1)
  }

  lemma {:induction false} Pow2Add(a: nat, b: nat)
    ensures Pow2(a + b) == Pow2(a) * Pow2(b)
  {
    if a > 0 {
      Pow2Add(a - 1, b);
    }
  }

  lemma {:induction false} Pow2Monotone(a: nat, b: nat)
    requires a <= b
    ensures Pow2(a) <= Pow2(b)
    ensures a < b ==> Pow2(a) < Pow2(b)
    decreases b
  {
    if a < b {
      Pow2Monotone(a, b - 1);
    }
  }

  /** Two's complement of `w` bits, both ways. */
  function AsUnsigned(bits: nat, n: int): (r: nat) {
    n % Pow2(bits)
  }

  function AsSigned(bits: nat, u: nat): int
    requires bits > 0
  {
    if u < Pow2(bits - 1) then u else u - Pow2(bits)
  }

  ghost predicate InSigned(bits: nat, n: int)
    requires bits > 0
  {
    -Pow2(bits - 1) <= n < Pow2(bits - 1)
  }

  lemma SignedUnsigned(bits: nat, n: int)
    requires bits > 0 && InSigned(bits, n)
    ensures AsSigned(bits, AsUnsigned(bits, n)) == n
  {
    var m := Pow2(bits);
    QuotientUnique(n, m, if n < 0 then -1 else 0, if n < 0 then n + m else n);
  }

  // ---- fixed width -----------------------------------------------------

  /** The low `w` bytes of `v`, least significant first: higher bytes are cut
      off, as the conversion to a `w`-byte type does. */
  function ToLittle(w: nat, v: nat): (s: seq<Byte>)
    ensures |s| == w
  {
    if w == 0 then [] else [v % 256] + ToLittle(w - 1, v / 256)
  }

  function FromLittle(s: seq<Byte>): nat {
    if s == [] then 0 else s[0] + 256 * FromLittle(s[1..])
  }

  lemma {:induction false} FromToLittle(w: nat, v: nat)
    ensures FromLittle(ToLittle(w, v)) == v % Pow2(8 * w)
  {
    if w > 0 {
      FromToLittle(w - 1, v / 256);
      assert ToLittle(w, v)[1..] == ToLittle(w - 1, v / 256);
      var m := Pow2(8 * w - 8);
      assert Pow2(8 * w) == 256 * m by {
        Pow2Add(8, 8 * w - 8);
        assert Pow2(8) == 256;
      }
      ModTimes(v, m);
    }
  }

  lemma ModTimes(v: nat, m: nat)
    requires m > 0
    ensures v % (256 * m) == v % 256 + 256 * ((v / 256) % m)
  {
    var q := v / 256;
    var d := q / m;
    var r := v % 256 + 256 * (q % m);
    assert v == d * (256 * m) + r by {
      assert q == d * m + q % m;
      assert 256 * (d * m) == d * (256 * m);
    }
    assert 0 <= r < 256 * m;
    QuotientUnique(v, 256 * m, d, r);
  }

  lemma QuotientUnique(v: int, m: int, d: int, r: int)
    requires m > 0 && 0 <= r < m && v == d * m + r
    ensures v / m == d && v % m == r
  {
    var e := v / m - d;
    assert e * m == r - v % m by {
      assert (v / m) * m == v - v % m;
      assert e * m == (v / m) * m - d * m;
    }
    MulGrows(e, m);
  }

  lemma MulGrows(e: int, m: int)
    requires m > 0
    ensures e >= 1 ==> e * m >= m
    ensures e <= -1 ==> e * m <= -m
  {
  }

  lemma {:induction false} ToFromLittle(s: seq<Byte>)
    ensures FromLittle(s) < Pow2(8 * |s|)
    ensures ToLittle(|s|, FromLittle(s)) == s
  {
    if s != [] {
      ToFromLittle(s[1..]);
      Pow2Add(8, 8 * |s| - 8);
      assert Pow2(8) == 256;
      assert s == [s[0]] + s[1..];
    }
  }

  /** The bytes of an integer in memory on a machine of the given byte order. */
  function Memory(order: Order, w: nat, v: nat): (s: seq<Byte>)
    ensures |s| == w
  {
    if order.LittleEndian? then ToLittle(w, v) else Reverse(ToLittle(w, v))
  }

  function Load(order: Order, s: seq<Byte>): nat {
    FromLittle(if order.LittleEndian? then s else Reverse(s))
  }

  lemma DivTwice(v: nat, a: int, b: int)
    requires a > 0 && b > 0
    ensures a * b > 0 && v / a / b == v / (a * b)
  {
    var q, r := v / a, v % a;
    var d, e := q / b, q % b;
    assert v == d * (a * b) + (e * a + r) by {
      assert q == d * b + e && v == q * a + r;
      assert (d * b + e) * a == (d * b) * a + e * a;
      assert (d * b) * a == d * (a * b);
    }
    DigitBelow(r, e, b, a);
    assert 0 <= e * a + r < b * a;
    QuotientUnique(v, a * b, d, e * a + r);
  }

  lemma {:induction false} LittleByte(w: nat, v: nat, i: nat)
    requires i < w
    ensures ToLittle(w, v)[i] == v / Pow2(8 * i) % 256
  {
    if i > 0 {
      LittleByte(w - 1, v / 256, i - 1);
      Pow2Add(8, 8 * i - 8);
      assert Pow2(8) == 256;
      DivTwice(v, 256, Pow2(8 * i - 8));
    }
  }

  /** Byte for byte: the i-th byte from the low end is the i-th eight bits of the
      number; the low end comes first on a little-endian machine, and last on a
      big-endian one. */
  lemma MemoryBytes(w: nat, v: nat, i: nat)
    requires i < w
    ensures Memory(LittleEndian, w, v)[i] == v / Pow2(8 * i) % 256
    ensures Memory(BigEndian, w, v)[w - 1 - i] == v / Pow2(8 * i) % 256
  {
    LittleByte(w, v, i);
  }

  /** bswap_16, bswap_32 and bswap_64. */
  function Byteswap(w: nat, v: nat): nat {
    FromLittle(Reverse(ToLittle(w, v)))
  }

  lemma LoadMemory(order: Order, w: nat, v: nat)
    ensures Load(order, Memory(order, w, v)) == v % Pow2(8 * w)
  {
    FromToLittle(w, v);
    ReverseTwice(ToLittle(w, v));
  }

  function Flip(order: Order): Order {
    if order.LittleEndian? then BigEndian else LittleEndian
  }

  /** Swapping a value's bytes gives the bytes of the other order. */
  lemma MemoryOfSwapped(order: Order, w: nat, v: nat)
    ensures Memory(order, w, Byteswap(w, v)) == Memory(Flip(order), w, v)
  {
    var s := Reverse(ToLittle(w, v));
    ToFromLittle(s);
    ReverseTwice(ToLittle(w, v));
  }

  lemma SwappedLoad(order: Order, s: seq<Byte>)
    ensures Byteswap(|s|, Load(order, s)) == Load(Flip(order), s)
  {
    ToFromLittle(s);
    ToFromLittle(Reverse(s));
    ReverseTwice(s);
  }

  // ---- LEB128 ----------------------------------------------------------

  /** Unsigned LEB128: seven bits a byte, least significant first, the top bit
      set on every byte but the last. */
  function Leb(v: nat): (s: seq<Byte>)
    ensures |s| > 0
  {
    if v < 128 then [v] else [v % 128 + 128] + Leb(v / 128)
  }

  /** Byte for byte: the i-th byte holds the i-th seven bits of the number. */
  lemma {:induction false} LebByte(v: nat, i: nat)
    requires i < |Leb(v)|
    ensures Leb(v)[i] % 128 == v / Pow2(7 * i) % 128
  {
    if i > 0 {
      LebByte(v / 128, i - 1);
      Pow2Add(7, 7 * i - 7);
      Pow2Seven();
      DivTwice(v, 128, Pow2(7 * i - 7));
    }
  }

  lemma {:induction false} LebLength(v: nat, k: nat)
    requires k > 0
    ensures |Leb(v)| <= k <==> v < Pow2(7 * k)
  {
    Pow2Add(7, 7 * k - 7);
    assert Pow2(7) == 128;
    var m := Pow2(7 * k - 7);
    assert v < 128 * m <==> v / 128 < m;
    if v >= 128 && k > 1 {
      LebLength(v / 128, k - 1);
    }
  }

  lemma {:induction false} LebTerminator(v: nat)
    ensures Leb(v)[|Leb(v)| - 1] < 128
    ensures forall i :: 0 <= i < |Leb(v)| - 1 ==> Leb(v)[i] >= 128
  {
    if v >= 128 {
      LebTerminator(v / 128);
    }
  }

  datatype LebRead = Done(value: nat, used: nat) | Starved(used: nat)

  /** The low seven bits of `b`, shifted left inside a type of `bits` bits. */
  function Chunk(bits: nat, shift: nat, b: Byte): (r: nat) {
    (b % 128) * Pow2(shift) % Pow2(bits)
  }

  /** What is left of the decoding loop of readUint32/64 when the shift count
      is `shift`, `acc` was collected and `s` is still to be read. The bits
      shifted beyond the type's width are lost; `acc` has no bits from `shift`
      up (LebBits), so or-ing the new bits in is adding them. */
  function UnLeb(bits: nat, shift: nat, acc: nat, s: seq<Byte>): (r: LebRead)
    ensures r.used <= |s|
    decreases |s|
  {
    if shift >= bits then Done(acc, 0)
    else if s == [] then Starved(0)
    else
      var acc' := acc + Chunk(bits, shift, s[0]);
      if s[0] < 128 then Done(acc', 1)
      else
        match UnLeb(bits, shift + 7, acc', s[1..])
        case Done(v, n) => Done(v, n + 1)
        case Starved(n) => Starved(n + 1)
  }

  lemma MulMonotone(a: int, b: int, p: int)
    requires a <= b && p >= 0
    ensures a * p <= b * p
  {
  }

  /** Shifting left keeps the low bits that fit. */
  lemma ChunkValue(bits: nat, shift: nat, b: Byte)
    requires shift < bits
    ensures Chunk(bits, shift, b) == (b % 128) % Pow2(bits - shift) * Pow2(shift)
    ensures Pow2(bits) == Pow2(bits - shift) * Pow2(shift)
  {
    Pow2Add(bits - shift, shift);
    ModMul(b % 128, Pow2(bits - shift), Pow2(shift));
  }

  lemma ModBelow(c: nat, m: int)
    requires m > 0
    ensures 0 <= c % m <= c && c % m < m
  {
  }

  lemma ChunkExact(bits: nat, shift: nat, b: Byte)
    requires (b % 128) * Pow2(shift) < Pow2(bits)
    ensures Chunk(bits, shift, b) == (b % 128) * Pow2(shift)
  {
    MulMonotone(0, b % 128, Pow2(shift));
    QuotientUnique((b % 128) * Pow2(shift), Pow2(bits), 0, (b % 128) * Pow2(shift));
  }

  lemma ModMul(c: nat, m: int, p: int)
    requires m > 0 && p > 0
    ensures m * p > 0 && (c * p) % (m * p) == (c % m) * p
  {
    var d, r := c / m, c % m;
    assert c * p == d * (m * p) + r * p by {
      assert c == d * m + r;
      assert (d * m + r) * p == (d * m) * p + r * p;
      assert (d * m) * p == d * (m * p);
    }
    MulMonotone(r + 1, m, p);
    QuotientUnique(c * p, m * p, d, r * p);
  }

  lemma HighLow(v: nat, p: int)
    requires v >= 128 && p > 0
    ensures (v / 128) * (128 * p) + (v % 128) * p == v * p
    ensures 128 * p <= v * p && (v % 128) * p <= v * p
  {
    var hi, lo := v / 128, v % 128;
    assert (hi * 128) * p == hi * (128 * p);
    assert (hi * 128 + lo) * p == (hi * 128) * p + lo * p;
    MulMonotone(128, v, p);
    MulMonotone(lo, v, p);
  }

  /** The collected value stays below 2^shift, and below the type's bound. */
  lemma LebBits(bits: nat, shift: nat, acc: nat, b: Byte)
    requires shift < bits && acc < Pow2(shift)
    ensures acc + Chunk(bits, shift, b) < Pow2(shift + 7)
    ensures acc + Chunk(bits, shift, b) < Pow2(bits)
  {
    ChunkValue(bits, shift, b);
    Pow2Add(shift, 7);
    assert Pow2(7) == 128;
    var p, m := Pow2(shift), Pow2(bits - shift);
    ModBelow(b % 128, m);
    DigitBelow(acc, (b % 128) % m, 128, p);
    DigitBelow(acc, (b % 128) % m, m, p);
  }

  lemma DigitBelow(acc: nat, q: int, m: int, p: int)
    requires acc < p && 0 <= q < m
    ensures acc + q * p < m * p
  {
    MulMonotone(q + 1, m, p);
  }

  lemma {:induction false} UnLebInRange(bits: nat, shift: nat, acc: nat, s: seq<Byte>)
    requires acc < Pow2(shift) && acc < Pow2(bits)
    ensures UnLeb(bits, shift, acc, s).Done? ==> UnLeb(bits, shift, acc, s).value < Pow2(bits)
    decreases |s|
  {
    if shift < bits && s != [] {
      LebBits(bits, shift, acc, s[0]);
      var acc' := acc + Chunk(bits, shift, s[0]);
      if s[0] >= 128 {
        UnLebInRange(bits, shift + 7, acc', s[1..]);
      }
    }
  }

  /** On any input the loop ends after at most ceil((bits - shift) / 7) bytes. */
  lemma {:induction false} UnLebStops(bits: nat, shift: nat, acc: nat, s: seq<Byte>)
    requires shift <= bits
    ensures UnLeb(bits, shift, acc, s).used <= (bits - shift + 6) / 7
    ensures UnLeb(bits, shift, acc, s).Starved? ==> UnLeb(bits, shift, acc, s).used == |s|
    decreases |s|
  {
    if shift < bits && s != [] && s[0] >= 128 {
      var acc' := acc + Chunk(bits, shift, s[0]);
      if shift + 7 <= bits {
        UnLebStops(bits, shift + 7, acc', s[1..]);
      }
    }
  }

  /** Decoding undoes encoding, whatever bytes follow. */
  lemma {:induction false} UnLebLeb(bits: nat, shift: nat, acc: nat, v: nat, rest: seq<Byte>)
    requires shift < bits && v * Pow2(shift) < Pow2(bits)
    ensures UnLeb(bits, shift, acc, Leb(v) + rest) == Done(acc + v * Pow2(shift), |Leb(v)|)
    decreases v
  {
    hide Pow2;
    var s := Leb(v) + rest;
    var p := Pow2(shift);
    Pow2Seven();
    if v >= 128 {
      HighLow(v, p);
      Pow2Add(shift, 7);
      if shift + 7 >= bits {
        Pow2Monotone(bits, shift + 7);
      }
      assert s[0] == v % 128 + 128 && s[1..] == Leb(v / 128) + rest;
      assert s[0] % 128 == v % 128;
      ChunkExact(bits, shift, s[0]);
      UnLebLeb(bits, shift + 7, acc + (v % 128) * p, v / 128, rest);
    } else {
      assert s[0] == v;
      ChunkExact(bits, shift, s[0]);
    }
  }

  lemma Pow2Seven()
    ensures Pow2(7) == 128
  {
  }

  /** readUint32/64 of what writeUint32/64 wrote, with the length bounds of
      the two scratch buffers. */
  lemma VarintRoundTrip(bits: nat, v: nat, rest: seq<Byte>)
    requires bits > 0 && v < Pow2(bits)
    ensures UnLeb(bits, 0, 0, Leb(v) + rest) == Done(v, |Leb(v)|)
    ensures |Leb(v)| <= (bits + 6) / 7
  {
    UnLebLeb(bits, 0, 0, v, rest);
    UnLebStops(bits, 0, 0, Leb(v) + rest);
  }

  // ---- zigzag ----------------------------------------------------------

  /** EncodeZigzag32/64 under wrap-around arithmetic. */
  function EncodeZigzag(bits: nat, v: int): nat {
    var m := Pow2(bits);
    if v < 0 then ((-v) % m * 2 - 1) % m else (v * 2) % m
  }

  /** DecodeZigzag32/64: xor with -(v & 1) leaves the bits or complements them. */
  function DecodeZigzag(bits: nat, u: nat): int
    requires bits > 0 && u < Pow2(bits)
  {
    AsSigned(bits, if u % 2 == 1 then Pow2(bits) - 1 - u / 2 else u / 2)
  }

  lemma Doubled(v: int, m: int)
    requires 0 <= 2 * v < m
    ensures v % m == v && (v * 2) % m == 2 * v
  {
    QuotientUnique(v, m, 0, v);
    QuotientUnique(v * 2, m, 0, v * 2);
  }

  lemma DoubledLessOne(v: int, m: int)
    requires 0 < 2 * v <= m
    ensures v % m == v && (v * 2 - 1) % m == 2 * v - 1
  {
    QuotientUnique(v, m, 0, v);
    QuotientUnique(v * 2 - 1, m, 0, v * 2 - 1);
  }

  lemma Pow2Double(bits: nat)
    requires bits > 0
    ensures Pow2(bits) == 2 * Pow2(bits - 1) && Pow2(bits - 1) > 0
  {
  }

  /** The numbers are interleaved 0, -1, 1, -2, 2, ... */
  lemma ZigzagInterleaves(bits: nat, v: int)
    requires bits > 0 && InSigned(bits, v)
    ensures EncodeZigzag(bits, v) == (if v < 0 then -2 * v - 1 else 2 * v) < Pow2(bits)
  {
    hide Pow2;
    Pow2Double(bits);
    if v < 0 {
      DoubledLessOne(-v, Pow2(bits));
    } else {
      Doubled(v, Pow2(bits));
    }
  }

  lemma ZigzagRoundTrip(bits: nat, v: int)
    requires bits > 0 && InSigned(bits, v)
    ensures EncodeZigzag(bits, v) < Pow2(bits)
    ensures DecodeZigzag(bits, EncodeZigzag(bits, v)) == v
  {
    ZigzagInterleaves(bits, v);
    assert Pow2(bits) == 2 * Pow2(bits - 1);
    var u := EncodeZigzag(bits, v);
    assert u / 2 == if v < 0 then -v - 1 else v;
  }

  /** Decoding is onto: every code word is the code of what it decodes to. */
  lemma ZigzagOnto(bits: nat, u: nat)
    requires bits > 0 && u < Pow2(bits)
    ensures InSigned(bits, DecodeZigzag(bits, u))
    ensures EncodeZigzag(bits, DecodeZigzag(bits, u)) == u
  {
    ZigzagInterleaves(bits, DecodeZigzag(bits, u));
  }

  /** Small magnitudes take few bytes: exactly the values of 7k-1 bits and a
      sign take at most k bytes. */
  lemma ZigzagSize(bits: nat, v: int, k: nat)
    requires bits > 0 && InSigned(bits, v) && k > 0
    ensures |Leb(EncodeZigzag(bits, v))| <= k <==> -Pow2(7 * k - 1) <= v < Pow2(7 * k - 1)
  {
    ZigzagInterleaves(bits, v);
    LebLength(EncodeZigzag(bits, v), k);
    assert Pow2(7 * k) == 2 * Pow2(7 * k - 1);
  }
}
