/** Printing an IPv6 address with its port, and reading the text back by
    section 2.2 of RFC 4291. */
module IPv6 {
  import opened Bytes
  import opened Codec
  import opened Options

  // ---- numerals ----------------------------------------------------------

  function DigitChar(d: nat): char
    requires d < 16
  {
    "0123456789abcdef"[d]
  }

  function DigitValue(c: char): Option<nat> {
    if '0' <= c <= '9' then Some((c - '0') as nat)
    else if 'a' <= c <= 'f' then Some((c - 'a') as nat + 10)
    else if 'A' <= c <= 'F' then Some((c - 'A') as nat + 10)
    else None
  }

  /** How a stream prints a number in base ten or sixteen. */
  function Numeral(n: nat, base: nat): (s: string)
    requires 2 <= base <= 16
    ensures s != ""
    decreases n
  {
    if n < base then [DigitChar(n)] else Numeral(n / base, base) + [DigitChar(n % base)]
  }

  function Value(s: string, base: nat): Option<nat> {
    if s == "" then None
    else
      match DigitValue(s[|s| - 1])
      case None => None
      case Some(d) =>
        if d >= base then None
        else if |s| == 1 then Some(d)
        else
          match Value(s[..|s| - 1], base)
          case None => None
          case Some(v) => Some(v * base + d)
  }

  lemma DigitBack(d: nat)
    requires d < 16
    ensures DigitValue(DigitChar(d)) == Some(d)
  {
  }

  lemma Divided(n: nat, base: nat)
    requires base >= 2
    ensures n == n / base * base + n % base && n % base < base
  {
  }

  lemma ValueSnoc(s: string, v: nat, d: nat, base: nat)
    requires 2 <= base <= 16 && d < base && s != "" && Value(s, base) == Some(v)
    ensures Value(s + [DigitChar(d)], base) == Some(v * base + d)
  {
    hide DigitChar, DigitValue;
    DigitBack(d);
    assert (s + [DigitChar(d)])[..|s|] == s;
  }

  lemma ValueDigit(d: nat, base: nat)
    requires 2 <= base <= 16 && d < base
    ensures Value([DigitChar(d)], base) == Some(d)
  {
    hide DigitChar, DigitValue;
    DigitBack(d);
  }

  lemma NumeralNext(n: nat, base: nat)
    requires 2 <= base <= 16
    ensures n < base ==> Numeral(n, base) == [DigitChar(n)]
    ensures n >= base ==> n / base < n && n % base < base && n == n / base * base + n % base
                          && Numeral(n, base) == Numeral(n / base, base) + [DigitChar(n % base)]
  {
    hide DigitChar;
    Divided(n, base);
  }

  lemma {:induction false} ValueNumeral(n: nat, base: nat)
    requires 2 <= base <= 16
    ensures Value(Numeral(n, base), base) == Some(n)
    decreases n
  {
    hide DigitChar, Numeral, Value;
    NumeralNext(n, base);
    if n < base {
      ValueDigit(n, base);
    } else {
      ValueNumeral(n / base, base);
      ValueSnoc(Numeral(n / base, base), n / base, n % base, base);
    }
  }

  /** Numerals have neither colons nor brackets. */
  lemma {:induction false} NumeralClean(n: nat, base: nat)
    requires 2 <= base <= 16
    ensures forall c <- Numeral(n, base) :: DigitValue(c).Some?
    decreases n
  {
    if n < base {
      DigitBack(n);
    } else {
      hide DigitValue, DigitChar;
      Divided(n, base);
      NumeralClean(n / base, base);
      DigitBack(n % base);
    }
  }

  /** Digits are plain or small letters, and a number does not start with a zero
      unless it is one. */
  lemma {:induction false} NumeralPlain(n: nat, base: nat)
    requires 2 <= base <= 16
    ensures forall c <- Numeral(n, base) :: '0' <= c <= '9' || 'a' <= c <= 'f'
    ensures Numeral(n, base)[0] == '0' <==> n == 0
    ensures n == 0 ==> Numeral(n, base) == "0"
    decreases n
  {
    hide Value, DigitValue;
    NumeralNext(n, base);
    DigitPlain(n % base);
    if n < base {
      DigitPlain(n);
    } else {
      NumeralPlain(n / base, base);
    }
  }

  lemma DigitPlain(d: nat)
    requires d < 16
    ensures '0' <= DigitChar(d) <= '9' || 'a' <= DigitChar(d) <= 'f'
    ensures DigitChar(d) == '0' <==> d == 0
  {
  }

  function Hex(n: nat): string {
    Numeral(n, 16)
  }

  lemma HexShort(n: nat)
    requires n < 0x1_0000
    ensures |Hex(n)| <= 4
  {
    HexNext(n);
    HexNext(n / 16);
    HexNext(n / 16 / 16);
    HexNext(n / 16 / 16 / 16);
  }

  lemma HexNext(n: nat)
    ensures |Hex(n)| == if n < 16 then 1 else |Hex(n / 16)| + 1
  {
  }

  // ---- the text of the groups ------------------------------------------------

  function Join(gs: seq<nat>): string {
    if gs == [] then "" else if |gs| == 1 then Hex(gs[0]) else Hex(gs[0]) + ":" + Join(gs[1..])
  }

  /** The place of the first zero; the length if there is none. */
  function FirstZero(gs: seq<nat>): (z: nat)
    ensures z <= |gs| && (forall i :: 0 <= i < z ==> gs[i] != 0) && (z < |gs| ==> gs[z] == 0)
  {
    if gs == [] || gs[0] == 0 then 0 else 1 + FirstZero(gs[1..])
  }

  /** How many zeros `gs` begins with. */
  function Zeros(gs: seq<nat>): (n: nat)
    ensures n <= |gs| && (forall i :: 0 <= i < n ==> gs[i] == 0) && (n < |gs| ==> gs[n] != 0)
  {
    if gs == [] || gs[0] != 0 then 0 else 1 + Zeros(gs[1..])
  }

  /** The first run of zeros, however short, gives way to two colons. */
  function Printed(gs: seq<nat>): string {
    var z := FirstZero(gs);
    if z == |gs| then Join(gs)
    else Join(gs[..z]) + "::" + Join(gs[z + Zeros(gs[z..])..])
  }

  lemma {:induction false} JoinSnoc(gs: seq<nat>, g: nat)
    ensures Join(gs + [g]) == if gs == [] then Hex(g) else Join(gs) + ":" + Hex(g)
  {
    hide Hex;
    if gs != [] {
      var rest := gs[1..];
      JoinSnoc(rest, g);
      assert (gs + [g])[1..] == rest + [g];
      if rest != [] {
        assert Hex(gs[0]) + ":" + Join(rest) + ":" + Hex(g) == Hex(gs[0]) + ":" + (Join(rest) + ":" + Hex(g));
      }
    }
  }

  /** The groups of the sixteen bytes of an address. */
  function Groups(addr: seq<Byte>): (gs: seq<nat>)
    requires |addr| == 16
    ensures |gs| == 8
  {
    seq(8, i requires 0 <= i < 8 => Load(BigEndian, addr[2 * i..2 * i + 2]))
  }

  /** byteswapOnLittleEndian of a 16-bit number in memory. */
  function FromNetwork(host: Order, s: seq<Byte>): (v: nat)
    requires |s| == 2
    ensures v == Load(BigEndian, s)
    ensures v < 0x1_0000 && (v == 0 <==> Load(host, s) == 0)
  {
    SwappedLoad(host, s);
    PairValue(s);
    if host.LittleEndian? then Byteswap(2, Load(host, s)) else Load(host, s)
  }

  lemma OneByte(b: Byte)
    ensures FromLittle([b]) == b as int
  {
    assert [b][1..] == [];
  }

  lemma PairValue(s: seq<Byte>)
    requires |s| == 2
    ensures Load(LittleEndian, s) == s[0] as int + 256 * s[1] as int
    ensures Load(BigEndian, s) == s[1] as int + 256 * s[0] as int
  {
    OneByte(s[0]);
    OneByte(s[1]);
    assert s[1..] == [s[1]];
    assert Reverse(s) == [s[1], s[0]] && [s[1], s[0]][1..] == [s[0]];
  }

  function Text(gs: seq<nat>, port: nat): string {
    "[" + Printed(gs) + "]:" + Numeral(port, 10)
  }

  /** Where the first run of zeros ends. */
  function RunEnd(gs: seq<nat>): (e: nat)
    ensures FirstZero(gs) <= e <= |gs|
  {
    var z := FirstZero(gs);
    z + Zeros(gs[z..])
  }

  /** What is printed of the first `i` groups, and whether the two colons are. */
  function Sofar(gs: seq<nat>, i: nat): string
    requires i <= |gs|
  {
    var z := FirstZero(gs);
    if i <= z then Join(gs[..i])
    else if i <= RunEnd(gs) then Join(gs[..z])
    else Join(gs[..z]) + "::" + Join(gs[RunEnd(gs)..i])
  }

  predicate Used(gs: seq<nat>, i: nat) {
    FirstZero(gs) < i && RunEnd(gs) < i
  }

  lemma RunFacts(gs: seq<nat>, i: nat)
    requires i < |gs|
    ensures i < FirstZero(gs) ==> gs[i] != 0
    ensures FirstZero(gs) <= i < RunEnd(gs) ==> gs[i] == 0
    ensures i == RunEnd(gs) ==> gs[i] != 0 && FirstZero(gs) < i
  {
    hide FirstZero, Zeros;
    var z := FirstZero(gs);
    if z <= i {
      var n := Zeros(gs[z..]);
      assert gs[i] == gs[z..][i - z] && gs[z] == gs[z..][0];
    }
  }

  lemma JoinNone()
    ensures Join([]) == ""
  {
  }

  lemma SpelledGap(a: string, h: string)
    ensures a + "::" + h == a + ":" + ":" + h
  {
    assert a + ":" + ":" == a + "::";
  }

  lemma SpelledOn(a: string, b: string, h: string)
    ensures a + (b + ":" + h) == a + b + ":" + h
  {
  }

  lemma SliceSnoc(gs: seq<nat>, e: nat, i: nat)
    requires e <= i < |gs|
    ensures gs[e..i + 1] == gs[e..i] + [gs[i]] && (e == 0 ==> gs[..i + 1] == gs[..i] + [gs[i]])
    ensures e == i ==> gs[e..i + 1] == [gs[i]]
  {
  }

  lemma JoinOne(g: nat)
    ensures Join([g]) == Hex(g)
  {
  }

  lemma SofarBefore(gs: seq<nat>, i: nat)
    requires i < |gs| && i < FirstZero(gs)
    ensures Sofar(gs, i + 1) == Sofar(gs, i) + (if i > 0 then ":" else "") + Hex(gs[i])
  {
    hide FirstZero, RunEnd, Hex, Join;
    JoinNone();
    SliceSnoc(gs, 0, i);
    JoinSnoc(gs[..i], gs[i]);
  }

  lemma SofarGap(gs: seq<nat>, i: nat)
    requires i < |gs| && FirstZero(gs) < i == RunEnd(gs)
    ensures Sofar(gs, i + 1) == Sofar(gs, i) + ":" + ":" + Hex(gs[i])
  {
    hide FirstZero, RunEnd, Hex, Join;
    JoinOne(gs[i]);
    SliceSnoc(gs, i, i);
    SpelledGap(Join(gs[..FirstZero(gs)]), Hex(gs[i]));
  }

  lemma SofarBehind(gs: seq<nat>, i: nat)
    requires i < |gs| && FirstZero(gs) <= RunEnd(gs) < i
    ensures Sofar(gs, i + 1) == Sofar(gs, i) + ":" + Hex(gs[i])
  {
    hide FirstZero, RunEnd, Hex, Join;
    var z, e := FirstZero(gs), RunEnd(gs);
    SliceSnoc(gs, e, i);
    Further(Join(gs[..z]) + "::", gs[e..i], gs[i]);
  }

  lemma Further(a: string, run: seq<nat>, g: nat)
    requires run != []
    ensures a + Join(run + [g]) == a + Join(run) + ":" + Hex(g)
  {
    hide Hex, Join;
    JoinSnoc(run, g);
    SpelledOn(a, Join(run), Hex(g));
  }

  lemma SofarIn(gs: seq<nat>, i: nat)
    requires i < |gs| && FirstZero(gs) <= i < RunEnd(gs)
    ensures Sofar(gs, i + 1) == Sofar(gs, i)
  {
    hide FirstZero, RunEnd, Join;
    assert i == FirstZero(gs) ==> gs[..i] == gs[..FirstZero(gs)];
  }

  /** One turn of the loop. */
  lemma SofarStep(gs: seq<nat>, i: nat)
    requires i < |gs|
    ensures var gap := i > 0 && gs[i - 1] == 0 && !Used(gs, i);
            if gs[i] == 0 && !Used(gs, i) then Sofar(gs, i + 1) == Sofar(gs, i) && !Used(gs, i + 1)
            else
              && Sofar(gs, i + 1) == Sofar(gs, i) + (if gap then ":" else "") + (if i > 0 then ":" else "") + Hex(gs[i])
              && Used(gs, i + 1) == (Used(gs, i) || gap)
  {
    hide FirstZero, RunEnd, Hex, Sofar;
    RunFacts(gs, i);
    if i > 0 {
      RunFacts(gs, i - 1);
    }
    assert Sofar(gs, i) + "" == Sofar(gs, i);
    if i < FirstZero(gs) {
      SofarBefore(gs, i);
    } else if i < RunEnd(gs) {
      SofarIn(gs, i);
    } else if i == RunEnd(gs) {
      SofarGap(gs, i);
    } else {
      SofarBehind(gs, i);
    }
  }

  /** What is on the stream after `i` groups. */
  function Opened(gs: seq<nat>, i: nat): string
    requires i <= |gs|
  {
    "[" + Sofar(gs, i)
  }

  lemma Joined(a: string, b: string, c: string)
    ensures a + (b + c) == a + b + c
  {
  }

  lemma OpenedStep(gs: seq<nat>, i: nat)
    requires i < |gs|
    ensures var gap := i > 0 && gs[i - 1] == 0 && !Used(gs, i);
            var h := Hex(gs[i]);
            if gs[i] == 0 && !Used(gs, i) then Opened(gs, i + 1) == Opened(gs, i) && !Used(gs, i + 1)
            else
              && Used(gs, i + 1) == (Used(gs, i) || gap)
              && (gap ==> Opened(gs, i + 1) == Opened(gs, i) + ":" + ":" + h)
              && (!gap && i > 0 ==> Opened(gs, i + 1) == Opened(gs, i) + ":" + h)
              && (i == 0 ==> Opened(gs, i + 1) == Opened(gs, i) + h)
  {
    hide Sofar, Used, Hex;
    SofarStep(gs, i);
    var s, h := Sofar(gs, i), Hex(gs[i]);
    assert s + "" == s && s + "" + "" == s && s + "" + ":" == s + ":";
    Joined("[", s, h);
    Joined("[", s + ":", h);
    Joined("[", s, ":");
    Joined("[", s + ":" + ":", h);
    Joined("[", s + ":", ":");
  }

  lemma GroupOf(host: Order, addr: seq<Byte>, i: nat)
    requires |addr| == 16 && i < 8
    ensures FromNetwork(host, addr[2 * i..2 * i + 2]) == Groups(addr)[i]
    ensures Load(host, addr[2 * i..2 * i + 2]) == 0 <==> Groups(addr)[i] == 0
  {
    hide Load, FromNetwork;
    var _ := FromNetwork(host, addr[2 * i..2 * i + 2]);
  }

  /** IPv6Address::insert, for an address and a port as they are in memory. */
  method Insert(host: Order, addr: seq<Byte>, port: seq<Byte>) returns (os: string)
    requires |addr| == 16 && |port| == 2
    ensures os == Text(Groups(addr), Load(BigEndian, port))
  {
    hide Load, FromNetwork, Groups, Numeral, Opened, Used, Hex;
    ghost var gs := Groups(addr);
    os := "[";
    var usedZeros := false;
    OpenedNone(gs);
    for i := 0 to 8
      invariant os == Opened(gs, i) && usedZeros == Used(gs, i)
    {
      OpenedStep(gs, i);
      GroupOf(host, addr, i);
      if Load(host, addr[2 * i..2 * i + 2]) == 0 && !usedZeros {
        continue;
      }
      if i > 0 {
        GroupOf(host, addr, i - 1);
        if Load(host, addr[2 * (i - 1)..2 * (i - 1) + 2]) == 0 && !usedZeros {
          os := os + ":";
          usedZeros := true;
        }
      }
      if i > 0 {
        os := os + ":";
      }
      os := os + Hex(FromNetwork(host, addr[2 * i..2 * i + 2]));
    }
    GroupOf(host, addr, 7);
    OpenedAll(gs);
    if !usedZeros && Load(host, addr[2 * 7..2 * 7 + 2]) == 0 {
      os := os + "::";
    }
    os := os + "]:" + Numeral(FromNetwork(host, port), 10);
  }

  lemma OpenedNone(gs: seq<nat>)
    ensures Opened(gs, 0) == "[" && !Used(gs, 0)
  {
    hide Sofar, Used;
    SofarNone(gs);
  }

  lemma OpenedAll(gs: seq<nat>)
    requires gs != []
    ensures "[" + Printed(gs)
            == if !Used(gs, |gs|) && gs[|gs| - 1] == 0 then Opened(gs, |gs|) + "::" else Opened(gs, |gs|)
  {
    hide Sofar, Used, Printed;
    SofarAll(gs);
    Joined("[", Sofar(gs, |gs|), "::");
    assert Sofar(gs, |gs|) + "" == Sofar(gs, |gs|);
  }

  lemma SofarNone(gs: seq<nat>)
    ensures Sofar(gs, 0) == "" && !Used(gs, 0)
  {
  }

  lemma PrintedIs(gs: seq<nat>)
    ensures FirstZero(gs) < |gs| ==> Printed(gs) == Join(gs[..FirstZero(gs)]) + "::" + Join(gs[RunEnd(gs)..])
    ensures FirstZero(gs) == |gs| ==> Printed(gs) == Join(gs)
  {
  }

  lemma SofarAll(gs: seq<nat>)
    requires gs != []
    ensures Printed(gs) == Sofar(gs, |gs|) + if !Used(gs, |gs|) && gs[|gs| - 1] == 0 then "::" else ""
  {
    hide FirstZero, RunEnd, Hex, Join, Printed;
    JoinNone();
    PrintedIs(gs);
    RunFacts(gs, |gs| - 1);
    var n, z, e := |gs|, FirstZero(gs), RunEnd(gs);
    assert gs[..n] == gs && gs[e..n] == gs[e..];
    assert Sofar(gs, n) + "" == Sofar(gs, n);
    if z < n && e == n {
      assert gs[e..] == [];
      assert Join(gs[..z]) + "::" + "" == Join(gs[..z]) + "::";
    }
  }

  /** `zeros` is the first run of zeros in `gs`, all of it. */
  ghost predicate FirstRun(gs: seq<nat>, left: seq<nat>, zeros: seq<nat>, right: seq<nat>) {
    && gs == left + zeros + right && zeros != [] && (forall g <- zeros :: g == 0)
    && 0 !in left && (right == [] || right[0] != 0)
  }

  /** The two colons stand for the first run of zero groups. */
  lemma FirstRunGoes(gs: seq<nat>)
    requires 0 in gs
    ensures exists left, zeros, right ::
              FirstRun(gs, left, zeros, right) && Printed(gs) == Join(left) + "::" + Join(right)
  {
    hide Join, Printed, RunEnd;
    var z, e := FirstZero(gs), RunEnd(gs);
    PrintedIs(gs);
    RunFacts(gs, z);
    if e < |gs| {
      RunFacts(gs, e);
    }
    forall i | z <= i < e ensures gs[i] == 0 {
      RunFacts(gs, i);
    }
    ThreeParts(gs, z, e);
    var left, right := gs[..z], gs[e..];
    assert FirstRun(gs, left, seq(e - z, _ => 0), right);
  }

  // ---- section 2.2 of RFC 4291 ------------------------------------------------

  function IndexOf(s: string, c: char): (k: nat)
    ensures k <= |s| && (forall i :: 0 <= i < k ==> s[i] != c) && (k < |s| ==> s[k] == c)
  {
    if s == "" || s[0] == c then 0 else 1 + IndexOf(s[1..], c)
  }

  /** The place of the first two colons in a row; the length if there is none. */
  function DoubleColon(s: string): (k: nat)
    ensures k <= |s| && (k < |s| ==> k + 2 <= |s| && s[k] == ':' == s[k + 1])
  {
    if |s| < 2 then |s|
    else if s[0] == ':' && s[1] == ':' then 0
    else
      1 + DoubleColon(s[1..])
  }

  /** One to four hexadecimal digits. */
  function Field(s: string): Option<nat> {
    if |s| > 4 then None else Value(s, 16)
  }

  /** Fields with single colons between them. */
  function Fields(s: string): Option<seq<nat>>
    decreases |s|
  {
    var k := IndexOf(s, ':');
    match Field(s[..k])
    case None => None
    case Some(v) =>
      if k == |s| then Some([v])
      else
        match Fields(s[k + 1..])
        case None => None
        case Some(more) => Some([v] + more)
  }

  function FieldsOrNone(s: string): Option<seq<nat>> {
    if s == "" then Some([]) else Fields(s)
  }

  /** The two parts with the zeros that are missing between them. */
  function Filling(left: Option<seq<nat>>, right: Option<seq<nat>>): Option<seq<nat>> {
    if left.None? || right.None? || |left.value| + |right.value| > 7 then None
    else Some(left.value + seq(8 - |left.value| - |right.value|, _ => 0) + right.value)
  }

  /** Eight fields, or fewer with the two colons standing for the zeros that are
      missing. */
  function ParseGroups(s: string): Option<seq<nat>> {
    var k := DoubleColon(s);
    if k == |s| then
      match Fields(s)
      case None => None
      case Some(gs) => if |gs| == 8 then Some(gs) else None
    else Filling(FieldsOrNone(s[..k]), FieldsOrNone(s[k + 2..]))
  }

  /** The groups in brackets, a colon, and the port. */
  function ParseText(t: string): Option<(seq<nat>, nat)> {
    var k := IndexOf(t, ']');
    if k == 0 || k + 1 >= |t| || t[0] != '[' || t[k + 1] != ':' then None
    else
      match ParseGroups(t[1..k])
      case None => None
      case Some(gs) =>
        match Value(t[k + 2..], 10)
        case None => None
        case Some(port) => Some((gs, port))
  }

  // ---- reading back ------------------------------------------------------------

  lemma {:induction false} IndexOfIs(s: string, c: char, k: nat)
    requires k <= |s| && (forall i :: 0 <= i < k ==> s[i] != c) && (k < |s| ==> s[k] == c)
    ensures IndexOf(s, c) == k
  {
  }

  predicate Small(gs: seq<nat>) {
    forall i :: 0 <= i < |gs| ==> gs[i] < 0x1_0000
  }

  lemma HexField(n: nat)
    requires n < 0x1_0000
    ensures Field(Hex(n)) == Some(n) && Hex(n) != "" && ':' !in Hex(n) && ']' !in Hex(n)
  {
    HexShort(n);
    ValueNumeral(n, 16);
    NumeralClean(n, 16);
  }

  lemma FieldsLast(h: string, v: nat)
    requires Field(h) == Some(v) && ':' !in h
    ensures Fields(h) == Some([v])
  {
    hide Field;
    IndexOfIs(h, ':', |h|);
    assert h[..|h|] == h;
  }

  lemma FieldsCons(h: string, v: nat, rest: string, more: seq<nat>)
    requires Field(h) == Some(v) && ':' !in h && Fields(rest) == Some(more)
    ensures Fields(h + ":" + rest) == Some([v] + more)
  {
    hide Field;
    var s := h + ":" + rest;
    IndexOfIs(s, ':', |h|);
    assert s[..|h|] == h && s[|h| + 1..] == rest;
  }

  lemma {:induction false} FieldsJoin(gs: seq<nat>)
    requires Small(gs) && gs != []
    ensures Fields(Join(gs)) == Some(gs) && Join(gs) != ""
  {
    hide Field, Fields, Hex;
    HexField(gs[0]);
    if |gs| == 1 {
      FieldsLast(Hex(gs[0]), gs[0]);
      assert gs == [gs[0]];
    } else {
      FieldsJoin(gs[1..]);
      FieldsCons(Hex(gs[0]), gs[0], Join(gs[1..]), gs[1..]);
      assert [gs[0]] + gs[1..] == gs;
    }
  }

  /** No two colons in a row, and none at either end. */
  ghost predicate Single(s: string) {
    && (forall i :: 0 <= i < |s| - 1 ==> !(s[i] == ':' && s[i + 1] == ':'))
    && (s != "" ==> s[0] != ':' && s[|s| - 1] != ':')
    && ']' !in s
  }

  lemma {:induction false} JoinSingle(gs: seq<nat>)
    requires Small(gs)
    ensures Single(Join(gs))
  {
    if gs != [] {
      var h := Hex(gs[0]);
      HexField(gs[0]);
      if |gs| > 1 {
        JoinSingle(gs[1..]);
        FieldsJoin(gs[1..]);
      }
    }
  }

  lemma {:induction false} DoubleColonAt(a: string, b: string)
    requires Single(a)
    ensures DoubleColon(a + "::" + b) == |a| && DoubleColon(a) == |a|
  {
    var s := a + "::" + b;
    if |a| >= 1 {
      assert s[1..] == a[1..] + "::" + b;
      assert |a| >= 2 ==> s[1] == a[1];
      SingleTail(a, b);
    }
  }

  /** The same for what is left of a text. */
  lemma {:induction false} SingleTail(a: string, b: string)
    requires a != "" && a[|a| - 1] != ':' && forall i :: 0 <= i < |a| - 1 ==> !(a[i] == ':' && a[i + 1] == ':')
    ensures DoubleColon(a + "::" + b) == |a| && DoubleColon(a) == |a|
    decreases |a|
  {
    var s := a + "::" + b;
    assert s[1..] == a[1..] + "::" + b;
    if |a| == 1 {
      assert s[1..] == "::" + b;
    } else {
      SingleTail(a[1..], b);
    }
  }

  lemma ThreeParts(gs: seq<nat>, z: nat, e: nat)
    requires z <= e <= |gs| && forall i :: z <= i < e ==> gs[i] == 0
    ensures gs == gs[..z] + seq(e - z, _ => 0) + gs[e..]
  {
    var zeros := seq(e - z, _ => 0);
    assert gs[z..e] == zeros;
    assert gs == gs[..z] + gs[z..e] + gs[e..];
  }

  /** The zeros between the two parts are what the parser fills in. */
  lemma Filled(gs: seq<nat>)
    requires |gs| == 8 && FirstZero(gs) < 8
    ensures var z, e := FirstZero(gs), RunEnd(gs);
            z < e <= 8 && gs == gs[..z] + seq(e - z, _ => 0) + gs[e..]
  {
    hide FirstZero, RunEnd;
    var z, e := FirstZero(gs), RunEnd(gs);
    RunFacts(gs, z);
    forall i | z <= i < e ensures gs[i] == 0 {
      RunFacts(gs, i);
    }
    ThreeParts(gs, z, e);
  }

  lemma ParseJoined(gs: seq<nat>)
    requires |gs| == 8 && Small(gs)
    ensures ParseGroups(Join(gs)) == Some(gs)
  {
    hide Fields, Join;
    JoinSingle(gs);
    FieldsJoin(gs);
    DoubleColonAt(Join(gs), "");
  }

  lemma FieldsOrNoneJoin(gs: seq<nat>)
    requires Small(gs)
    ensures FieldsOrNone(Join(gs)) == Some(gs) && Single(Join(gs))
  {
    hide Fields;
    JoinSingle(gs);
    if gs != [] {
      FieldsJoin(gs);
    }
  }

  lemma ParseSplit(left: seq<nat>, right: seq<nat>)
    requires Small(left) && Small(right) && |left| + |right| <= 7
    ensures ParseGroups(Join(left) + "::" + Join(right))
            == Some(left + seq(8 - |left| - |right|, _ => 0) + right)
  {
    hide ParseGroups, FieldsOrNone, Join, DoubleColon, Single;
    var a, b := Join(left), Join(right);
    FieldsOrNoneJoin(left);
    FieldsOrNoneJoin(right);
    DoubleColonAt(a, b);
    ParseAt(a, b, left, right);
  }

  lemma FillingIs(left: seq<nat>, right: seq<nat>)
    requires |left| + |right| <= 7
    ensures Filling(Some(left), Some(right)) == Some(left + seq(8 - |left| - |right|, _ => 0) + right)
  {
  }

  lemma ParseAt(a: string, b: string, left: seq<nat>, right: seq<nat>)
    requires DoubleColon(a + "::" + b) == |a| && |left| + |right| <= 7
    requires FieldsOrNone(a) == Some(left) && FieldsOrNone(b) == Some(right)
    ensures ParseGroups(a + "::" + b) == Some(left + seq(8 - |left| - |right|, _ => 0) + right)
  {
    hide FieldsOrNone, DoubleColon, Filling;
    FillingIs(left, right);
    var s := a + "::" + b;
    assert s[..|a|] == a && s[|a| + 2..] == b;
  }

  lemma ParsePrinted(gs: seq<nat>)
    requires |gs| == 8 && Small(gs)
    ensures ParseGroups(Printed(gs)) == Some(gs) && ']' !in Printed(gs)
  {
    hide ParseGroups, FirstZero, Join, RunEnd;
    var z, e := FirstZero(gs), RunEnd(gs);
    PrintedIs(gs);
    if z == 8 {
      JoinSingle(gs);
      ParseJoined(gs);
    } else {
      Filled(gs);
      JoinSingle(gs[..z]);
      JoinSingle(gs[e..]);
      ParseSplit(gs[..z], gs[e..]);
    }
  }

  /** What is printed, read by the RFC's rules, gives the groups and the port
      back. */
  lemma ParseInvertsText(gs: seq<nat>, port: nat)
    requires |gs| == 8 && Small(gs)
    ensures ParseText(Text(gs, port)) == Some((gs, port))
  {
    hide ParseGroups, Printed, Value, Numeral;
    ParsePrinted(gs);
    ValueNumeral(port, 10);
    var body := Printed(gs);
    var t := Text(gs, port);
    var k := |body| + 1;
    assert t[0] == '[' && t[k] == ']' && t[k + 1] == ':';
    assert t[1..k] == body && t[k + 2..] == Numeral(port, 10);
    assert forall i :: 1 <= i < k ==> t[i] == body[i - 1];
    IndexOfIs(t, ']', k);
  }

  /** For an address and a port in memory: read by the RFC's rules, the text gives
      the eight groups of two bytes each, the high byte first, and the port. */
  lemma AddressReadBack(addr: seq<Byte>, port: seq<Byte>)
    requires |addr| == 16 && |port| == 2
    ensures var r := ParseText(Text(Groups(addr), Load(BigEndian, port)));
            && r.Some? && |r.value.0| == 8 && r.value.1 == 256 * port[0] as int + port[1] as int
            && forall i :: 0 <= i < 8 ==> r.value.0[i] == 256 * addr[2 * i] as int + addr[2 * i + 1] as int
  {
    hide Text, Load, ParseText;
    GroupsSmall(addr);
    PairValue(port);
    ParseInvertsText(Groups(addr), Load(BigEndian, port));
    forall i | 0 <= i < 8 ensures Groups(addr)[i] == 256 * addr[2 * i] as int + addr[2 * i + 1] as int {
      PairValue(addr[2 * i..2 * i + 2]);
    }
  }

  /** Different addresses or ports never print alike. */
  lemma TextInjective(a: seq<Byte>, p: nat, b: seq<Byte>, q: nat)
    requires |a| == 16 && |b| == 16
    requires Text(Groups(a), p) == Text(Groups(b), q)
    ensures a == b && p == q
  {
    hide Text, Load;
    GroupsSmall(a);
    GroupsSmall(b);
    ParseInvertsText(Groups(a), p);
    ParseInvertsText(Groups(b), q);
    forall i | 0 <= i < 8 ensures a[2 * i] == b[2 * i] && a[2 * i + 1] == b[2 * i + 1] {
      assert Groups(a)[i] == Groups(b)[i];
      PairValue(a[2 * i..2 * i + 2]);
      PairValue(b[2 * i..2 * i + 2]);
    }
    forall j | 0 <= j < 16 ensures a[j] == b[j] {
      assert j == 2 * (j / 2) || j == 2 * (j / 2) + 1;
    }
  }

  lemma GroupsSmall(a: seq<Byte>)
    requires |a| == 16
    ensures Small(Groups(a))
  {
    forall i | 0 <= i < 8 ensures Groups(a)[i] < 0x1_0000 {
      PairValue(a[2 * i..2 * i + 2]);
    }
  }

  // ---- two colons at most once -----------------------------------------------------

  /** How often two colons stand in a row. */
  function Doubles(s: string): nat {
    if |s| < 2 then 0 else (if s[0] == ':' && s[1] == ':' then 1 else 0) + Doubles(s[1..])
  }

  lemma {:induction false} DoublesNone(s: string)
    requires forall i :: 0 <= i < |s| - 1 ==> !(s[i] == ':' && s[i + 1] == ':')
    ensures Doubles(s) == 0
  {
    if |s| >= 2 {
      DoublesNone(s[1..]);
    }
  }

  lemma {:induction false} DoublesOnce(a: string, b: string)
    requires a == "" || a[|a| - 1] != ':'
    requires b == "" || b[0] != ':'
    requires forall i :: 0 <= i < |a| - 1 ==> !(a[i] == ':' && a[i + 1] == ':')
    requires forall i :: 0 <= i < |b| - 1 ==> !(b[i] == ':' && b[i + 1] == ':')
    ensures Doubles(a + "::" + b) == 1
    decreases |a|
  {
    var s := a + "::" + b;
    if a == "" {
      assert s[1..] == ":" + b;
      DoublesNone(":" + b);
    } else {
      assert s[1..] == a[1..] + "::" + b;
      DoublesOnce(a[1..], b);
    }
  }

  /** `::` appears exactly once if there is a zero group, and never otherwise. */
  lemma DoublesPrinted(gs: seq<nat>)
    requires |gs| == 8 && Small(gs)
    ensures Doubles(Printed(gs)) == if exists i :: 0 <= i < 8 && gs[i] == 0 then 1 else 0
  {
    hide Join, FirstZero, RunEnd, Printed, Doubles;
    var z, e := FirstZero(gs), RunEnd(gs);
    PrintedIs(gs);
    if z == 8 {
      JoinSingle(gs);
      DoublesNone(Join(gs));
    } else {
      JoinSingle(gs[..z]);
      JoinSingle(gs[e..]);
      DoublesOnce(Join(gs[..z]), Join(gs[e..]));
    }
  }
}
