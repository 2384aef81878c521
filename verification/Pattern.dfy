/** The scanner of log patterns: literals and items `%name` or `%name{format}`. */
module Patterns {

  /** An entry of `vec`: text, or an item's name and format. */
  datatype Token = Text(s: string) | Item(name: string, fmt: string)

  const PATTERN_ERROR := Text("<<pattern_error>>")

  predicate IsAlpha(c: char) {
    'a' <= c <= 'z' || 'A' <= c <= 'Z'
  }

  /** What the scanner takes as part of a name: a closing brace is. */
  predicate NameChar(c: char) {
    IsAlpha(c) || c == '}'
  }

  function NameLen(s: string): (k: nat)
    ensures k <= |s|
    ensures forall i :: 0 <= i < k ==> NameChar(s[i])
    ensures k < |s| ==> !NameChar(s[k])
  {
    if s == [] || !NameChar(s[0]) then 0 else 1 + NameLen(s[1..])
  }

  /** The place of the first `}`; the length if there is none. */
  function BraceAt(s: string): (k: nat)
    ensures k <= |s| && '}' !in s[..k]
    ensures k < |s| ==> s[k] == '}'
  {
    if s == [] || s[0] == '}' then 0 else 1 + BraceAt(s[1..])
  }

  /** What follows a `%`: an item and the rest, or a brace without its end. */
  datatype Lexed = Unclosed | Closed(name: string, fmt: string, rest: string)

  function Lex(s: string): (r: Lexed)
    ensures r.Closed? ==> |r.name| + |r.rest| <= |s|
  {
    var k := NameLen(s);
    if k == |s| || s[k] != '{' then Closed(s[..k], "", s[k..])
    else
      var c := BraceAt(s[k + 1..]);
      if k + 1 + c == |s| then Unclosed
      else Closed(s[..k], s[k + 1..][..c], s[k + 2 + c..])
  }

  function Flush(lit: string): seq<Token> {
    if lit == [] then [] else [Text(lit)]
  }

  /** The tokens of `s` after the text `lit`, and whether there is an error. An
      item in error is passed over: the text goes on behind its `%`. */
  function Scan(s: string, lit: string): (seq<Token>, bool)
    decreases |s|
  {
    if s == [] then (Flush(lit), false)
    else if s[0] != '%' then Scan(s[1..], lit + [s[0]])
    else if |s| > 1 && s[1] == '%' then Scan(s[1..], lit + ['%'])
    else
      match Lex(s[1..])
      case Unclosed =>
        var (toks, _) := Scan(s[1..], lit);
        ([PATTERN_ERROR] + toks, true)
      case Closed(name, fmt, rest) =>
        var (toks, err) := Scan(rest, "");
        (Flush(lit) + [Item(name, fmt)] + toks, err)
  }

  // ---- LogFormatter::init ------------------------------------------------

  lemma LexBare(s: string, k: nat)
    requires k <= |s| && (forall i :: 0 <= i < k ==> NameChar(s[i])) && (k < |s| ==> !NameChar(s[k]) && s[k] != '{')
    ensures Lex(s) == Closed(s[..k], "", s[k..])
  {
    NameLenIs(s, k);
  }

  lemma LexBrace(s: string, k: nat, c: nat)
    requires k < |s| && (forall i :: 0 <= i < k ==> NameChar(s[i])) && s[k] == '{'
    requires k + 1 + c <= |s| && (forall i :: k < i < k + 1 + c ==> s[i] != '}')
    requires k + 1 + c < |s| ==> s[k + 1 + c] == '}'
    ensures Lex(s) == if k + 1 + c == |s| then Unclosed else Closed(s[..k], s[k + 1..k + 1 + c], s[k + 2 + c..])
  {
    NameLenIs(s, k);
    BraceAtIs(s[k + 1..], c);
    assert k + 1 + c < |s| ==> s[k + 1..][..c] == s[k + 1..k + 1 + c];
  }

  lemma {:induction false} NameLenIs(s: string, k: nat)
    requires k <= |s| && (forall i :: 0 <= i < k ==> NameChar(s[i])) && (k < |s| ==> !NameChar(s[k]))
    ensures NameLen(s) == k
  {
  }

  lemma {:induction false} BraceAtIs(s: string, k: nat)
    requires k <= |s| && (forall i :: 0 <= i < k ==> s[i] != '}') && (k < |s| ==> s[k] == '}')
    ensures BraceAt(s) == k
  {
    if k > 0 {
      BraceAtIs(s[1..], k - 1);
    }
  }

  lemma NameCharIs(c: char)
    ensures NameChar(c) <==> IsAlpha(c) || c == '}'
    ensures NameChar(c) ==> c != '{'
  {
  }

  /** The inner loop, from behind the `%` at `i`. */
  method ScanItem(pattern: string, i: nat) returns (fmtStatus: int, str: string, fmt: string, n: nat)
    requires i < |pattern|
    ensures i < n <= |pattern| && (fmtStatus == 0 || fmtStatus == 1)
    ensures match Lex(pattern[i + 1..])
            case Unclosed => fmtStatus == 1 && fmt == ""
            case Closed(name, f, rest) => fmtStatus == 0 && str == name && fmt == f && rest == pattern[n..]
  {
    hide Lex, NameLen, BraceAt, IsAlpha, NameChar;
    n, fmtStatus, str, fmt := i + 1, 0, "", "";
    var fmtBegin: nat := 0;
    ghost var s := pattern[i + 1..];
    ghost var k: nat := 0;
    while n < |pattern|
      invariant i + 1 <= n <= |pattern| && fmt == "" && (fmtStatus == 0 || fmtStatus == 1)
      invariant fmtStatus == 0 ==>
          && (forall j :: 0 <= j < n - i - 1 ==> NameChar(s[j]))
          && str == if n == |pattern| then s else ""
      invariant fmtStatus == 1 ==>
          && k < |s| && fmtBegin == i + 1 + k < n && s[k] == '{' && (forall j :: 0 <= j < k ==> NameChar(s[j]))
          && (forall j :: k < j < n - i - 1 ==> s[j] != '}')
          && (str == s[..k] || n == |pattern|)
    {
      assert pattern[n] == s[n - i - 1];
      NameCharIs(pattern[n]);
      if fmtStatus == 0 && !IsAlpha(pattern[n]) && pattern[n] != '{' && pattern[n] != '}' {
        str := pattern[i + 1..n];
        LexBare(s, n - i - 1);
        return;
      }
      if fmtStatus == 0 {
        if pattern[n] == '{' {
          str, k := pattern[i + 1..n], n - i - 1;
          fmtStatus, fmtBegin, n := 1, n, n + 1;
          continue;
        }
      } else if fmtStatus == 1 {
        if pattern[n] == '}' {
          fmt := pattern[fmtBegin + 1..n];
          LexBrace(s, k, n - i - 2 - k);
          fmtStatus, n := 0, n + 1;
          return;
        }
      }
      n := n + 1;
      if n == |pattern| {
        if str == "" {
          str := pattern[i + 1..];
        }
      }
    }
    if fmtStatus == 0 {
      LexBare(s, |s|);
    } else {
      LexBrace(s, k, |s| - k - 1);
    }
  }

  /** What was found before, in front of a result. */
  function After(vec: seq<Token>, error: bool, r: (seq<Token>, bool)): (seq<Token>, bool) {
    (vec + r.0, error || r.1)
  }

  lemma FirstTurn(p: string)
    ensures Scan(p, "") == After([], false, Scan(p[0..], ""))
  {
    hide Scan;
    assert p[0..] == p && [] + Scan(p, "").0 == Scan(p, "").0;
  }

  lemma TextTurn(p: string, i: nat, nstr: string)
    requires i < |p| && (p[i] != '%' || (i + 1 < |p| && p[i + 1] == '%'))
    ensures Scan(p[i..], nstr) == Scan(p[i + 1..], nstr + [p[i]])
  {
    hide Lex;
    assert p[i..][1..] == p[i + 1..];
  }

  lemma ItemTurn(p: string, i: nat, nstr: string, vec: seq<Token>, error: bool, t: Token, n: nat)
    requires i < n <= |p| && p[i] == '%' && (i + 1 < |p| ==> p[i + 1] != '%')
    requires t.Item? && Lex(p[i + 1..]) == Closed(t.name, t.fmt, p[n..])
    ensures After(vec, error, Scan(p[i..], nstr)) == After(vec + Flush(nstr) + [t], error, Scan(p[n..], ""))
  {
    hide Lex;
    var r := Scan(p[n..], "");
    assert p[i..][1..] == p[i + 1..];
    assert vec + (Flush(nstr) + [t] + r.0) == vec + Flush(nstr) + [t] + r.0;
  }

  lemma ErrorTurn(p: string, i: nat, nstr: string, vec: seq<Token>, error: bool)
    requires i < |p| && p[i] == '%' && (i + 1 < |p| ==> p[i + 1] != '%') && Lex(p[i + 1..]).Unclosed?
    ensures After(vec, error, Scan(p[i..], nstr)) == After(vec + [PATTERN_ERROR], true, Scan(p[i + 1..], nstr))
  {
    hide Lex;
    var r := Scan(p[i + 1..], nstr);
    assert p[i..][1..] == p[i + 1..];
    assert vec + ([PATTERN_ERROR] + r.0) == vec + [PATTERN_ERROR] + r.0;
  }

  lemma LastTurn(p: string, nstr: string, vec: seq<Token>, error: bool)
    ensures After(vec, error, Scan(p[|p|..], nstr)) == (vec + Flush(nstr), error)
  {
    assert p[|p|..] == "";
  }

  method Init(pattern: string) returns (vec: seq<Token>, error: bool)
    ensures (vec, error) == Scan(pattern, "")
  {
    hide Lex, Scan, After;
    var nstr := "";
    vec, error := [], false;
    var i := 0;
    FirstTurn(pattern);
    while i < |pattern|
      invariant i <= |pattern|
      invariant Scan(pattern, "") == After(vec, error, Scan(pattern[i..], nstr))
    {
      if pattern[i] != '%' {
        TextTurn(pattern, i, nstr);
        nstr, i := nstr + [pattern[i]], i + 1;
        continue;
      }
      if i + 1 < |pattern| {
        if pattern[i + 1] == '%' {
          TextTurn(pattern, i, nstr);
          nstr, i := nstr + ['%'], i + 1;
          continue;
        }
      }
      var fmtStatus, str, fmt, n := ScanItem(pattern, i);
      if fmtStatus == 0 {
        ItemTurn(pattern, i, nstr, vec, error, Item(str, fmt), n);
        if nstr != "" {
          vec, nstr := vec + [Text(nstr)], "";
        } else {
          assert vec + [] == vec;
        }
        vec, i := vec + [Item(str, fmt)], n;
      } else {
        ErrorTurn(pattern, i, nstr, vec, error);
        error, vec, i := true, vec + [PATTERN_ERROR], i + 1;
      }
    }
    LastTurn(pattern, nstr, vec, error);
    if nstr != "" {
      vec := vec + [Text(nstr)];
    } else {
      assert vec + [] == vec;
    }
  }

  // ---- rendering -----------------------------------------------------------

  function Show(t: Token): string {
    match t
    case Text(s) => s
    case Item(name, fmt) => "%" + Named(name, fmt)
  }

  function Named(name: string, fmt: string): string {
    if fmt == "" then name else name + ("{" + (fmt + "}"))
  }

  function Render(toks: seq<Token>): string {
    if toks == [] then "" else Show(toks[0]) + Render(toks[1..])
  }

  /** Rendering as if a doubled percent sign stood for one. */
  function ShowEscaped(t: Token): string {
    match t
    case Text(s) => Doubled(s)
    case Item(_, _) => Show(t)
  }

  function Doubled(s: string): string {
    if s == "" then "" else (if s[0] == '%' then "%%" else [s[0]]) + Doubled(s[1..])
  }

  function RenderEscaped(toks: seq<Token>): string {
    if toks == [] then "" else ShowEscaped(toks[0]) + RenderEscaped(toks[1..])
  }

  predicate Bare(t: Token) {
    t.Item? && t.fmt == ""
  }

  /** Text is not empty and not next to text; names and formats have no
      character that ends them; what follows an item without a format neither
      goes on with its name nor opens a format, and a bare `%` is not followed
      by another. */
  predicate WellFormed(toks: seq<Token>) {
    && (forall i :: 0 <= i < |toks| ==>
          match toks[i]
          case Text(s) => s != ""
          case Item(name, fmt) => (forall c <- name :: NameChar(c)) && '}' !in fmt)
    && (forall i :: 0 <= i < |toks| - 1 ==> toks[i].Text? ==> toks[i + 1].Item?)
    && (forall i :: 0 <= i < |toks| - 1 && Bare(toks[i]) ==>
          match toks[i + 1]
          case Text(s) => !NameChar(s[0]) && s[0] != '{'
          case Item(_, _) => toks[i].name != "")
  }

  predicate Plain(toks: seq<Token>) {
    forall i :: 0 <= i < |toks| && toks[i].Text? ==> '%' !in toks[i].s
  }

  // ---- scanning what was rendered ------------------------------------------------

  lemma {:induction false} ScanText(s: string, rest: string, lit: string)
    requires '%' !in s
    ensures Scan(s + rest, lit) == Scan(rest, lit + s)
    decreases |s|
  {
    if s == "" {
      assert s + rest == rest && lit + s == lit;
    } else {
      assert (s + rest)[1..] == s[1..] + rest;
      ScanText(s[1..], rest, lit + [s[0]]);
      assert lit + [s[0]] + s[1..] == lit + s;
    }
  }

  lemma LexName(name: string, rest: string)
    requires forall c <- name :: NameChar(c)
    requires rest != "" ==> !NameChar(rest[0]) && rest[0] != '{'
    ensures Lex(name + rest) == Closed(name, "", rest)
  {
    hide NameChar, Lex;
    LexBare(name + rest, |name|);
    assert (name + rest)[..|name|] == name && (name + rest)[|name|..] == rest;
  }

  lemma LexFormat(name: string, fmt: string, rest: string)
    requires (forall c <- name :: NameChar(c)) && '}' !in fmt
    ensures Lex(name + ("{" + (fmt + ("}" + rest)))) == Closed(name, fmt, rest)
  {
    hide NameChar, Lex;
    var s := name + ("{" + (fmt + ("}" + rest)));
    var k := |name|;
    assert s[k..] == "{" + (fmt + ("}" + rest));
    assert s[k + 1..] == fmt + ("}" + rest);
    assert forall i :: 0 <= i < |fmt| ==> s[k + 1 + i] == fmt[i];
    assert s[k + 1 + |fmt|..] == "}" + rest;
    LexBrace(s, k, |fmt|);
    assert s[..k] == name && s[k + 1..k + 1 + |fmt|] == fmt && s[k + 2 + |fmt|..] == rest;
  }

  lemma LexNamed(name: string, fmt: string, rest: string)
    requires (forall c <- name :: NameChar(c)) && '}' !in fmt
    requires fmt == "" && rest != "" ==> !NameChar(rest[0]) && rest[0] != '{'
    ensures Lex(Named(name, fmt) + rest) == Closed(name, fmt, rest)
  {
    hide NameChar, Lex;
    if fmt == "" {
      LexName(name, rest);
    } else {
      LexFormat(name, fmt, rest);
      assert name + ("{" + (fmt + "}")) + rest == name + ("{" + (fmt + ("}" + rest)));
    }
  }

  lemma ScanPercent(x: string, lit: string)
    requires (x == "" || x[0] != '%') && Lex(x).Closed?
    ensures var r := Scan(Lex(x).rest, "");
            Scan("%" + x, lit) == (Flush(lit) + [Item(Lex(x).name, Lex(x).fmt)] + r.0, r.1)
  {
    hide Lex;
    assert ("%" + x)[1..] == x;
  }

  /** An item is scanned as itself, and the text before it ends there. */
  lemma ScanItemShown(t: Token, rest: string, lit: string)
    requires t.Item? && Apart(t, rest)
    ensures Scan(Show(t) + rest, lit) == (Flush(lit) + [t] + Scan(rest, "").0, Scan(rest, "").1)
  {
    hide Lex, Scan;
    var x := Named(t.name, t.fmt) + rest;
    assert Show(t) + rest == "%" + x;
    LexNamed(t.name, t.fmt, rest);
    assert t.name != "" ==> NameChar(t.name[0]) && t.name[0] != '%';
    assert x == "" || x[0] == if t.name != "" then t.name[0] else if t.fmt != "" then '{' else rest[0];
    ScanPercent(x, lit);
  }

  /** A name is made of the letters of the basic alphabet, capital or small, and
      closing braces, and ends at the first character that is none of these: such
      an item, with or without a format, is scanned as itself behind any text
      without a percent sign, whatever follows that does not go on with it. */
  lemma LettersNameItems(text: string, name: string, fmt: string, rest: string)
    requires '%' !in text && '}' !in fmt
    requires forall c <- name :: 'a' <= c <= 'z' || 'A' <= c <= 'Z' || c == '}'
    requires fmt == "" && rest != "" ==>
               var c := rest[0];
               c != '{' && c != '}' && !('a' <= c <= 'z') && !('A' <= c <= 'Z') && (name == "" ==> c != '%')
    ensures var format := if fmt == "" then "" else "{" + (fmt + "}");
            Scan(text + ("%" + (name + format) + rest), "")
            == ((if text == "" then [] else [Text(text)]) + [Item(name, fmt)] + Scan(rest, "").0, Scan(rest, "").1)
  {
    hide Scan, Lex;
    var t := Item(name, fmt);
    assert name + "" == name;
    ScanText(text, Show(t) + rest, "");
    assert "" + text == text;
    ScanItemShown(t, rest, text);
  }

  /** A brace that is never closed is an error: the error's text comes in place of
      the item, and the scan goes on behind its percent sign with the text that
      was before it. */
  lemma UnclosedIsError(text: string, name: string, fmt: string)
    requires '%' !in text && '}' !in fmt
    requires forall c <- name :: 'a' <= c <= 'z' || 'A' <= c <= 'Z' || c == '}'
    ensures var behind := name + ("{" + fmt);
            Scan(text + ("%" + behind), "") == ([Text("<<pattern_error>>")] + Scan(behind, text).0, true)
  {
    hide Scan, Lex;
    var behind := name + ("{" + fmt);
    assert forall i :: 0 <= i < |name| ==> behind[i] in name;
    assert forall i :: |name| < i < |behind| ==> behind[i] == fmt[i - |name| - 1];
    LexBrace(behind, |name|, |fmt|);
    ScanText(text, "%" + behind, "");
    assert "" + text == text;
    ScanUnclosed(behind, text);
  }

  lemma ScanUnclosed(x: string, lit: string)
    requires x != "" && x[0] != '%' && Lex(x).Unclosed?
    ensures Scan("%" + x, lit) == ([PATTERN_ERROR] + Scan(x, lit).0, true)
  {
    hide Lex;
    assert ("%" + x)[1..] == x;
  }

  lemma TailWellFormed(toks: seq<Token>)
    requires WellFormed(toks) && Plain(toks) && toks != []
    ensures WellFormed(toks[1..]) && Plain(toks[1..])
    ensures |toks| > 1 && toks[0].Text? ==> toks[1].Item?
  {
    var rest := toks[1..];
    assert forall i :: 0 <= i < |rest| ==> rest[i] == toks[i + 1];
  }

  /** A token that can be told from what comes behind it. */
  predicate Apart(t: Token, behind: string) {
    match t
    case Text(s) => '%' !in s
    case Item(name, fmt) =>
      && (forall c <- name :: NameChar(c)) && '}' !in fmt
      && (fmt == "" && behind != "" ==> !NameChar(behind[0]) && behind[0] != '{' && (name == "" ==> behind[0] != '%'))
  }

  lemma HeadApart(toks: seq<Token>)
    requires WellFormed(toks) && Plain(toks) && toks != []
    ensures Apart(toks[0], Render(toks[1..]))
  {
    hide Render;
    TailWellFormed(toks);
    if |toks| == 1 {
      assert toks[1..] == [];
      RenderNone();
    } else {
      RenderStart(toks[1..]);
      assert toks[1].Text? ==> toks[1].s[0] in toks[1].s;
    }
  }

  /** What is rendered behind a token. */
  lemma RenderStart(toks: seq<Token>)
    requires WellFormed(toks) && toks != []
    ensures Render(toks) != ""
    ensures Render(toks)[0] == if toks[0].Text? then toks[0].s[0] else '%'
  {
  }

  lemma {:induction false} ScanRender(toks: seq<Token>, lit: string)
    requires WellFormed(toks) && Plain(toks)
    requires toks != [] && toks[0].Text? ==> lit == ""
    ensures Scan(Render(toks), lit) == (Flush(lit) + toks, false)
    decreases |toks|
  {
    hide Lex, Scan, Show, WellFormed, Plain;
    if toks == [] {
      ScanNone(lit);
      assert Flush(lit) + [] == Flush(lit);
    } else {
      TailWellFormed(toks);
      HeadApart(toks);
      FirstText(toks);
      var t, rest := toks[0], toks[1..];
      ScanRender(rest, if t.Text? then t.s else "");
      assert toks == [t] + rest;
      ScanCons(t, rest, lit);
    }
  }

  lemma FirstText(toks: seq<Token>)
    requires WellFormed(toks) && toks != []
    ensures toks[0].Text? ==> toks[0].s != ""
  {
  }

  lemma ScanNone(lit: string)
    ensures Scan("", lit) == (Flush(lit), false)
  {
  }

  lemma RenderNone()
    ensures Render([]) == ""
  {
  }

  lemma ScanCons(t: Token, rest: seq<Token>, lit: string)
    requires Apart(t, Render(rest)) && (t.Text? ==> lit == "" && t.s != "")
    requires var before := if t.Text? then t.s else ""; Scan(Render(rest), before) == (Flush(before) + rest, false)
    ensures Scan(Show(t) + Render(rest), lit) == (Flush(lit) + ([t] + rest), false)
  {
    hide Lex, Scan, Render;
    if t.Text? {
      ScanText(t.s, Render(rest), "");
      assert "" + t.s == t.s && [] + ([t] + rest) == [t] + rest;
    } else {
      ScanItemShown(t, Render(rest), lit);
      assert [] + rest == rest && Flush(lit) + [t] + rest == Flush(lit) + ([t] + rest);
    }
  }

  // ---- rendering what was scanned --------------------------------------------------

  function Percents(s: string): nat {
    if s == "" then 0 else (if s[0] == '%' then 1 else 0) + Percents(s[1..])
  }

  lemma {:induction false} PercentsAppend(a: string, b: string)
    ensures Percents(a + b) == Percents(a) + Percents(b)
  {
    if a == "" {
      assert a + b == b;
    } else {
      PercentsAppend(a[1..], b);
      assert (a + b)[1..] == a[1..] + b;
    }
  }

  /** The scan meets an item with braces and nothing between them, which the
      token does not remember. */
  predicate Forgets(s: string)
    decreases |s|
  {
    if s == [] then false
    else if s[0] != '%' then Forgets(s[1..])
    else if |s| > 1 && s[1] == '%' then Forgets(s[1..])
    else
      match Lex(s[1..])
      case Unclosed => false
      case Closed(name, fmt, rest) => (fmt == "" && |rest| + |name| + 1 < |s|) || Forgets(rest)
  }

  /** What an item was scanned from, up to empty braces. */
  lemma LexParts(s: string)
    requires Lex(s).Closed?
    ensures var r := Lex(s);
            if r.fmt != "" then s == r.name + ("{" + (r.fmt + ("}" + r.rest)))
            else if |r.rest| + |r.name| == |s| then s == r.name + r.rest
            else s == r.name + ("{}" + r.rest)
  {
    hide NameLen, BraceAt, NameChar;
    var k := NameLen(s);
    if k < |s| && s[k] == '{' {
      BraceParts(s, k, BraceAt(s[k + 1..]));
    } else {
      assert s == s[..k] + s[k..];
    }
  }

  lemma BraceParts(s: string, k: nat, c: nat)
    requires k + 1 + c < |s| && s[k] == '{' && s[k + 1 + c] == '}'
    ensures s == s[..k] + ("{" + (s[k + 1..][..c] + ("}" + s[k + 2 + c..])))
    ensures c == 0 ==> s == s[..k] + ("{}" + s[k + 2 + c..])
  {
    var tail, rest := s[k + 1..], s[k + 2 + c..];
    assert tail == tail[..c] + ("}" + rest);
    assert s == s[..k] + ("{" + tail);
    assert c == 0 ==> "{" + tail == "{}" + rest;
  }

  lemma FormatJoins(name: string, fmt: string, rest: string)
    ensures "%" + (name + ("{" + (fmt + "}"))) + rest == "%" + (name + ("{" + (fmt + ("}" + rest))))
  {
  }

  lemma BracesForgotten(name: string, rest: string)
    ensures Percents("%" + name + rest) == Percents("%" + (name + ("{}" + rest)))
  {
    hide Percents;
    PercentsAppend("%" + name, "{}" + rest);
    PercentsAppend("%" + name, rest);
    PercentsAppend("{}", rest);
    NoPercents();
    assert "%" + name + ("{}" + rest) == "%" + (name + ("{}" + rest));
  }

  /** What is rendered of an item, against what it was scanned from. */
  lemma ShownParts(x: string)
    requires Lex(x).Closed?
    ensures var r := Lex(x);
            var shown := Show(Item(r.name, r.fmt));
            && Percents(shown + r.rest) == Percents("%" + x)
            && if r.fmt == "" && |r.rest| + |r.name| < |x| then |shown| + |r.rest| < |x| + 1
               else shown + r.rest == "%" + x
  {
    hide Lex, Percents;
    LexParts(x);
    var r := Lex(x);
    if r.fmt != "" {
      FormatJoins(r.name, r.fmt, r.rest);
    } else if |r.rest| + |r.name| == |x| {
      assert "%" + r.name + r.rest == "%" + (r.name + r.rest);
    } else {
      BracesForgotten(r.name, r.rest);
    }
  }

  lemma NoPercents()
    ensures Percents("{}") == 0
  {
    assert "{}"[1..] == "}" && "}"[1..] == "";
  }

  lemma RenderTwo(lit: string, t: Token, toks: seq<Token>)
    ensures Render(Flush(lit) + [t] + toks) == lit + (Show(t) + Render(toks))
  {
    if lit == "" {
      assert Flush(lit) + [t] + toks == [t] + toks;
      assert ([t] + toks)[1..] == toks;
    } else {
      var all := Flush(lit) + [t] + toks;
      assert all[1..] == [t] + toks && ([t] + toks)[1..] == toks;
    }
  }

  lemma RenderFlush(lit: string)
    ensures Render(Flush(lit)) == lit
  {
    if lit != "" {
      assert [Text(lit)][1..] == [];
    }
  }

  /** Scanning loses nothing: without an error, rendering the tokens gives the
      pattern back, exactly when no item has empty braces; no percent sign is
      ever lost. */
  lemma {:induction false} RenderScan(s: string, lit: string)
    requires !Scan(s, lit).1
    ensures var r := Render(Scan(s, lit).0);
            && (if Forgets(s) then |r| < |lit + s| else r == lit + s)
            && Percents(r) == Percents(lit + s)
    decreases |s|
  {
    hide Lex, Percents, Show;
    if s == "" {
      RenderFlush(lit);
      assert lit + s == lit;
    } else if s[0] != '%' || (|s| > 1 && s[1] == '%') {
      RenderScan(s[1..], lit + [s[0]]);
      assert lit + [s[0]] + s[1..] == lit + s;
    } else {
      var r := Lex(s[1..]);
      RenderScan(r.rest, "");
      assert "" + r.rest == r.rest;
      ItemBack(s, lit, Scan(r.rest, "").0);
    }
  }

  lemma ItemBack(s: string, lit: string, toks: seq<Token>)
    requires s != "" && s[0] == '%' && Lex(s[1..]).Closed?
    requires var rest := Lex(s[1..]).rest;
             && (if Forgets(rest) then |Render(toks)| < |rest| else Render(toks) == rest)
             && Percents(Render(toks)) == Percents(rest)
    requires |s| > 1 ==> s[1] != '%'
    ensures var r := Lex(s[1..]);
            var out := Render(Flush(lit) + [Item(r.name, r.fmt)] + toks);
            && (if Forgets(s) then |out| < |lit + s| else out == lit + s)
            && Percents(out) == Percents(lit + s)
  {
    hide Lex, Percents, Render;
    var r := Lex(s[1..]);
    var shown := Show(Item(r.name, r.fmt));
    RenderTwo(lit, Item(r.name, r.fmt), toks);
    ShownParts(s[1..]);
    assert "%" + s[1..] == s;
    PercentsAppend(lit, shown + Render(toks));
    PercentsAppend(shown, Render(toks));
    PercentsAppend(shown, r.rest);
    PercentsAppend(lit, s);
  }

  // ---- what can be scanned ----------------------------------------------------------

  lemma LexFacts(x: string)
    requires Lex(x).Closed?
    ensures var r := Lex(x);
            && (forall c <- r.name :: NameChar(c)) && '}' !in r.fmt
            && (r.fmt == "" && |r.rest| + |r.name| == |x| && r.rest != "" ==>
                  !NameChar(r.rest[0]) && r.rest[0] != '{' && (r.name == "" ==> r.rest[0] == x[0]))
  {
    hide NameLen, BraceAt, NameChar;
  }

  /** How tokens begin that were scanned from `s` behind the text `lit`. */
  predicate Begins(toks: seq<Token>, s: string, lit: string) {
    if lit != "" then toks != [] && toks[0].Text? && toks[0].s != "" && toks[0].s[0] == lit[0]
    else if s == "" then toks == []
    else
      && toks != []
      && (toks[0].Text? ==> toks[0].s != "" && toks[0].s[0] == s[0])
      && (toks[0].Item? ==> s[0] == '%')
  }

  lemma ConsWellFormed(lit: string, t: Token, toks: seq<Token>)
    requires WellFormed(toks) && t.Item? && (forall c <- t.name :: NameChar(c)) && '}' !in t.fmt
    requires Bare(t) && toks != [] && toks[0].Text? ==> !NameChar(toks[0].s[0]) && toks[0].s[0] != '{'
    requires Bare(t) && toks != [] && toks[0].Item? ==> t.name != ""
    ensures WellFormed(Flush(lit) + [t] + toks)
  {
    var n := |Flush(lit)| + 1;
    var all := Flush(lit) + [t] + toks;
    forall i | n <= i < |all| ensures all[i] == toks[i - n] {
    }
    assert all[n - 1] == t && (n == 2 ==> all[0] == Text(lit));
    assert toks != [] ==> all[n] == toks[0];
  }

  lemma ItemWellFormed(x: string, lit: string, toks: seq<Token>)
    requires Lex(x).Closed? && (x != "" ==> x[0] != '%')
    requires var r := Lex(x);
             WellFormed(toks) && Begins(toks, r.rest, "") && (r.fmt == "" ==> |r.rest| + |r.name| == |x|)
    ensures WellFormed(Flush(lit) + [Item(Lex(x).name, Lex(x).fmt)] + toks)
  {
    hide Lex, NameChar, WellFormed;
    LexFacts(x);
    ConsWellFormed(lit, Item(Lex(x).name, Lex(x).fmt), toks);
  }

  /** Without an error and empty braces, what is scanned is well-formed. */
  lemma {:induction false} ScanWellFormed(s: string, lit: string)
    requires !Scan(s, lit).1 && !Forgets(s)
    ensures WellFormed(Scan(s, lit).0) && Begins(Scan(s, lit).0, s, lit)
    decreases |s|
  {
    hide Lex, NameChar;
    if s == "" {
    } else if s[0] != '%' || (|s| > 1 && s[1] == '%') {
      ScanWellFormed(s[1..], lit + [s[0]]);
    } else {
      var r := Lex(s[1..]);
      ScanWellFormed(r.rest, "");
      ItemWellFormed(s[1..], lit, Scan(r.rest, "").0);
    }
  }

  // ---- a doubled percent sign ------------------------------------------------------

  function TextPercents(toks: seq<Token>): nat {
    if toks == [] then 0
    else (if toks[0].Text? then Percents(toks[0].s) else 0) + TextPercents(toks[1..])
  }

  lemma {:induction false} DoubledPercents(s: string)
    ensures Percents(Doubled(s)) == 2 * Percents(s)
    ensures '%' !in s ==> Doubled(s) == s && Percents(s) == 0
    ensures '%' in s ==> Percents(s) > 0
  {
    if s != "" {
      DoubledPercents(s[1..]);
      var d := if s[0] == '%' then "%%" else [s[0]];
      PercentsAppend(d, Doubled(s[1..]));
      assert Percents(d) == 2 * if s[0] == '%' then 1 else 0 by {
        assert d[1..] == (if s[0] == '%' then "%" else "") && "%"[1..] == "";
      }
      assert s == [s[0]] + s[1..];
    }
  }

  lemma {:induction false} EscapedPercents(toks: seq<Token>)
    ensures Percents(RenderEscaped(toks)) == Percents(Render(toks)) + TextPercents(toks)
    ensures Plain(toks) ==> RenderEscaped(toks) == Render(toks)
    ensures !Plain(toks) ==> TextPercents(toks) > 0
  {
    if toks != [] {
      var t, rest := toks[0], toks[1..];
      EscapedPercents(rest);
      PercentsAppend(Show(t), Render(rest));
      PercentsAppend(ShowEscaped(t), RenderEscaped(rest));
      if t.Text? {
        DoubledPercents(t.s);
      }
      assert Plain(toks) <==> (t.Text? ==> '%' !in t.s) && Plain(rest) by {
        PlainCons(toks);
      }
    }
  }

  lemma PlainCons(toks: seq<Token>)
    requires toks != []
    ensures Plain(toks) <==> (toks[0].Text? ==> '%' !in toks[0].s) && Plain(toks[1..])
  {
    assert forall i :: 0 < i < |toks| ==> toks[i] == toks[1..][i - 1];
  }

  /** Pattern parsing inverts rendering. Were a doubled percent sign one in the
      text, any text would do; as it is, a list of tokens comes back exactly when
      it is well-formed and no text has a percent sign. */
  lemma ScanInvertsRender(toks: seq<Token>)
    ensures Scan(RenderEscaped(toks), "") == (toks, false) <==> WellFormed(toks) && Plain(toks)
  {
    hide Scan, Render, RenderEscaped, Plain, TextPercents, WellFormed, Forgets, Begins;
    var s := RenderEscaped(toks);
    EscapedPercents(toks);
    assert "" + s == s;
    if WellFormed(toks) && Plain(toks) {
      ScanRender(toks, "");
      assert Flush("") + toks == toks;
    } else if Scan(s, "") == (toks, false) {
      RenderScan(s, "");
      ScanWellFormed(s, "");
    }
  }

  /** A pattern for a percent sign after a number is read as one and a nameless
      item. */
  lemma PercentIsNoEscape()
    ensures Scan("5%%", "") == ([Text("5%"), Item("", "")], false)
  {
    assert "5%%"[1..] == "%%" && "%%"[1..] == "%" && "%"[1..] == "";
    assert "" + ['5'] == "5" && "5" + ['%'] == "5%";
    assert Lex("") == Closed("", "", "");
    ScanPercent("", "5%");
    assert "%" + "" == "%" && Flush("5%") + [Item("", "")] + [] == [Text("5%"), Item("", "")];
    assert Scan("%%", "5") == Scan("%", "5%");
    assert Scan("5%%", "") == Scan("%%", "5");
  }
}
