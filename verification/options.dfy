/**
 * Option values of a wrapped sub-strategy and the parameter strings that set them.
 *
 * settings.js gives each sub-strategy a list of strings of the form
 * `identifier = literal`; strategy.js applies each one to the wrapper's option
 * record, in list order.  This module parses such a string into a `Param`,
 * renders it back, evaluates its literal, and overlays a list of parameters
 * on an option map (`copyLocalOptions`).
 */
module Options {
  import opened Results

  /** An option value: a JavaScript number or string. */
  datatype Value = Num(x: real) | Str(s: string)

  /** The literal on the right of `=`, kept as its source text. */
  datatype Literal =
    | NumLit(text: string)  // a decimal literal such as `16` or `0.015`
    | StrLit(text: string)  // the characters between the double quotes

  /** One parsed parameter string. */
  datatype Param = Param(name: string, lit: Literal)

  /** Why a parameter string was refused. */
  datatype ConfigError =
    | MissingEquals(text: string)
    | BadName(text: string)
    | BadLiteral(text: string)

  predicate IsDigit(c: char) { '0' <= c <= '9' }

  predicate IsNameStart(c: char) { 'a' <= c <= 'z' || 'A' <= c <= 'Z' || c == '_' || c == '$' }

  predicate IsNameChar(c: char) { IsNameStart(c) || IsDigit(c) }

  /** A JavaScript identifier made of ASCII letters, digits, `_` and `$`. */
  predicate IsName(s: string) {
    |s| > 0 && IsNameStart(s[0]) && forall i :: 0 < i < |s| ==> IsNameChar(s[i])
  }

  /** A non-empty run of decimal digits. */
  predicate IsDigits(s: string) {
    |s| > 0 && forall i :: 0 <= i < |s| ==> IsDigit(s[i])
  }

  /** A whole part without a leading zero (a leading zero would make it a legacy octal literal). */
  predicate IsWhole(s: string) {
    IsDigits(s) && (s[0] == '0' ==> |s| == 1)
  }

  /**
   * The body of a double-quoted string literal without escapes; a line
   * break would leave the literal unterminated.
   */
  predicate IsPlainText(s: string) {
    forall i :: 0 <= i < |s| ==> s[i] != '"' && s[i] != '\\' && s[i] != '\n' && s[i] != '\r'
  }

  /** The position of the first `c` in `s`, if any. */
  function IndexOf(s: string, c: char): (r: Option<nat>)
    ensures r.Some? ==> r.value < |s| && s[r.value] == c
    ensures r.Some? ==> forall j :: 0 <= j < r.value ==> s[j] != c
    ensures r.None? ==> forall j :: 0 <= j < |s| ==> s[j] != c
  {
    if s == [] then None
    else if s[0] == c then Some(0)
    else match IndexOf(s[1..], c)
      case None => None
      case Some(k) => Some(k + 1)
  }

  /** A decimal literal: a whole part, optionally followed by `.` and a fraction. */
  predicate IsNumber(t: string) {
    match IndexOf(t, '.')
    case None => IsWhole(t)
    case Some(k) => IsWhole(t[..k]) && IsDigits(t[k + 1..])
  }

  function TrimLeft(s: string): (r: string)
    ensures r == [] || r[0] != ' '
  {
    if |s| > 0 && s[0] == ' ' then TrimLeft(s[1..]) else s
  }

  function TrimRight(s: string): (r: string)
    ensures r == [] || r[|r| - 1] != ' '
  {
    if |s| > 0 && s[|s| - 1] == ' ' then TrimRight(s[..|s| - 1]) else s
  }

  function Trim(s: string): string {
    TrimRight(TrimLeft(s))
  }

  predicate WellFormedLiteral(l: Literal) {
    match l
    case NumLit(t) => IsNumber(t)
    case StrLit(t) => IsPlainText(t)
  }

  predicate WellFormed(p: Param) {
    IsName(p.name) && WellFormedLiteral(p.lit)
  }

  function LiteralText(l: Literal): string {
    match l
    case NumLit(t) => t
    case StrLit(t) => "\"" + t + "\""
  }

  /** The parameter string in the form settings.js writes it: `name = literal`. */
  function Render(p: Param): string {
    p.name + " = " + LiteralText(p.lit)
  }

  function ParseLiteral(t: string): Result<Literal, ConfigError> {
    if IsNumber(t) then Ok(NumLit(t))
    else if |t| >= 2 && t[0] == '"' && t[|t| - 1] == '"' && IsPlainText(t[1..|t| - 1]) then
      Ok(StrLit(t[1..|t| - 1]))
    else Err(BadLiteral(t))
  }

  /**
   * Parses one parameter string: the text before the first `=` is the name,
   * the text after it the literal, each with surrounding spaces removed.
   */
  function ParseParam(s: string): (r: Result<Param, ConfigError>)
    ensures '=' !in s ==> r == Err(MissingEquals(s))
    ensures r.Ok? ==> IsName(r.value.name) && '=' in s
  {
    match IndexOf(s, '=')
    case None => Err(MissingEquals(s))
    case Some(i) =>
      var name := Trim(s[..i]);
      if !IsName(name) then Err(BadName(s))
      else match ParseLiteral(Trim(s[i + 1..]))
        case Err(e) => Err(e)
        case Ok(l) => Ok(Param(name, l))
  }

  /** Everything the parser accepts is well formed. */
  lemma ParseWellFormed(s: string)
    ensures ParseParam(s).Ok? ==> WellFormed(ParseParam(s).value)
  {
  }

  lemma TrimSpaced(x: string)
    requires |x| > 0 && x[0] != ' ' && x[|x| - 1] != ' '
    ensures Trim(x + " ") == x && Trim(" " + x) == x
  {
    assert (x + " ")[0] == x[0];
    assert TrimLeft(x + " ") == x + " ";
    assert (x + " ")[..|x + " "| - 1] == x;
    assert TrimRight(x + " ") == TrimRight(x) == x;
    assert (" " + x)[1..] == x;
    assert TrimLeft(" " + x) == TrimLeft(x) == x;
  }

  lemma NumberHasNoQuote(t: string)
    requires |t| > 0 && t[0] == '"'
    ensures !IsNumber(t)
  {
    match IndexOf(t, '.')
    case None =>
    case Some(k) =>
      if k > 0 { assert t[..k][0] == '"'; }
  }

  /** In `name = rest`, the first `=` is the one after the name. */
  lemma FirstEquals(name: string, rest: string)
    requires IsName(name)
    ensures IndexOf(name + " = " + rest, '=') == Some(|name| + 1)
  {
    var s := name + " = " + rest;
    var n := |name|;
    assert s[n + 1] == '=';
    assert forall j :: 0 <= j < n ==> s[j] == name[j];
    var r := IndexOf(s, '=');
    if r.Some? && r.value < n + 1 {
      assert false;
    }
  }

  /** A name neither starts nor ends with a space. */
  lemma NameEdges(name: string)
    requires IsName(name)
    ensures name[0] != ' ' && name[|name| - 1] != ' '
  {
    if |name| > 1 {
      assert IsNameChar(name[|name| - 1]);
    }
  }

  /** The text of a well-formed literal is non-empty and neither starts nor ends with a space. */
  lemma LiteralEdges(l: Literal)
    requires WellFormedLiteral(l)
    ensures var text := LiteralText(l);
      |text| > 0 && text[0] != ' ' && text[|text| - 1] != ' '
  {
    match l
    case NumLit(t) =>
      match IndexOf(t, '.') {
        case None =>
          assert IsDigit(t[|t| - 1]);
        case Some(k) =>
          var frac := t[k + 1..];
          assert IsDigit(frac[|frac| - 1]) && frac[|frac| - 1] == t[|t| - 1];
          assert IsDigit(t[..k][0]);
      }
    case StrLit(t) =>
  }

  /** The text of a well-formed literal parses back to the literal. */
  lemma ParseLiteralText(l: Literal)
    requires WellFormedLiteral(l)
    ensures ParseLiteral(LiteralText(l)) == Ok(l)
  {
    match l
    case NumLit(t) =>
    case StrLit(t) =>
      var text := LiteralText(l);
      NumberHasNoQuote(text);
      assert text[1..|text| - 1] == t;
  }

  /** Rendering a well-formed parameter and parsing it back gives the parameter. */
  lemma {:induction false} ParseRender(p: Param)
    requires WellFormed(p)
    ensures ParseParam(Render(p)) == Ok(p)
  {
    var s := Render(p);
    var n := |p.name|;
    var text := LiteralText(p.lit);
    FirstEquals(p.name, text);
    assert s[..n + 1] == p.name + " ";
    assert s[n + 2..] == " " + text;
    NameEdges(p.name);
    TrimSpaced(p.name);
    LiteralEdges(p.lit);
    TrimSpaced(text);
    ParseLiteralText(p.lit);
  }

  /** The value of a digit string (JavaScript's decimal reading). */
  function DigitsValue(d: string): int {
    if d == [] then 0
    else DigitsValue(d[..|d| - 1]) * 10 + (d[|d| - 1] as int - '0' as int)
  }

  function Pow10(n: nat): (r: nat)
    ensures r >= 1
  {
    if n == 0 then 1 else 10 * Pow10(n - 1)
  }

  /** The JavaScript value a literal evaluates to. */
  function Eval(l: Literal): Value {
    match l
    case StrLit(t) => Str(t)
    case NumLit(t) =>
      match IndexOf(t, '.')
      case None => Num(DigitsValue(t) as real)
      case Some(k) =>
        Num(DigitsValue(t[..k]) as real + DigitsValue(t[k + 1..]) as real / Pow10(|t| - k - 1) as real)
  }

  /**
   * `copyLocalOptions`: assigns each parameter to the option map in list order,
   * so a later parameter of the same name overwrites an earlier one.
   */
  function Overlay(m: map<string, Value>, ps: seq<Param>): (r: map<string, Value>)
    ensures m.Keys <= r.Keys
    decreases ps
  {
    if ps == [] then m else Overlay(m[ps[0].name := Eval(ps[0].lit)], ps[1..])
  }

  /** The value of the last parameter named `k`, if there is one. */
  function LastValue(ps: seq<Param>, k: string): Option<Value> {
    if ps == [] then None
    else
      var later := LastValue(ps[1..], k);
      if later.Some? then later
      else if ps[0].name == k then Some(Eval(ps[0].lit))
      else None
  }

  /**
   * After the overlay, a parameter name maps to the value of its last
   * occurrence, and every other key keeps the value it had.
   */
  lemma {:induction false} OverlayLookup(m: map<string, Value>, ps: seq<Param>, k: string)
    ensures k in Overlay(m, ps) <==> k in m || LastValue(ps, k).Some?
    ensures LastValue(ps, k).Some? ==> Overlay(m, ps)[k] == LastValue(ps, k).value
    ensures LastValue(ps, k).None? && k in m ==> Overlay(m, ps)[k] == m[k]
    decreases ps
  {
    if ps != [] {
      OverlayLookup(m[ps[0].name := Eval(ps[0].lit)], ps[1..], k);
    }
  }

  /** Applying two parameter lists one after the other is applying their concatenation. */
  lemma {:induction false} OverlayAppend(m: map<string, Value>, a: seq<Param>, b: seq<Param>)
    ensures Overlay(m, a + b) == Overlay(Overlay(m, a), b)
    decreases a
  {
    if a == [] {
      assert a + b == b;
    } else {
      assert (a + b)[1..] == a[1..] + b;
      OverlayAppend(m[a[0].name := Eval(a[0].lit)], a[1..], b);
    }
  }
}
