/**
 * The slice of JavaScript semantics the application code leans on: JSON values
 * as produced by `JSON.parse`, property access with its TypeError on
 * null/undefined, truthiness (`||`), `String(v)`, `String.prototype.trim`,
 * `Number.prototype.toString` on integers and `parseInt`.
 */
module Js {
  import opened Wrappers

  /** A JSON value. JSON numbers are modelled as integers (no fractional part). */
  datatype Json =
    | JNull
    | JBool(b: bool)
    | JNum(n: int)
    | JStr(s: string)
    | JArr(items: seq<Json>)
    | JObj(fields: map<string, Json>)

  /** A JavaScript value reached by property access: `undefined` or a JSON value. */
  datatype Val = Undefined | Defined(json: Json)

  /** The outcome of a property access: a value, or a thrown TypeError with its message. */
  datatype Access = Got(v: Val) | Threw(message: string)

  /** An element of a `Uint8Array`. */
  newtype byte = x: int | 0 <= x < 256

  /** `null` or `undefined`, the two values whose property access throws. */
  predicate Nullish(v: Val) {
    v.Undefined? || v == Defined(JNull)
  }

  /** JavaScript truthiness, as used by `||`, `?:` and `if`. */
  predicate Truthy(v: Val) {
    match v
    case Undefined => false
    case Defined(j) =>
      match j
      case JNull => false
      case JBool(b) => b
      case JNum(n) => n != 0
      case JStr(s) => s != ""
      case JArr(_) => true
      case JObj(_) => true
  }

  /** The TypeError message a V8 engine gives for reading `key` of null or undefined. */
  function ReadError(v: Val, key: string): string
    requires Nullish(v)
  {
    "Cannot read properties of " + (if v.Undefined? then "undefined" else "null") + " (reading '" + key + "')"
  }

  /**
   * `v[key]` for a key that is neither an index nor a built-in property name
   * (every key the application reads is of this kind).
   */
  function Prop(v: Val, key: string): (a: Access)
    ensures a.Threw? <==> Nullish(v)
    ensures a.Got? && a.v.Defined? ==>
              v.Defined? && v.json.JObj? && key in v.json.fields && a.v.json == v.json.fields[key]
  {
    if Nullish(v) then Threw(ReadError(v, key))
    else match v.json
      case JObj(fields) => if key in fields then Got(Defined(fields[key])) else Got(Undefined)
      case _ => Got(Undefined)
  }

  /**
   * The value found by following `keys` through nested JSON objects, if every
   * step lands on an object that has the key: the schema view of a response.
   */
  function Path(j: Json, keys: seq<string>): Option<Json> {
    if |keys| == 0 then Some(j)
    else if j.JObj? && keys[0] in j.fields then Path(j.fields[keys[0]], keys[1..])
    else None
  }

  /** `v?.key`: a nullish holder yields undefined instead of throwing. */
  function OptProp(v: Val, key: string): (a: Access)
    ensures a.Got?
    ensures Nullish(v) ==> a == Got(Undefined)
  {
    if Nullish(v) then Got(Undefined) else Prop(v, key)
  }

  /** `v[0]`: the first array element, the first character of a string, or the field "0". */
  function Index0(v: Val): (a: Access)
    ensures a.Threw? <==> Nullish(v)
    ensures v.Defined? && v.json.JArr? && |v.json.items| > 0 ==> a == Got(Defined(v.json.items[0]))
  {
    if Nullish(v) then Threw(ReadError(v, "0"))
    else match v.json
      case JArr(items) => Got(if |items| > 0 then Defined(items[0]) else Undefined)
      case JStr(s) => Got(if |s| > 0 then Defined(JStr([s[0]])) else Undefined)
      case JObj(fields) => Got(if "0" in fields then Defined(fields["0"]) else Undefined)
      case _ => Got(Undefined)
  }

  /** The strings joined with `sep` between neighbours (`Array.prototype.join`). */
  function Join(parts: seq<string>, sep: string): string {
    if |parts| == 0 then ""
    else if |parts| == 1 then parts[0]
    else parts[0] + sep + Join(parts[1..], sep)
  }

  /** `String(v)`: the conversion a template literal or `new Error(v)` applies. */
  function ToStr(v: Val): string {
    match v
    case Undefined => "undefined"
    case Defined(j) => JsonToStr(j)
  }

  function JsonToStr(j: Json): string
    decreases j
  {
    match j
    case JNull => "null"
    case JBool(b) => if b then "true" else "false"
    case JNum(n) => DecimalString(n)
    case JStr(s) => s
    case JObj(_) => "[object Object]"
    case JArr(items) =>
      // `Array.prototype.join` renders null elements as the empty string
      Join(seq(|items|, i requires 0 <= i < |items| =>
                 var e := items[i]; if e == JNull then "" else JsonToStr(e)), ",")
  }

  predicate IsDigitChar(c: char) {
    '0' <= c <= '9'
  }

  /** The decimal digits of `n`, most significant first, without leading zeros. */
  function NatDigits(n: nat): (r: string)
    ensures |r| > 0
    ensures forall i :: 0 <= i < |r| ==> IsDigitChar(r[i])
    ensures r[0] == '0' ==> n == 0 && |r| == 1
    decreases n
  {
    if n < 10 then ['0' + n as char]
    else NatDigits(n / 10) + ['0' + (n % 10) as char]
  }

  /** `n.toString()` for an integer `n`. */
  function DecimalString(n: int): (r: string)
    ensures |r| > 0
  {
    if n < 0 then "-" + NatDigits(-n) else NatDigits(n)
  }

  /** The characters `String.prototype.trim` removes: WhiteSpace and LineTerminator. */
  predicate IsWhitespace(c: char) {
    || c == '\t' || c == '\n' || c == '\U{000B}' || c == '\U{000C}' || c == '\r' || c == ' '
    || c == '\U{00A0}' || c == '\U{1680}' || ('\U{2000}' <= c <= '\U{200A}')
    || c == '\U{2028}' || c == '\U{2029}' || c == '\U{202F}' || c == '\U{205F}'
    || c == '\U{3000}' || c == '\U{FEFF}'
  }

  /** `s.trimStart()`: the suffix left once the leading whitespace is removed. */
  function TrimStart(s: string): (r: string)
    ensures |r| <= |s| && r == s[|s| - |r|..]
    ensures forall i :: 0 <= i < |s| - |r| ==> IsWhitespace(s[i])
    ensures r == [] || !IsWhitespace(r[0])
  {
    if |s| > 0 && IsWhitespace(s[0]) then TrimStart(s[1..]) else s
  }

  /** `s.trimEnd()`: the prefix left once the trailing whitespace is removed. */
  function TrimEnd(s: string): (r: string)
    ensures |r| <= |s| && r == s[..|r|]
    ensures forall i :: |r| <= i < |s| ==> IsWhitespace(s[i])
    ensures r == [] || !IsWhitespace(r[|r| - 1])
  {
    if |s| > 0 && IsWhitespace(s[|s| - 1]) then TrimEnd(s[..|s| - 1]) else s
  }

  /** `s.trim()`: the longest infix of `s` that neither starts nor ends with whitespace. */
  function Trim(s: string): (r: string)
    ensures r == [] <==> Blank(s)
    ensures r == [] || (!IsWhitespace(r[0]) && !IsWhitespace(r[|r| - 1]))
    ensures |r| <= |s|
    ensures exists i, j :: 0 <= i <= j <= |s| && r == s[i..j] && Blank(s[..i]) && Blank(s[j..])
  {
    var t := TrimStart(s);
    var r := TrimEnd(t);
    TrimStartBlank(s);
    TrimEndBlank(t);
    BlankEnds(s, t, r);
    r
  }

  /**
   * A blank prefix cut from `s` leaves `t`, which does not start blank, and a
   * blank suffix cut from `t` leaves `r`, which does not end blank: then `r`
   * is the infix of `s` between two blank ends, empty exactly when `s` is blank.
   */
  lemma BlankEnds(s: string, t: string, r: string)
    requires |t| <= |s| && t == s[|s| - |t|..] && Blank(s[..|s| - |t|])
    requires t == [] || !IsWhitespace(t[0])
    requires |r| <= |t| && r == t[..|r|] && Blank(t[|r|..])
    requires r == [] || !IsWhitespace(r[|r| - 1])
    ensures var i, j := |s| - |t|, |s| - |t| + |r|;
            && 0 <= i <= j <= |s| && r == s[i..j] && Blank(s[..i]) && Blank(s[j..])
    ensures r == [] <==> Blank(s)
    ensures r == [] || !IsWhitespace(r[0])
  {
    var i := |s| - |t|;
    var j := i + |r|;
    assert r == s[i..j];
    assert s[j..] == t[|r|..];
    if r == [] {
      // `t` is blank yet does not start blank, so nothing is left after the prefix
      assert t[|r|..] == t;
      assert |t| == 0;
      forall k | 0 <= k < |s|
        ensures IsWhitespace(s[k])
      {
        assert s[k] == s[..i][k];
      }
    } else {
      assert r[0] == t[0] == s[i];
    }
  }

  /** What `trimStart` removes is blank. */
  lemma TrimStartBlank(s: string)
    ensures Blank(s[..|s| - |TrimStart(s)|])
  {
    var i := |s| - |TrimStart(s)|;
    forall k | 0 <= k < i
      ensures IsWhitespace(s[..i][k])
    {
      assert s[..i][k] == s[k];
    }
  }

  /** What `trimEnd` removes is blank. */
  lemma TrimEndBlank(t: string)
    ensures Blank(t[|TrimEnd(t)|..])
  {
    var n := |TrimEnd(t)|;
    forall k | 0 <= k < |t| - n
      ensures IsWhitespace(t[n..][k])
    {
      assert t[n..][k] == t[n + k];
    }
  }

  /** Every character of `s` is whitespace. */
  predicate Blank(s: string) {
    forall k :: 0 <= k < |s| ==> IsWhitespace(s[k])
  }

  /** The value of a digit character in bases up to 36, or -1 for any other character. */
  function DigitValue(c: char): int {
    if '0' <= c <= '9' then c as int - '0' as int
    else if 'a' <= c <= 'z' then c as int - 'a' as int + 10
    else if 'A' <= c <= 'Z' then c as int - 'A' as int + 10
    else -1
  }

  /** The length of the longest prefix of `s` made of digits of the given radix. */
  function LeadingDigits(s: string, radix: nat): (n: nat)
    ensures n <= |s|
    ensures forall i :: 0 <= i < n ==> 0 <= DigitValue(s[i]) < radix
    ensures n < |s| ==> !(0 <= DigitValue(s[n]) < radix)
  {
    if |s| > 0 && 0 <= DigitValue(s[0]) < radix then 1 + LeadingDigits(s[1..], radix) else 0
  }

  /** The number a run of radix digits denotes, most significant first. */
  function DigitsValue(s: string, radix: nat): nat
    requires forall i :: 0 <= i < |s| ==> 0 <= DigitValue(s[i]) < radix
  {
    if |s| == 0 then 0
    else
      var init := s[..|s| - 1];
      assert forall i :: 0 <= i < |init| ==> init[i] == s[i];
      var high: nat := DigitsValue(init, radix);
      var low: nat := DigitValue(s[|s| - 1]);
      assert high * radix >= 0 by { NatProduct(high, radix); }
      high * radix + low
  }

  lemma NatProduct(a: nat, b: nat)
    ensures a * b >= 0
  {
    if b > 0 {
      NatProduct(a, b - 1);
      assert a * b == a * (b - 1) + a;
    }
  }

  /**
   * `parseInt(s)` with no radix argument: leading whitespace, an optional
   * sign, an optional `0x` prefix selecting base 16, then the longest run of
   * digits; `None` stands for NaN (no digit at all).
   */
  function ParseInt(s: string): Option<int> {
    ParseSigned(TrimStart(s))
  }

  /** `parseInt` once leading whitespace is gone: the sign, then the magnitude. */
  function ParseSigned(t: string): Option<int> {
    var negative := |t| > 0 && t[0] == '-';
    var u := if |t| > 0 && (t[0] == '-' || t[0] == '+') then t[1..] else t;
    match ParseMagnitude(u)
    case None => None
    case Some(v) =>
      var r: int := if negative then -(v as int) else v;
      Some(r)
  }

  /** `parseInt` once the sign is gone: the radix prefix, then the longest run of digits. */
  function ParseMagnitude(u: string): Option<nat> {
    var hex := |u| >= 2 && u[0] == '0' && (u[1] == 'x' || u[1] == 'X');
    var radix := if hex then 16 else 10;
    var w := if hex then u[2..] else u;
    var n := LeadingDigits(w, radix);
    if n == 0 then None else Some(DigitsValue(w[..n], radix))
  }

  lemma {:induction false} NatDigitsValue(n: nat)
    ensures LeadingDigits(NatDigits(n), 10) == |NatDigits(n)|
    ensures DigitsValue(NatDigits(n), 10) == n
    decreases n
  {
    var r := NatDigits(n);
    if n >= 10 {
      NatDigitsValue(n / 10);
      var p := NatDigits(n / 10);
      assert r[..|r| - 1] == p;
    }
    LeadingDigitsAll(r, 10);
  }

  lemma {:induction false} LeadingDigitsAll(s: string, radix: nat)
    requires forall i :: 0 <= i < |s| ==> 0 <= DigitValue(s[i]) < radix
    ensures LeadingDigits(s, radix) == |s|
    decreases |s|
  {
    if |s| > 0 {
      LeadingDigitsAll(s[1..], radix);
    }
  }

  lemma MagnitudeOfDigits(m: nat)
    ensures ParseMagnitude(NatDigits(m)) == Some(m)
  {
    var d := NatDigits(m);
    NatDigitsValue(m);
    assert !(|d| >= 2 && d[0] == '0');
    assert d[..|d|] == d;
  }

  lemma TrimStartKeeps(s: string)
    requires |s| > 0 && !IsWhitespace(s[0])
    ensures TrimStart(s) == s
  {
  }

  /** A digit or a minus sign is not whitespace. */
  lemma SignOrDigitNotBlank(c: char)
    requires c == '-' || IsDigitChar(c)
    ensures !IsWhitespace(c)
  {
  }

  /** Without leading whitespace, `parseInt` starts reading at the sign. */
  lemma ParseIntUnpadded(t: string)
    requires |t| > 0 && (t[0] == '-' || IsDigitChar(t[0]))
    ensures ParseInt(t) == ParseSigned(t)
  {
    SignOrDigitNotBlank(t[0]);
    TrimStartKeeps(t);
    assert TrimStart(t) == t;
  }

  /** A run of digits reads as its magnitude. */
  lemma ParseSignedDigits(d: string, m: nat)
    requires |d| > 0 && IsDigitChar(d[0]) && ParseMagnitude(d) == Some(m)
    ensures ParseSigned(d) == Some(m)
  {
  }

  /** A minus sign before a magnitude negates it. */
  lemma ParseSignedMinus(t: string, m: nat)
    requires |t| > 0 && t[0] == '-' && ParseMagnitude(t[1..]) == Some(m)
    ensures ParseSigned(t) == Some(-(m as int))
  {
  }

  /** `parseInt` of a minus sign before a magnitude is its negation. */
  lemma ParseIntMinus(t: string, m: nat)
    requires |t| > 0 && t[0] == '-' && ParseMagnitude(t[1..]) == Some(m)
    ensures ParseInt(t) == Some(-(m as int))
  {
    ParseSignedMinus(t, m);
    ParseIntUnpadded(t);
  }

  /** `parseInt` reads back every integer's decimal rendering: `parseInt(String(n)) == n`. */
  lemma ParseIntDecimal(n: int)
    ensures ParseInt(DecimalString(n)) == Some(n)
  {
    if n < 0 {
      ParseIntNegative(n);
    } else {
      ParseIntNatural(n);
    }
  }

  lemma ParseIntNatural(n: nat)
    ensures ParseInt(DecimalString(n)) == Some(n)
  {
    var d := NatDigits(n);
    assert DecimalString(n) == d;
    MagnitudeOfDigits(n);
    ParseSignedDigits(d, n);
    ParseIntUnpadded(d);
  }

  lemma ParseIntNegative(n: int)
    requires n < 0
    ensures ParseInt(DecimalString(n)) == Some(n)
  {
    var t := "-" + NatDigits(-n);
    assert DecimalString(n) == t;
    ParseIntMinusDigits(n, t);
  }

  lemma ParseIntMinusDigits(n: int, t: string)
    requires n < 0 && t == "-" + NatDigits(-n)
    ensures ParseInt(t) == Some(n)
  {
    assert t[0] == '-' && t[1..] == NatDigits(-n);
    MagnitudeOfDigits(-n);
    ParseIntMinus(t, -n);
  }

  // ------------------------------------------------------------ slicing

  /** `s.slice(0, n)`: the first `n` elements, or all of them when there are fewer. */
  function Take<T>(s: seq<T>, n: nat): (r: seq<T>)
    ensures |r| == if |s| <= n then |s| else n
    ensures r == s[..|r|]
  {
    if |s| <= n then s else s[..n]
  }

  /** Whether `pat` occurs in `s` starting at `i`. */
  predicate OccursAt(s: string, pat: string, i: int) {
    0 <= i && i + |pat| <= |s| && s[i..i + |pat|] == pat
  }

  /** `s.indexOf(pat)`: the first position where `pat` occurs, if any. */
  function IndexOf(s: string, pat: string): (r: Option<nat>)
    ensures r.Some? ==> OccursAt(s, pat, r.value) && forall j :: 0 <= j < r.value ==> !OccursAt(s, pat, j)
    ensures r.None? ==> forall j :: 0 <= j ==> !OccursAt(s, pat, j)
  {
    if |s| < |pat| then None
    else if s[..|pat|] == pat then Some(0)
    else
      match IndexOf(s[1..], pat)
      case None =>
        forall j | 1 <= j ensures OccursAt(s, pat, j) <==> OccursAt(s[1..], pat, j - 1) {
          OccursShift(s, pat, j);
        }
        None
      case Some(i) =>
        forall j | 1 <= j ensures OccursAt(s, pat, j) <==> OccursAt(s[1..], pat, j - 1) {
          OccursShift(s, pat, j);
        }
        Some(i + 1)
  }

  lemma OccursShift(s: string, pat: string, j: int)
    requires 1 <= |s| && 1 <= j
    ensures OccursAt(s, pat, j) <==> OccursAt(s[1..], pat, j - 1)
  {
    if j + |pat| <= |s| {
      assert forall k | j <= k < j + |pat| :: s[k] == s[1..][k - 1];
      assert s[j..j + |pat|] == s[1..][j - 1..j - 1 + |pat|];
    }
  }

  /** `s.replace(pat, rep)` with a string pattern: only the first occurrence is replaced. */
  function ReplaceFirst(s: string, pat: string, rep: string): (r: string)
    ensures IndexOf(s, pat).None? ==> r == s
  {
    match IndexOf(s, pat)
    case None => s
    case Some(i) => s[..i] + rep + s[i + |pat|..]
  }

  /** Removing a prefix the string starts with leaves the rest of the string. */
  lemma ReplaceLeadingPrefix(pat: string, rest: string)
    ensures ReplaceFirst(pat + rest, pat, "") == rest
  {
    assert (pat + rest)[..|pat|] == pat;
    assert (pat + rest)[|pat|..] == rest;
  }
}
