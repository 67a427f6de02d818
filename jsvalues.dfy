/**
 * The part of JavaScript's value semantics that the query-shaping helpers
 * rely on: the values a request query can hold, truthiness, conversion to
 * string (ToString) and the global parseInt.
 */
module JsValues {
  import opened Wrappers

  /** A JavaScript value. Numbers are the integer-valued ones; objects are
      string-keyed property maps. */
  datatype Value =
    | Undefined
    | Null
    | Bool(b: bool)
    | Num(n: int)
    | Str(s: string)
    | Arr(items: seq<Value>)
    | Obj(props: map<string, Value>)

  /** A plain object's own properties. */
  type Props = map<string, Value>

  /** `obj.key`: a missing property reads as undefined. */
  function Get(m: Props, key: string): Value {
    if key in m then m[key] else Undefined
  }

  /** JavaScript truthiness (ToBoolean). */
  predicate Truthy(v: Value) {
    match v
    case Undefined => false
    case Null => false
    case Bool(b) => b
    case Num(n) => n != 0
    case Str(s) => s != ""
    case Arr(_) => true
    case Obj(_) => true
  }

  /** `typeof v === 'object'`: true of null, arrays and plain objects. */
  predicate IsTypeofObject(v: Value) {
    v.Null? || v.Arr? || v.Obj?
  }

  // ---------------------------------------------------------------------
  // ToString

  /** The decimal digit for 0 <= d < 10. */
  function DigitChar(d: nat): char
    requires d < 10
  {
    "0123456789"[d]
  }

  /** Decimal representation of a natural number, without leading zeros. */
  function NatToString(n: nat): string
    decreases n
  {
    if n < 10 then [DigitChar(n)] else NatToString(n / 10) + [DigitChar(n % 10)]
  }

  /** Number::toString for an integer-valued number. */
  function IntToString(n: int): string {
    if n < 0 then "-" + NatToString(-n) else NatToString(n)
  }

  /** ToString(v). Arrays are joined with "," and null or undefined elements
      contribute the empty string, as Array.prototype.join does. */
  function ToString(v: Value): string
    decreases v, 1
  {
    match v
    case Undefined => "undefined"
    case Null => "null"
    case Bool(b) => if b then "true" else "false"
    case Num(n) => IntToString(n)
    case Str(s) => s
    case Arr(items) => Join(items)
    case Obj(_) => "[object Object]"
  }

  /** The elements of an array, converted and separated by ",". */
  function Join(items: seq<Value>): string
    decreases items, 0
  {
    if items == [] then ""
    else
      var head := if items[0].Undefined? || items[0].Null? then "" else ToString(items[0]);
      if |items| == 1 then head else head + "," + Join(items[1..])
  }

  // ---------------------------------------------------------------------
  // parseInt

  /** StrWhiteSpaceChar: the white space and line terminators that
      parseInt skips before the number. */
  predicate IsStrWhiteSpace(c: char) {
    || c == '\t' || c == '\n' || c == '\U{000B}' || c == '\U{000C}' || c == '\r'
    || c == ' ' || c == '\U{00A0}' || c == '\U{1680}'
    || ('\U{2000}' <= c <= '\U{200A}')
    || c == '\U{2028}' || c == '\U{2029}' || c == '\U{202F}' || c == '\U{205F}'
    || c == '\U{3000}' || c == '\U{FEFF}'
  }

  /** The string with its leading white space removed. */
  function TrimStart(s: string): string {
    if s != [] && IsStrWhiteSpace(s[0]) then TrimStart(s[1..]) else s
  }

  /** The value of a digit character in radix 36; 36 for a non-digit. */
  function DigitValue(c: char): (d: nat)
    ensures d <= 36
  {
    if '0' <= c <= '9' then c as int - '0' as int
    else if 'a' <= c <= 'z' then c as int - 'a' as int + 10
    else if 'A' <= c <= 'Z' then c as int - 'A' as int + 10
    else 36
  }

  /** The longest prefix of `s` made of digits of the given radix. */
  function DigitPrefix(s: string, radix: nat): string {
    if s == [] || DigitValue(s[0]) >= radix then [] else [s[0]] + DigitPrefix(s[1..], radix)
  }

  /** The number a string of digits denotes in the given radix. */
  function DigitsValue(s: string, radix: nat): nat
  {
    if s == [] then 0
    else DigitsValue(s[..|s| - 1], radix) * radix + DigitValue(s[|s| - 1])
  }

  /** An optional leading sign: whether it was "-", and what follows it. */
  function StripSign(t: string): (bool, string) {
    if t != [] && (t[0] == '-' || t[0] == '+') then (t[0] == '-', t[1..]) else (false, t)
  }

  /** A "0x" or "0X" prefix selects radix 16; otherwise the radix is 10. */
  function StripHexPrefix(u: string): (nat, string) {
    if |u| >= 2 && u[0] == '0' && (u[1] == 'x' || u[1] == 'X') then (16, u[2..]) else (10, u)
  }

  /** parseInt(s) with no radix argument: skip leading white space, take an
      optional sign, a "0x"/"0X" prefix selects radix 16, then read the
      longest run of digits. No digit at all gives NaN, modelled as None. */
  function ParseIntString(s: string): Option<int> {
    var (negative, u) := StripSign(TrimStart(s));
    var (radix, w) := StripHexPrefix(u);
    var z := DigitPrefix(w, radix);
    if z == [] then None
    else Some(if negative then -(DigitsValue(z, radix) as int) else DigitsValue(z, radix))
  }

  /** parseInt(v): the argument is converted with ToString first. */
  function ParseInt(v: Value): Option<int> {
    ParseIntString(ToString(v))
  }

  // ---------------------------------------------------------------------
  // Properties of parseInt

  lemma {:induction false} NatToStringShape(n: nat)
    ensures |NatToString(n)| >= 1
    ensures forall i :: 0 <= i < |NatToString(n)| ==> DigitValue(NatToString(n)[i]) < 10
    ensures NatToString(n)[0] == '0' ==> n == 0
    decreases n
  {
    if n >= 10 {
      NatToStringShape(n / 10);
      var d := NatToString(n / 10);
      assert NatToString(n) == d + [DigitChar(n % 10)];
      assert NatToString(n)[0] == d[0];
    }
  }

  lemma {:induction false} DigitsValueOfNatToString(n: nat)
    ensures DigitsValue(NatToString(n), 10) == n
    decreases n
  {
    var d := NatToString(n);
    if n < 10 {
      assert d[..0] == [];
    } else {
      DigitsValueOfNatToString(n / 10);
      assert d[..|d| - 1] == NatToString(n / 10);
    }
  }

  lemma {:induction false} DigitPrefixOfDigits(d: string, rest: string, radix: nat)
    requires forall i :: 0 <= i < |d| ==> DigitValue(d[i]) < radix
    requires rest == [] || DigitValue(rest[0]) >= radix
    ensures DigitPrefix(d + rest, radix) == d
    decreases |d|
  {
    if d == [] {
      assert d + rest == rest;
    } else {
      DigitPrefixOfDigits(d[1..], rest, radix);
      assert (d + rest)[1..] == d[1..] + rest;
    }
  }

  /** parseInt reads back the decimal text of any integer, and stops at the
      first character after it that is not a digit ("20abc" reads as 20).
      The one exception is an "x" right after a lone "0", which switches to
      hexadecimal. */
  lemma {:induction false} ParseIntDecimalPrefix(n: int, rest: string)
    requires rest == [] || (DigitValue(rest[0]) >= 10 && (n == 0 ==> rest[0] != 'x' && rest[0] != 'X'))
    ensures ParseIntString(IntToString(n) + rest) == Some(n)
  {
    var m: nat := if n < 0 then -n else n;
    var d := NatToString(m);
    NatToStringShape(m);
    DigitsValueOfNatToString(m);
    DigitPrefixOfDigits(d, rest, 10);
    SignOfDecimalText(n, d, rest);
    HexPrefixOfDecimalText(m, d, rest);
  }

  lemma SignOfDecimalText(n: int, d: string, rest: string)
    requires d == NatToString(if n < 0 then -n else n)
    requires |d| >= 1 && DigitValue(d[0]) < 10
    ensures StripSign(TrimStart(IntToString(n) + rest)) == (n < 0, d + rest)
  {
    var s := IntToString(n) + rest;
    if n < 0 {
      assert s == ['-'] + (d + rest);
      assert s[1..] == d + rest;
    } else {
      assert s == d + rest;
      assert s[0] == d[0];
    }
    assert s[0] == '-' || DigitValue(s[0]) < 10;
    assert !IsStrWhiteSpace(s[0]);
  }

  lemma HexPrefixOfDecimalText(m: nat, d: string, rest: string)
    requires d == NatToString(m)
    requires |d| >= 1 && (d[0] == '0' ==> m == 0)
    requires |d| >= 2 ==> DigitValue(d[1]) < 10
    requires m != 0 || rest == [] || (rest[0] != 'x' && rest[0] != 'X')
    ensures StripHexPrefix(d + rest) == (10, d + rest)
  {
    if m != 0 && |d| == 1 {
      assert d[0] != '0';
    }
  }

  /** parseInt of an integer-valued number is that number. */
  lemma ParseIntOfNum(n: int)
    ensures ParseInt(Num(n)) == Some(n)
  {
    ParseIntDecimalPrefix(n, "");
    assert IntToString(n) + "" == IntToString(n);
  }

  lemma {:induction false} TrimStartSkipsWhiteSpace(ws: string, s: string)
    requires forall i :: 0 <= i < |ws| ==> IsStrWhiteSpace(ws[i])
    ensures TrimStart(ws + s) == TrimStart(s)
    decreases |ws|
  {
    if ws == [] {
      assert ws + s == s;
    } else {
      TrimStartSkipsWhiteSpace(ws[1..], s);
      assert (ws + s)[0] == ws[0];
      assert (ws + s)[1..] == ws[1..] + s;
    }
  }

  /** Leading white space never changes what parseInt reads. */
  lemma ParseIntSkipsWhiteSpace(ws: string, s: string)
    requires forall i :: 0 <= i < |ws| ==> IsStrWhiteSpace(ws[i])
    ensures ParseIntString(ws + s) == ParseIntString(s)
  {
    TrimStartSkipsWhiteSpace(ws, s);
  }
}
