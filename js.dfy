/** JavaScript values as the handlers see them: JSON data, truthiness and the
    `||` fallback, property reads, and the two number/string conversions the
    handlers rely on (`String(n)` of an integer and `parseInt`). */
module Js {

  datatype Option<+T> = None | Some(value: T)

  /** A value produced by `JSON.parse`. Numbers are reals: JSON has no NaN,
      and -0 is not distinguished from 0. */
  datatype Json =
    | JNull
    | JBool(b: bool)
    | JNum(n: real)
    | JStr(s: string)
    | JArr(items: seq<Json>)
    | JObj(fields: map<string, Json>)

  /** ECMAScript ToBoolean of a JSON value or of `undefined` (None). */
  predicate Truthy(v: Option<Json>)
  {
    match v
    case None => false
    case Some(JNull) => false
    case Some(JBool(b)) => b
    case Some(JNum(n)) => n != 0.0
    case Some(JStr(s)) => s != ""
    case Some(_) => true
  }

  /** `a || b` on JSON values. */
  function OrJson(a: Option<Json>, b: Option<Json>): Option<Json>
  {
    if Truthy(a) then a else b
  }

  /** `v[key]` on a non-null value: an object's own property, `undefined`
      otherwise. (Reading a property of `null` throws; callers handle that
      case first. The keys read in this model name no inherited property
      and are not `length`.) */
  function Prop(v: Json, key: string): Option<Json>
    requires !v.JNull?
  {
    if v.JObj? && key in v.fields then Some(v.fields[key]) else None
  }

  /** Truthiness of a typed field whose only falsy values are null/undefined
      (None) and `zero` (0 for numbers, "" for strings). */
  predicate Holds<T(==)>(x: Option<T>, zero: T)
  {
    x.Some? && x.value != zero
  }

  /** `x || fallback` on a typed field. */
  function Or<T(==)>(x: Option<T>, zero: T, fallback: T): T
  {
    if Holds(x, zero) then x.value else fallback
  }

  /** `x || null` on a typed field. */
  function OrNull<T(==)>(x: Option<T>, zero: T): (r: Option<T>)
    ensures r != Some(zero)
    ensures x != Some(zero) ==> r == x
  {
    match x
    case None => None
    case Some(v) => if v != zero then x else None
  }

  // ---------------------------------------------------------------------
  // Integers as decimal text

  predicate IsDecimalDigit(c: char)
  {
    '0' <= c <= '9'
  }

  function DigitChar(d: nat): (c: char)
    requires d < 10
    ensures IsDecimalDigit(c) && (c as int) - ('0' as int) == d
  {
    (('0' as int) + d) as char
  }

  /** Decimal digits of `n`, most significant first, without leading zeros. */
  function NatDecimal(n: nat): (s: string)
    ensures |s| > 0
    ensures forall i :: 0 <= i < |s| ==> IsDecimalDigit(s[i])
    ensures s[0] == '0' <==> n == 0
    ensures n == 0 ==> s == "0"
    decreases n
  {
    if n < 10 then [DigitChar(n)] else NatDecimal(n / 10) + [DigitChar(n % 10)]
  }

  /** `String(n)` (or a template-literal substitution) of an integer-valued
      number. */
  function Decimal(n: int): (s: string)
    ensures |s| > 0
    ensures (n < 0) <==> s[0] == '-'
  {
    if n < 0 then "-" + NatDecimal(-n) else NatDecimal(n)
  }

  // ---------------------------------------------------------------------
  // parseInt(s), with its radix argument left out, as ECMAScript defines it

  /** StrWhiteSpaceChar: WhiteSpace (including every Zs character) and
      LineTerminator. */
  predicate IsWhiteSpace(c: char)
  {
    c in {'\t', '\n', '\U{000B}', '\U{000C}', '\r', ' ', '\U{00A0}', '\U{1680}',
          '\U{2028}', '\U{2029}', '\U{202F}', '\U{205F}', '\U{3000}', '\U{FEFF}'}
    || '\U{2000}' <= c <= '\U{200A}'
  }

  function TrimStart(s: string): (t: string)
    ensures |t| <= |s| && t == s[|s| - |t|..]
    ensures t == [] || !IsWhiteSpace(t[0])
    ensures forall i :: 0 <= i < |s| - |t| ==> IsWhiteSpace(s[i])
  {
    if s != [] && IsWhiteSpace(s[0]) then TrimStart(s[1..]) else s
  }

  /** The value of `c` as a digit in base `radix` (2..36), if it is one. */
  function DigitValue(c: char, radix: nat): (d: Option<nat>)
    ensures d.Some? ==> d.value < radix
  {
    var v :=
      if '0' <= c <= '9' then (c as int) - ('0' as int)
      else if 'a' <= c <= 'z' then (c as int) - ('a' as int) + 10
      else if 'A' <= c <= 'Z' then (c as int) - ('A' as int) + 10
      else radix;
    if 0 <= v < radix then Some(v) else None
  }

  predicate AllDigits(s: string, radix: nat)
  {
    forall i :: 0 <= i < |s| ==> DigitValue(s[i], radix).Some?
  }

  /** Length of the longest prefix of `s` made of base-`radix` digits. */
  function DigitPrefix(s: string, radix: nat): (k: nat)
    ensures k <= |s|
    ensures AllDigits(s[..k], radix)
    ensures k < |s| ==> DigitValue(s[k], radix).None?
  {
    if s == [] || DigitValue(s[0], radix).None? then 0
    else
      var k := 1 + DigitPrefix(s[1..], radix);
      assert s[..k] == [s[0]] + s[1..][..k - 1];
      k
  }

  /** The number that the digit string `s` denotes in base `radix`. */
  function DigitsValue(s: string, radix: nat): nat
    requires AllDigits(s, radix)
  {
    if s == [] then 0
    else DigitsValue(s[..|s| - 1], radix) * radix + DigitValue(s[|s| - 1], radix).value
  }

  /** The unsigned part of `parseInt`: a `0x` or `0X` prefix selects base
      16, then the longest digit prefix is read; None when there is no digit. */
  function ParseUnsigned(u: string): Option<nat>
  {
    var hex := |u| >= 2 && u[0] == '0' && (u[1] == 'x' || u[1] == 'X');
    var radix := if hex then 16 else 10;
    var w := if hex then u[2..] else u;
    var k := DigitPrefix(w, radix);
    if k == 0 then None else Some(DigitsValue(w[..k], radix))
  }

  /** `parseInt(s)`: skip leading white space, take an optional sign, then
      the unsigned part. None is NaN, the result when no digit follows. */
  function ParseInt(s: string): Option<int>
  {
    var t := TrimStart(s);
    var negative := |t| > 0 && t[0] == '-';
    var u := if |t| > 0 && (t[0] == '-' || t[0] == '+') then t[1..] else t;
    match ParseUnsigned(u)
    case None => None
    case Some(m) => var v: int := m; Some(if negative then -v else v)
  }

  lemma {:induction false} NatDecimalValue(n: nat)
    ensures AllDigits(NatDecimal(n), 10)
    ensures DigitsValue(NatDecimal(n), 10) == n
    decreases n
  {
    var s := NatDecimal(n);
    assert AllDigits(s, 10) by {
      forall i | 0 <= i < |s| ensures DigitValue(s[i], 10).Some? {
        assert IsDecimalDigit(s[i]);
      }
    }
    if n >= 10 {
      NatDecimalValue(n / 10);
      var a := NatDecimal(n / 10);
      assert s == a + [DigitChar(n % 10)];
      assert s[..|s| - 1] == a;
    }
  }

  lemma ParseUnsignedDecimal(m: nat)
    ensures ParseUnsigned(NatDecimal(m)) == Some(m)
  {
    var d := NatDecimal(m);
    NatDecimalValue(m);
    assert d[0] == '0' ==> d == "0";
    var k := DigitPrefix(d, 10);
    assert k == |d| by {
      assert AllDigits(d, 10);
    }
    assert d[..k] == d;
    assert ParseUnsigned(d) == if k == 0 then None else Some(DigitsValue(d[..k], 10));
  }

  /** Decimal text starts with a digit or a minus sign, never white space. */
  lemma DecimalTrimmed(n: int)
    ensures TrimStart(Decimal(n)) == Decimal(n)
  {
    var s := Decimal(n);
    if n < 0 {
      assert s[0] == '-';
    } else {
      assert IsDecimalDigit(NatDecimal(n)[0]);
    }
    assert !IsWhiteSpace(s[0]);
  }

  /** `parseInt` reads back every integer that `String` writes, so a lookup
      keyed by `parseInt(String(n))` is keyed by `n`. */
  lemma ParseIntDecimal(n: int)
    ensures ParseInt(Decimal(n)) == Some(n)
  {
    var m: nat := if n < 0 then -n else n;
    var d := NatDecimal(m);
    ParseUnsignedDecimal(m);
    DecimalTrimmed(n);
    var s := Decimal(n);
    if n < 0 {
      assert s[1..] == d;
    } else {
      assert IsDecimalDigit(d[0]);
    }
  }
}
