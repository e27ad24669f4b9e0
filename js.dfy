/** JavaScript values as the route handlers receive them (request bodies, route
    parameters, result columns) and the few built-in conversions the handlers
    apply to them: truthiness, `||`, `String(v)`, `v.toString()`,
    `parseInt(v, 10)` and `String.prototype.trim`. Numbers are integral only;
    arrays convert by joining their elements, other objects to
    "[object Object]". */
module Js {

  /** Two values are equal exactly when a `Map` treats them as the same key:
      primitives by content, arrays and other objects by identity. */
  datatype Value =
    | Undefined
    | Null
    | Bool(b: bool)
    | Num(n: int)
    | NaN
    | Str(s: string)
    | Arr(id: nat, elems: seq<Value>)   // an array: its identity, and the elements its string form joins
    | Obj(id: nat)   // any other object, known only by its identity

  /** JavaScript truthiness: `undefined`, `null`, `false`, `0`, `NaN` and `""` are falsy. */
  predicate Truthy(v: Value) {
    match v
    case Undefined => false
    case Null => false
    case NaN => false
    case Bool(b) => b
    case Num(n) => n != 0
    case Str(s) => s != ""
    case Arr(_, _) => true
    case Obj(_) => true
  }

  /** `v === null || v === undefined` */
  predicate Nullish(v: Value) {
    v == Undefined || v == Null
  }

  /** `a || b` */
  function Or(a: Value, b: Value): Value {
    if Truthy(a) then a else b
  }

  // ---------------------------------------------------------------- decimal

  predicate IsDigit(c: char) {
    '0' <= c <= '9'
  }

  predicate AllDigits(s: string) {
    forall i :: 0 <= i < |s| ==> IsDigit(s[i])
  }

  function DigitChar(d: nat): (c: char)
    requires d < 10
    ensures IsDigit(c)
  {
    ('0' as int + d) as char
  }

  function DigitValue(c: char): (d: nat)
    requires IsDigit(c)
    ensures d < 10
  {
    c as int - '0' as int
  }

  function Pow10(k: nat): (p: nat)
    ensures p >= 1
  {
    if k == 0 then 1 else 10 * Pow10(k - 1)
  }

  /** The shortest decimal numeral of `n`, as `String(n)` writes it. */
  function NatToString(n: nat): (s: string)
    ensures |s| >= 1 && AllDigits(s)
    ensures |s| > 1 ==> s[0] != '0'
    decreases n
  {
    if n < 10 then [DigitChar(n)] else NatToString(n / 10) + [DigitChar(n % 10)]
  }

  /** The value of a numeral, read most significant digit first. */
  function DigitsValue(s: string): nat
    requires AllDigits(s)
  {
    if |s| == 0 then 0 else 10 * DigitsValue(s[..|s| - 1]) + DigitValue(s[|s| - 1])
  }

  /** Reading back what NatToString writes gives the number again. */
  lemma {:induction false} DigitsValueOfNatToString(n: nat)
    ensures DigitsValue(NatToString(n)) == n
    decreases n
  {
    if n >= 10 {
      var s := NatToString(n);
      var p := NatToString(n / 10);
      assert s == p + [DigitChar(n % 10)];
      assert s[..|s| - 1] == p;
      DigitsValueOfNatToString(n / 10);
    }
  }

  /** Distinct numbers have distinct numerals. */
  lemma NatToStringInjective(m: nat, n: nat)
    requires m != n
    ensures NatToString(m) != NatToString(n)
  {
    DigitsValueOfNatToString(m);
    DigitsValueOfNatToString(n);
  }

  /** A number with exactly k + 1 decimal digits has a numeral of length k + 1. */
  lemma {:induction false} NatToStringLength(n: nat, k: nat)
    requires Pow10(k) <= n < Pow10(k + 1)
    ensures |NatToString(n)| == k + 1
    decreases k
  {
    if k == 0 {
      assert n < 10;
    } else {
      assert Pow10(k) == 10 * Pow10(k - 1);
      assert Pow10(k + 1) == 10 * Pow10(k);
      assert Pow10(k - 1) <= n / 10 < Pow10(k);
      NatToStringLength(n / 10, k - 1);
    }
  }

  /** `String(n)` for an integral number (exponent notation for very large
      magnitudes is not modelled). */
  function IntToString(n: int): (s: string)
    ensures n >= 0 ==> s == NatToString(n)
    ensures n < 0 ==> s == "-" + NatToString(-n)
  {
    if n < 0 then "-" + NatToString(-n) else NatToString(n)
  }

  /** `String(v)`: the string conversion a template literal or `parseInt` applies.
      An array joins the strings of its elements with commas, writing
      `null` and `undefined` elements as empty strings. */
  function ToJsString(v: Value): string
    decreases v
  {
    match v
    case Undefined => "undefined"
    case Null => "null"
    case NaN => "NaN"
    case Bool(b) => if b then "true" else "false"
    case Num(n) => IntToString(n)
    case Str(s) => s
    case Arr(_, es) => JoinWith(seq(|es|, i requires 0 <= i < |es| => if Nullish(es[i]) then "" else ToJsString(es[i])), ",")
    case Obj(_) => "[object Object]"
  }

  /** `parts.join(sep)` */
  function JoinWith(parts: seq<string>, sep: string): string {
    if parts == [] then ""
    else if |parts| == 1 then parts[0]
    else parts[0] + sep + JoinWith(parts[1..], sep)
  }

  /** An empty array converts to "", a one-element array as its element does
      (a `null` or `undefined` element as ""), and two elements are joined by
      a comma. So `String([7])` is "7". */
  lemma ArrayStrings(id: nat, u: Value, w: Value)
    ensures ToJsString(Arr(id, [])) == ""
    ensures ToJsString(Arr(id, [u])) == if Nullish(u) then "" else ToJsString(u)
    ensures ToJsString(Arr(id, [u, w])) ==
              (if Nullish(u) then "" else ToJsString(u)) + "," + (if Nullish(w) then "" else ToJsString(w))
  {
    var es := [u, w];
    var ps := seq(|es|, i requires 0 <= i < |es| => if Nullish(es[i]) then "" else ToJsString(es[i]));
    assert ToJsString(Arr(id, es)) == JoinWith(ps, ",");
    assert ps[1..] == [ps[1]];
  }

  /** `v.toString()`: throws a TypeError (None) on `null` and `undefined`. */
  function CallToString(v: Value): (r: Option<string>)
    ensures r.None? <==> Nullish(v)
    ensures r.Some? ==> r.value == ToJsString(v)
  {
    if Nullish(v) then None else Some(ToJsString(v))
  }

  datatype Option<T> = None | Some(value: T)

  // ------------------------------------------------------------- whitespace

  /** The white-space characters `trim` and `parseInt` skip (the ASCII ones,
      no-break space and the byte-order mark). */
  predicate IsSpace(c: char) {
    c == ' ' || c == '\t' || c == '\n' || c == '\r' || c == '\U{000B}' || c == '\U{000C}'
    || c == '\U{00A0}' || c == '\U{FEFF}'
  }

  /** `s.trimStart()` */
  function TrimStart(s: string): string {
    if |s| > 0 && IsSpace(s[0]) then TrimStart(s[1..]) else s
  }

  /** `s.trimEnd()` */
  function TrimEnd(s: string): string {
    if |s| > 0 && IsSpace(s[|s| - 1]) then TrimEnd(s[..|s| - 1]) else s
  }

  /** `trimStart` leaves the longest suffix of `s` that does not start with
      white space: everything it drops is white space. */
  lemma {:induction false} TrimStartShape(s: string)
    ensures var r := TrimStart(s);
      && |r| <= |s| && r == s[|s| - |r|..]
      && (forall i :: 0 <= i < |s| - |r| ==> IsSpace(s[i]))
      && (|r| > 0 ==> !IsSpace(r[0]))
    decreases |s|
  {
    if |s| > 0 && IsSpace(s[0]) {
      TrimStartShape(s[1..]);
      var r := TrimStart(s);
      assert s[1..][|s| - 1 - |r|..] == s[|s| - |r|..];
    }
  }

  /** `trimEnd` leaves the longest prefix of `s` that does not end with
      white space: everything it drops is white space. */
  lemma {:induction false} TrimEndShape(s: string)
    ensures var r := TrimEnd(s);
      && |r| <= |s| && r == s[..|r|]
      && (forall i :: |r| <= i < |s| ==> IsSpace(s[i]))
      && (|r| > 0 ==> !IsSpace(r[|r| - 1]))
    decreases |s|
  {
    if |s| > 0 && IsSpace(s[|s| - 1]) {
      TrimEndShape(s[..|s| - 1]);
      var r := TrimEnd(s);
      assert s[..|s| - 1][..|r|] == s[..|r|];
    }
  }

  /** `s.trim()` */
  function Trim(s: string): string {
    TrimEnd(TrimStart(s))
  }

  /** Trimming twice is trimming once. */
  lemma TrimIdempotent(s: string)
    ensures Trim(Trim(s)) == Trim(s)
  {
    var t := Trim(s);
    TrimStartShape(s);
    TrimEndShape(TrimStart(s));
    if |t| > 0 {
      assert !IsSpace(t[0]) && !IsSpace(t[|t| - 1]);
      assert TrimStart(t) == t;
      assert TrimEnd(t) == t;
    }
  }

  // --------------------------------------------------------------- parseInt

  /** The longest prefix of `s` made of decimal digits. */
  function DigitPrefix(s: string): (r: string)
    ensures |r| <= |s| && r == s[..|r|] && AllDigits(r)
    ensures |r| < |s| ==> !IsDigit(s[|r|])
  {
    if |s| > 0 && IsDigit(s[0]) then [s[0]] + DigitPrefix(s[1..]) else []
  }

  /** `parseInt(s, 10)`: skip leading white space, read an optional sign and
      then as many decimal digits as follow; no digit at all gives NaN. */
  function ParseIntString(s: string): (r: Value)
    ensures r.Num? || r == NaN
  {
    var t := TrimStart(s);
    var signed := |t| > 0 && (t[0] == '-' || t[0] == '+');
    var negative := signed && t[0] == '-';
    var digits := DigitPrefix(if signed then t[1..] else t);
    if |digits| == 0 then NaN
    else if negative then Num(-(DigitsValue(digits) as int))
    else Num(DigitsValue(digits))
  }

  /** `parseInt(v, 10)` on any value: its string conversion is parsed. */
  function ParseInt(v: Value): Value {
    ParseIntString(ToJsString(v))
  }

  lemma {:induction false} DigitPrefixOfDigits(s: string)
    requires AllDigits(s)
    ensures DigitPrefix(s) == s
    decreases |s|
  {
    if |s| > 0 {
      DigitPrefixOfDigits(s[1..]);
      assert [s[0]] + s[1..] == s;
    }
  }

  /** `parseInt` reads back every decimal numeral `String` writes. */
  lemma ParseIntOfNatToString(n: nat)
    ensures ParseIntString(NatToString(n)) == Num(n)
  {
    var s := NatToString(n);
    assert IsDigit(s[0]);
    assert TrimStart(s) == s;
    assert !(s[0] == '-' || s[0] == '+');
    DigitPrefixOfDigits(s);
    DigitsValueOfNatToString(n);
  }

  /** `parseInt(n, 10) === n` for every integral number `n`. */
  lemma ParseIntOfNum(n: int)
    ensures ParseInt(Num(n)) == Num(n)
  {
    if n >= 0 {
      ParseIntOfNatToString(n);
    } else {
      var d := NatToString(-n);
      var s := "-" + d;
      assert s[0] == '-' && !IsSpace(s[0]);
      assert TrimStart(s) == s;
      assert s[1..] == d;
      DigitPrefixOfDigits(d);
      DigitsValueOfNatToString(-n);
    }
  }


  /** `parseInt([n], 10) === n`: an array holding one number parses as it. */
  lemma ParseIntOfSingletonArray(id: nat, n: int)
    ensures ParseInt(Arr(id, [Num(n)])) == Num(n)
    ensures CallToString(Arr(id, [Num(n)])) == Some(IntToString(n))
  {
    ArrayStrings(id, Num(n), Num(n));
    ParseIntOfNum(n);
  }

  /** `v.trim()`: only strings have the method; on anything else the call
      throws a TypeError (None). */
  function CallTrim(v: Value): (r: Option<string>)
    ensures r.Some? <==> v.Str?
    ensures r.Some? ==> r.value == Trim(v.s)
  {
    if v.Str? then Some(Trim(v.s)) else None
  }

  /** What `trim()` returns is already trimmed: it neither starts nor ends
      with white space, and trimming it again changes nothing. */
  lemma CallTrimTrimmed(v: Value)
    ensures CallTrim(v).Some? ==>
              var t := CallTrim(v).value;
              && Trim(t) == t
              && (|t| > 0 ==> !IsSpace(t[0]) && !IsSpace(t[|t| - 1]))
  {
    if v.Str? {
      var t := Trim(v.s);
      TrimIdempotent(v.s);
      TrimStartShape(v.s);
      TrimEndShape(TrimStart(v.s));
      if |t| > 0 {
        assert t[0] == TrimStart(v.s)[0];
      }
    }
  }

  // ---------------------------------------------------------------- Number

  /** `Number(s)` for the integral numerals the model knows: surrounding white
      space is ignored, the empty string is 0, an optional sign followed by
      decimal digits is that integer, anything else is NaN. */
  function StringToNumber(s: string): (r: Value)
    ensures r.Num? || r == NaN
    ensures Trim(s) == "" ==> r == Num(0)
  {
    var t := Trim(s);
    if t == "" then Num(0)
    else
      var signed := t[0] == '-' || t[0] == '+';
      var digits := if signed then t[1..] else t;
      if |digits| == 0 || !AllDigits(digits) then NaN
      else if t[0] == '-' then Num(-(DigitsValue(digits) as int))
      else Num(DigitsValue(digits))
  }

  /** `Number(v)`, the conversion a relational comparison with a number applies. */
  function ToNumber(v: Value): (r: Value)
    ensures r.Num? || r == NaN
  {
    match v
    case Undefined => NaN
    case Null => Num(0)
    case Bool(b) => Num(if b then 1 else 0)
    case Num(n) => Num(n)
    case NaN => NaN
    case Str(s) => StringToNumber(s)
    case Arr(_, _) => StringToNumber(ToJsString(v))
    case Obj(_) => NaN
  }

  /** `v > 0`, comparing numerically; NaN compares false. */
  predicate GreaterThanZero(v: Value) {
    var n := ToNumber(v);
    n.Num? && n.n > 0
  }

  /** `Number(String(n)) === n` for every natural number. */
  lemma StringToNumberOfNatToString(n: nat)
    ensures StringToNumber(NatToString(n)) == Num(n)
  {
    var s := NatToString(n);
    assert !IsSpace(s[0]) && !IsSpace(s[|s| - 1]);
    assert TrimStart(s) == s;
    assert TrimEnd(s) == s;
    assert !(s[0] == '-' || s[0] == '+');
    DigitsValueOfNatToString(n);
  }
}
