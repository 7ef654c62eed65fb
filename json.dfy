/** Optional values, for absent rows, missing keys and NaN. */
module Wrappers {
  datatype Option<+T> = None | Some(value: T)
}

/**
 * JavaScript values as they travel in the clinic's JSON request and response
 * bodies, and the handful of JavaScript operations the handlers apply to them:
 * truthiness, `a || b` defaults, property reads, `String(v)` and `parseInt`.
 * Numbers are modelled as integers: the handlers only see integer ids and ages.
 */
module JsValues {
  import opened Wrappers

  datatype Value =
    | Undefined
    | Null
    | Bool(b: bool)
    | Num(n: int)
    | Str(s: string)
    | Arr(items: seq<Value>)
    | Obj(fields: map<string, Value>)

  /** JavaScript truthiness: `undefined`, `null`, `false`, `0` and `""` are falsy. */
  predicate Truthy(v: Value) {
    match v
    case Undefined => false
    case Null => false
    case Bool(b) => b
    case Num(n) => n != 0
    case Str(s) => s != ""
    case Arr(_) => true
    case Obj(_) => true
  }

  /** `v || fallback` */
  function Or(v: Value, fallback: Value): Value {
    if Truthy(v) then v else fallback
  }

  /** `v.key` on a value that can be read from; anything but an object has none of the keys used here. */
  function Field(v: Value, key: string): Value {
    match v
    case Obj(fields) => if key in fields then fields[key] else Undefined
    case _ => Undefined
  }

  /** `const { ... } = v` throws a TypeError exactly when `v` is `null` or `undefined`. */
  predicate Destructurable(v: Value) {
    !v.Null? && !v.Undefined?
  }

  /**
   * `v.length` where it is a number: an array's or a string's length, or an
   * object's own numeric `length` key. None stands for `undefined` and for a
   * `length` key that is not a number.
   */
  function Length(v: Value): Option<int> {
    match v
    case Arr(items) => Some(|items|)
    case Str(s) => Some(|s|)
    case Obj(fields) => if "length" in fields && fields["length"].Num? then Some(fields["length"].n) else None
    case _ => None
  }

  /** `{ key1: v1, ... }` with one key. */
  function Object1(k: string, v: Value): Value {
    Obj(map[k := v])
  }

  // ---------------------------------------------------------------------------
  // Number to string and back
  // ---------------------------------------------------------------------------

  function DigitChar(d: nat): char
    requires d < 10
  {
    ('0' as int + d) as char
  }

  /** Decimal digits of `n`, most significant first, without leading zeros. */
  function NatToString(n: nat): (s: string)
    decreases n
  {
    if n < 10 then [DigitChar(n)] else NatToString(n / 10) + [DigitChar(n % 10)]
  }

  /** `String(n)` / `n.toString()` for an integer. */
  function IntToString(n: int): string {
    if n < 0 then "-" + NatToString(-n) else NatToString(n)
  }

  /** Characters `parseInt` skips before the number (ECMAScript white space and line terminators). */
  predicate IsJsWhitespace(c: char) {
    c as int in {9, 10, 11, 12, 13, 32, 160, 5760, 8232, 8233, 8239, 8287, 12288, 65279}
    || 8192 <= c as int <= 8202
  }

  function TrimStart(s: string): (t: string)
    ensures |t| <= |s|
    ensures t == [] || !IsJsWhitespace(t[0])
  {
    if s != [] && IsJsWhitespace(s[0]) then TrimStart(s[1..]) else s
  }

  /** Value of `c` as a digit in bases up to 36 (`0-9`, `a-z`, `A-Z`). */
  function DigitValue(c: char): Option<nat> {
    if '0' <= c <= '9' then Some(c as int - '0' as int)
    else if 'a' <= c <= 'z' then Some(c as int - 'a' as int + 10)
    else if 'A' <= c <= 'Z' then Some(c as int - 'A' as int + 10)
    else None
  }

  predicate IsDigit(c: char, radix: nat) {
    DigitValue(c).Some? && DigitValue(c).value < radix
  }

  /** The values of the longest prefix of `s` made of digits of `radix`. */
  function DigitPrefix(s: string, radix: nat): (ds: seq<nat>)
    ensures |ds| <= |s|
    ensures forall i :: 0 <= i < |ds| ==> IsDigit(s[i], radix) && ds[i] == DigitValue(s[i]).value
  {
    if s == [] || !IsDigit(s[0], radix) then [] else [DigitValue(s[0]).value] + DigitPrefix(s[1..], radix)
  }

  /** Positional value of a digit sequence, most significant first. */
  function DigitsValue(ds: seq<nat>, radix: nat): nat {
    if ds == [] then 0 else DigitsValue(ds[..|ds| - 1], radix) * radix + ds[|ds| - 1]
  }

  /**
   * `parseInt(s)` with no radix argument: leading white space is skipped, one
   * sign is accepted, a `0x`/`0X` prefix selects base 16, and the longest run of
   * digits is read; no digit at all gives NaN (None).
   */
  function ParseInt(s: string): (r: Option<int>)
    ensures r.Some? ==> exists k :: 0 <= k < |s| && IsDigit(s[k], 16)
  {
    var t := TrimStart(s);
    var negative := t != [] && t[0] == '-';
    var unsigned := if t != [] && (t[0] == '-' || t[0] == '+') then t[1..] else t;
    var hex := |unsigned| >= 2 && unsigned[0] == '0' && (unsigned[1] == 'x' || unsigned[1] == 'X');
    var radix := if hex then 16 else 10;
    var body := if hex then unsigned[2..] else unsigned;
    var ds := DigitPrefix(body, radix);
    if ds == [] then None
    else
      var magnitude: int := DigitsValue(ds, radix);
      assert IsDigit(body[0], 16);
      assert body[0] == s[|s| - |body|] by { TrimStartIsSuffix(s); }
      var value: int := if negative then -magnitude else magnitude;
      Some(value)
  }

  lemma {:induction false} TrimStartIsSuffix(s: string)
    ensures s[|s| - |TrimStart(s)|..] == TrimStart(s)
  {
    if s != [] && IsJsWhitespace(s[0]) {
      TrimStartIsSuffix(s[1..]);
      assert s[1..][|s| - 1 - |TrimStart(s[1..])|..] == s[|s| - |TrimStart(s)|..];
    }
  }

  /** `String(v)`: how a value reads when JavaScript needs it as text. */
  function ToJsString(v: Value): string
    decreases v, 1, 0
  {
    match v
    case Undefined => "undefined"
    case Null => "null"
    case Bool(b) => if b then "true" else "false"
    case Num(n) => IntToString(n)
    case Str(s) => s
    case Arr(items) => JoinFrom(v, 0)
    case Obj(_) => "[object Object]"
  }

  /** `items.slice(k).join(",")`, where `null` and `undefined` elements read as "". */
  function JoinFrom(v: Value, k: nat): string
    requires v.Arr? && k <= |v.items|
    decreases v, 0, |v.items| - k
  {
    if k == |v.items| then ""
    else
      var item := v.items[k];
      var text := if item.Null? || item.Undefined? then "" else ToJsString(item);
      if k + 1 == |v.items| then text else text + "," + JoinFrom(v, k + 1)
  }

  /** `parseInt(v)` on any value: JavaScript converts it to a string first. */
  function ParseIntValue(v: Value): Option<int> {
    ParseInt(ToJsString(v))
  }

  // ---------------------------------------------------------------------------
  // The round trip: parseInt(String(n)) == n
  // ---------------------------------------------------------------------------

  lemma {:induction false} NatToStringDigits(n: nat)
    ensures NatToString(n) != []
    ensures forall i :: 0 <= i < |NatToString(n)| ==> '0' <= NatToString(n)[i] <= '9'
    ensures NatToString(n)[0] == '0' ==> n == 0
    ensures DigitPrefix(NatToString(n), 10) != []
    ensures DigitsValue(DigitPrefix(NatToString(n), 10), 10) == n
    decreases n
  {
    if n >= 10 {
      var s := NatToString(n / 10);
      var c := DigitChar(n % 10);
      NatToStringDigits(n / 10);
      DigitPrefixSnoc(s, c);
      var ds := DigitPrefix(s, 10);
      assert DigitPrefix(s + [c], 10)[..|ds|] == ds;
    }
  }

  /** Appending a digit to an all-digit string appends its value. */
  lemma {:induction false} DigitPrefixSnoc(s: string, c: char)
    requires forall i :: 0 <= i < |s| ==> '0' <= s[i] <= '9'
    requires '0' <= c <= '9'
    ensures DigitPrefix(s + [c], 10) == DigitPrefix(s, 10) + [c as int - '0' as int]
  {
    if s != [] {
      assert (s + [c])[1..] == s[1..] + [c];
      DigitPrefixSnoc(s[1..], c);
    }
  }

  /** Converting an integer to a string and parsing it back gives the integer. */
  lemma ParseIntOfIntToString(n: int)
    ensures ParseInt(IntToString(n)) == Some(n)
  {
    var m := if n < 0 then -n else n;
    NatToStringDigits(m);
    var digits := NatToString(m);
    var s := IntToString(n);
    assert !IsJsWhitespace(s[0]);
    assert TrimStart(s) == s;
    if n < 0 {
      assert s[1..] == digits;
    }
  }

  /** `parseInt` of a number value is that number, as the handlers rely on. */
  lemma ParseIntValueOfNum(n: int)
    ensures ParseIntValue(Num(n)) == Some(n)
    ensures ParseIntValue(Str(IntToString(n))) == Some(n)
  {
    ParseIntOfIntToString(n);
  }

  // ---------------------------------------------------------------------------
  // Text search as the tables do it: s.toLowerCase().includes(q.toLowerCase())
  // ---------------------------------------------------------------------------

  function ToLower(s: string): (r: string)
    ensures |r| == |s|
    ensures forall i :: 0 <= i < |s| ==> r[i] == (if 'A' <= s[i] <= 'Z' then (s[i] as int + 32) as char else s[i])
  {
    if s == [] then []
    else [if 'A' <= s[0] <= 'Z' then (s[0] as int + 32) as char else s[0]] + ToLower(s[1..])
  }

  /** `hay.includes(needle)` */
  predicate Includes(hay: string, needle: string)
    decreases |hay|
  {
    (|needle| <= |hay| && hay[..|needle|] == needle)
    || (hay != [] && Includes(hay[1..], needle))
  }

  lemma {:induction false} IncludesAt(hay: string, needle: string, k: nat)
    requires k + |needle| <= |hay| && hay[k..k + |needle|] == needle
    ensures Includes(hay, needle)
    decreases k
  {
    if k > 0 {
      assert hay[1..][k - 1..k - 1 + |needle|] == hay[k..k + |needle|];
      IncludesAt(hay[1..], needle, k - 1);
    }
  }

  /** Every string includes the empty string, and includes itself. */
  lemma IncludesEmptyAndSelf(hay: string)
    ensures Includes(hay, "")
    ensures Includes(hay, hay)
  {
    IncludesAt(hay, "", 0);
  }
}
