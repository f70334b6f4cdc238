/**
 * JavaScript values as they reach the tool handlers (parsed JSON plus `undefined`),
 * with the three JavaScript operations the core relies on: property access,
 * truthiness (for `a || b` defaults) and string interpolation.
 */
module JsValues {

  /** A JavaScript value. `JUndefined` also stands for a property that is absent. */
  datatype Json =
    | JUndefined
    | JNull
    | JBool(b: bool)
    | JNum(n: real)
    | JStr(s: string)
    | JArr(items: seq<Json>)
    | JObj(fields: seq<(string, Json)>)

  /** The value under `key` in an object's fields; the last occurrence wins, as in JSON.parse. */
  function Lookup(fields: seq<(string, Json)>, key: string): (v: Json)
  {
    if fields == [] then JUndefined
    else if fields[|fields| - 1].0 == key then fields[|fields| - 1].1
    else Lookup(fields[..|fields| - 1], key)
  }

  /** The value of the last field named `key` is what a lookup finds. */
  lemma {:induction false} LookupFindsLast(fields: seq<(string, Json)>, i: int, key: string)
    requires 0 <= i < |fields| && fields[i].0 == key
    requires forall j :: i < j < |fields| ==> fields[j].0 != key
    ensures Lookup(fields, key) == fields[i].1
    decreases |fields|
  {
    if i < |fields| - 1 {
      LookupFindsLast(fields[..|fields| - 1], i, key);
    }
  }

  /** A key no field carries is looked up as undefined. */
  lemma {:induction false} LookupAbsent(fields: seq<(string, Json)>, key: string)
    requires forall i :: 0 <= i < |fields| ==> fields[i].0 != key
    ensures Lookup(fields, key) == JUndefined
    decreases |fields|
  {
    if fields != [] {
      LookupAbsent(fields[..|fields| - 1], key);
    }
  }

  lemma LookupAbsentAll(fields: seq<(string, Json)>)
    ensures forall key :: (forall i :: 0 <= i < |fields| ==> fields[i].0 != key) ==> Lookup(fields, key) == JUndefined
  {
    forall key | forall i :: 0 <= i < |fields| ==> fields[i].0 != key {
      LookupAbsent(fields, key);
    }
  }

  /** Whatever a lookup finds other than undefined is the value of some field with that key. */
  lemma {:induction false} LookupWitness(fields: seq<(string, Json)>, key: string)
    requires Lookup(fields, key) != JUndefined
    ensures exists i :: 0 <= i < |fields| && fields[i] == (key, Lookup(fields, key))
    decreases |fields|
  {
    if fields[|fields| - 1].0 != key {
      LookupWitness(fields[..|fields| - 1], key);
      var i :| 0 <= i < |fields| - 1 && fields[..|fields| - 1][i] == (key, Lookup(fields, key));
      assert fields[i] == (key, Lookup(fields, key));
    }
  }

  /** `v[key]` for a value other than undefined or null (those throw, see `IsNullish`). */
  function Get(v: Json, key: string): Json
  {
    match v
    case JObj(fields) => Lookup(fields, key)
    case _ => JUndefined
  }

  /** Reading a property of these throws a TypeError. */
  predicate IsNullish(v: Json)
  {
    v == JUndefined || v == JNull
  }

  /** JavaScript truthiness (NaN, which JSON cannot carry, is not modelled). */
  predicate Truthy(v: Json)
  {
    match v
    case JUndefined => false
    case JNull => false
    case JBool(b) => b
    case JNum(n) => n != 0.0
    case JStr(s) => s != ""
    case JArr(_) => true
    case JObj(_) => true
  }

  /** `a || b`. */
  function Or(a: Json, b: Json): (r: Json)
    ensures Truthy(a) ==> r == a
    ensures !Truthy(a) ==> r == b
  {
    if Truthy(a) then a else b
  }

  /** Destructuring with a default, `const { k = d } = obj`: the default applies only to undefined. */
  function OrIfUndefined(a: Json, d: Json): (r: Json)
    ensures a != JUndefined ==> r == a
    ensures a == JUndefined ==> r == d
  {
    if a == JUndefined then d else a
  }

  /** V8's message for reading property `key` of undefined or null. */
  function ReadError(v: Json, key: string): string
  {
    "Cannot read properties of " + (if v == JNull then "null" else "undefined") + " (reading '" + key + "')"
  }

  /** V8's message for destructuring property `key` out of undefined or null. */
  function DestructureError(v: Json, key: string, name: string): string
  {
    "Cannot destructure property '" + key + "' of '" + name + "' as it is " + (if v == JNull then "null" else "undefined") + "."
  }

  // ---------------------------------------------------------------- text

  function DigitChar(d: int): char
    requires 0 <= d < 10
  {
    "0123456789"[d]
  }

  /** Decimal text of a natural number, most significant digit first, no leading zeros. */
  function NatText(n: nat): (t: string)
    ensures |t| >= 1
    ensures forall i :: 0 <= i < |t| ==> '0' <= t[i] <= '9'
    ensures |t| > 1 ==> t[0] != '0'
  {
    if n < 10 then [DigitChar(n)] else NatText(n / 10) + [DigitChar(n % 10)]
  }

  /** The number a decimal text denotes (the partner of `NatText`). */
  function DigitsValue(t: string): nat
    requires forall i :: 0 <= i < |t| ==> '0' <= t[i] <= '9'
  {
    if t == [] then 0 else DigitsValue(t[..|t| - 1]) * 10 + (t[|t| - 1] as int - '0' as int)
  }

  lemma {:induction false} NatTextRoundTrip(n: nat)
    ensures DigitsValue(NatText(n)) == n
  {
    if n >= 10 {
      NatTextRoundTrip(n / 10);
      var t := NatText(n);
      assert t[..|t| - 1] == NatText(n / 10);
    }
  }

  function IntText(n: int): string
  {
    if n < 0 then "-" + NatText(-n) else NatText(n)
  }

  /**
   * `${v}` in a template literal. Integral numbers are written in decimal; other
   * numbers are not rendered digit by digit (see README, Left out).
   */
  function JsText(v: Json): string
    decreases v
  {
    match v
    case JUndefined => "undefined"
    case JNull => "null"
    case JBool(b) => if b then "true" else "false"
    case JNum(n) => NumText(n)
    case JStr(s) => s
    case JArr(items) => JoinItems(v, items)
    case JObj(_) => "[object Object]"
  }

  /** Array-to-string: items joined by ',', with undefined and null items written as ''. */
  function JoinItems(whole: Json, items: seq<Json>): string
    requires whole.JArr? && items == whole.items
    decreases whole, 0, |items|
  {
    if items == [] then ""
    else
      var last := items[|items| - 1];
      var lastText := if IsNullish(last) then "" else JsText(last);
      var init := items[..|items| - 1];
      if init == [] then lastText
      else JoinItemsPrefix(whole, init) + "," + lastText
  }

  function JoinItemsPrefix(whole: Json, init: seq<Json>): string
    requires whole.JArr? && |init| < |whole.items| && init == whole.items[..|init|]
    decreases whole, 0, |init|
  {
    if init == [] then ""
    else
      var last := init[|init| - 1];
      var lastText := if IsNullish(last) then "" else JsText(last);
      var rest := init[..|init| - 1];
      if rest == [] then lastText
      else JoinItemsPrefix(whole, rest) + "," + lastText
  }

  function NumText(n: real): string
  {
    if n == n.Floor as real then IntText(n.Floor) else "<non-integral number>"
  }

  /** The integer `n` with `n / 10` nearest to `x >= 0`, the larger one on a tie. */
  function Round10(x: real): (n: nat)
    requires x >= 0.0
    ensures n as real - 0.5 <= 10.0 * x < n as real + 0.5
  {
    (10.0 * x + 0.5).Floor
  }

  /** The text of `n / 10` with exactly one digit after the point. */
  function TenthsText(n: nat): (t: string)
    ensures |t| >= 3 && t[|t| - 2] == '.'
  {
    NatText(n / 10) + "." + [DigitChar(n % 10)]
  }

  /** `x.toFixed(1)`. */
  function ToFixed1(x: real): string
  {
    if x < 0.0 then "-" + TenthsText(Round10(-x)) else TenthsText(Round10(x))
  }

  /**
   * Reading `x.toFixed(1)` back, for `x >= 0`: its digits with the point removed
   * denote the tenths nearest to `x`, so the text is within 0.05 of `x`.
   */
  lemma ToFixed1Reads(x: real)
    requires x >= 0.0
    ensures var t := ToFixed1(x);
      var digits := t[..|t| - 2] + [t[|t| - 1]];
      && (forall i :: 0 <= i < |digits| ==> '0' <= digits[i] <= '9')
      && var n := DigitsValue(digits);
      && n as real / 10.0 - 0.05 <= x < n as real / 10.0 + 0.05
  {
    var n := Round10(x);
    var t := ToFixed1(x);
    var digits := t[..|t| - 2] + [t[|t| - 1]];
    assert digits == NatText(n / 10) + [DigitChar(n % 10)];
    NatTextRoundTrip(n / 10);
    assert digits[..|digits| - 1] == NatText(n / 10);
  }

  predicate IsPrefix(p: string, s: string)
  {
    |p| <= |s| && s[..|p|] == p
  }

  /** `s.includes(sub)`, scanning from the left. */
  predicate Contains(s: string, sub: string): (c: bool)
    ensures c ==> |sub| <= |s|
    decreases |s|
  {
    IsPrefix(sub, s) || (|s| > 0 && Contains(s[1..], sub))
  }

  /** `Contains` agrees with the reference definition: some window of `s` equals `sub`. */
  lemma ContainsIff(s: string, sub: string)
    ensures Contains(s, sub) <==> exists i :: 0 <= i <= |s| - |sub| && IsPrefix(sub, s[i..])
  {
    if Contains(s, sub) {
      ContainsWitness(s, sub);
    }
    if exists i :: 0 <= i <= |s| - |sub| && IsPrefix(sub, s[i..]) {
      var i :| 0 <= i <= |s| - |sub| && IsPrefix(sub, s[i..]);
      ContainsFromWitness(s, sub, i);
    }
  }

  lemma {:induction false} ContainsWitness(s: string, sub: string)
    requires Contains(s, sub)
    ensures exists i :: 0 <= i <= |s| - |sub| && IsPrefix(sub, s[i..])
  {
    if IsPrefix(sub, s) {
      assert s[0..] == s;
    } else {
      ContainsWitness(s[1..], sub);
      var j :| 0 <= j <= |s| - 1 - |sub| && IsPrefix(sub, s[1..][j..]);
      assert s[1..][j..] == s[j + 1..];
    }
  }

  lemma {:induction false} ContainsFromWitness(s: string, sub: string, i: int)
    requires 0 <= i <= |s| - |sub| && IsPrefix(sub, s[i..])
    ensures Contains(s, sub)
  {
    if i == 0 {
      assert s[i..] == s;
    } else {
      assert s[1..][i - 1..] == s[i..];
      ContainsFromWitness(s[1..], sub, i - 1);
    }
  }

  /** `s.split(c)[0]`: the part of `s` before the first `c`, or all of `s`. */
  function PrefixBefore(s: string, c: char): (r: string)
    ensures IsPrefix(r, s)
    ensures c !in r
    ensures |r| < |s| ==> s[|r|] == c
  {
    if s == [] then []
    else if s[0] == c then []
    else [s[0]] + PrefixBefore(s[1..], c)
  }

  /** The three properties of `PrefixBefore` determine its result. */
  lemma PrefixBeforeUnique(s: string, c: char, r: string)
    requires IsPrefix(r, s) && c !in r && (|r| < |s| ==> s[|r|] == c)
    ensures r == PrefixBefore(s, c)
  {
    var p := PrefixBefore(s, c);
  }
}
