/** The JSON values that System.Text.Json's JsonElement exposes, as a datatype.
    An object keeps its members in document order, so a duplicated key can be
    represented; lookups follow JsonElement and take the LAST member of that name. */
module Json {
  import opened Wrappers

  /** A JSON number literal: `mantissa` written with `scale` digits after the
      decimal point, so `12.50` is Num(1250, 2) and `7` is Num(7, 0). */
  datatype Num = Num(mantissa: int, scale: nat)

  datatype Json =
    | JNull
    | JFalse
    | JTrue
    | JNum(num: Num)
    | JStr(str: string)
    | JArr(elems: seq<Json>)
    | JObj(members: seq<(string, Json)>)

  const Int32Min: int := -0x8000_0000
  const Int32Max: int := 0x7FFF_FFFF
  /** decimal.MaxValue, 2^96 - 1. */
  const DecimalMax: int := 0xFFFF_FFFF_FFFF_FFFF_FFFF_FFFF

  function Pow10(k: nat): (r: nat)
    ensures r >= 1
  {
    if k == 0 then 1 else 10 * Pow10(k - 1)
  }

  function Abs(x: int): nat
  {
    if x < 0 then -x else x
  }

  /** The exact value a literal denotes. */
  function Value(n: Num): real
  {
    n.mantissa as real / Pow10(n.scale) as real
  }

  /** JsonElement.GetInt32 accepts a literal written as an integer that fits in 32 bits. */
  predicate Int32Literal(n: Num)
  {
    n.scale == 0 && Int32Min <= n.mantissa <= Int32Max
  }

  /** JsonElement.TryGetDecimal succeeds when the magnitude fits a .NET decimal. */
  predicate DecimalRepresentable(n: Num)
  {
    Abs(n.mantissa) <= DecimalMax * Pow10(n.scale)
  }

  /** How an `int` argument is serialized: an integer literal. */
  function IntJson(i: int): Json
  {
    JNum(Num(i, 0))
  }

  /** JsonElement.TryGetProperty on an object: the last member named `key`. */
  function Lookup(ms: seq<(string, Json)>, key: string): Option<Json>
  {
    if ms == [] then None
    else if ms[|ms| - 1].0 == key then Some(ms[|ms| - 1].1)
    else Lookup(ms[..|ms| - 1], key)
  }

  /** Lookup finds a member exactly when one has that name, and then it is
      the last such member. */
  lemma {:induction false} LookupLast(ms: seq<(string, Json)>, key: string)
    ensures Lookup(ms, key).None? <==> forall i :: 0 <= i < |ms| ==> ms[i].0 != key
    ensures Lookup(ms, key).Some? ==>
              exists i :: (0 <= i < |ms| && ms[i] == (key, Lookup(ms, key).value)
                           && forall k :: i < k < |ms| ==> ms[k].0 != key)
  {
    if ms != [] && ms[|ms| - 1].0 != key {
      var init := ms[..|ms| - 1];
      LookupLast(init, key);
      assert forall i :: 0 <= i < |init| ==> init[i] == ms[i];
      if Lookup(ms, key).Some? {
        var i :| 0 <= i < |init| && init[i] == (key, Lookup(init, key).value)
                 && forall k :: i < k < |init| ==> init[k].0 != key;
        assert ms[i] == (key, Lookup(ms, key).value);
      }
    }
  }

  // ----- raw text -----

  function DigitChar(d: nat): char
    requires d < 10
  {
    "0123456789"[d]
  }

  /** Decimal digits of a natural number, most significant first. */
  function Digits(n: nat): (r: string)
    ensures |r| > 0
    ensures forall i :: 0 <= i < |r| ==> '0' <= r[i] <= '9'
  {
    if n < 10 then [DigitChar(n)] else Digits(n / 10) + [DigitChar(n % 10)]
  }

  function ZeroPad(s: string, width: nat): (r: string)
    ensures |r| >= width && |r| >= |s|
    decreases width - |s|
  {
    if |s| >= width then s else ZeroPad("0" + s, width)
  }

  /** The literal's text: sign, integer digits and, when scale > 0, a point
      followed by exactly `scale` fraction digits (12.50, 0.05, -3). */
  function NumText(n: Num): string
  {
    var d := ZeroPad(Digits(Abs(n.mantissa)), n.scale + 1);
    var cut := |d| - n.scale;
    (if n.mantissa < 0 then "-" else "")
      + d[..cut]
      + (if n.scale == 0 then "" else "." + d[cut..])
  }

  /** String contents with `"` and `\` escaped. */
  function Escape(s: string): string
  {
    if s == [] then ""
    else (if s[0] == '"' then "\\\"" else if s[0] == '\\' then "\\\\" else [s[0]]) + Escape(s[1..])
  }

  function Join(parts: seq<string>): string
  {
    if |parts| == 0 then ""
    else if |parts| == 1 then parts[0]
    else parts[0] + "," + Join(parts[1..])
  }

  /** The text of a value in compact form, standing for the document text
      that JsonElement.ToString returns for numbers, arrays and objects. */
  function Text(j: Json): (r: string)
    ensures r != ""
  {
    match j
    case JNull => "null"
    case JFalse => "false"
    case JTrue => "true"
    case JNum(n) => NumText(n)
    case JStr(s) => "\"" + Escape(s) + "\""
    case JArr(es) =>
      "[" + Join(seq(|es|, i requires 0 <= i < |es| => Text(es[i]))) + "]"
    case JObj(ms) =>
      "{" + Join(seq(|ms|, i requires 0 <= i < |ms| => "\"" + Escape(ms[i].0) + "\":" + Text(ms[i].1))) + "}"
  }
}
