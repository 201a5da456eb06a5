/** Value coercion: the accessors the controller applies to JsonElement
    values, with each exception they can throw made explicit, and the
    defensive readers built on them (SafeString, the relation label, the
    "set only when it is a Number" field reads). */
module Coercion {
  import opened Wrappers
  import opened Errors
  import opened Json

  // ----- System.Text.Json accessors -----

  /** TryGetProperty: defined on objects only. */
  function TryGetProperty(el: Json, key: string): (r: Result<Option<Json>, Error>)
    ensures r.Success? <==> el.JObj?
    ensures r.Failure? ==> r.error == Access(WrongKind)
    ensures r.Success? ==> r.value == Lookup(el.members, key)
  {
    match el
    case JObj(ms) => Success(Lookup(ms, key))
    case _ => Failure(Access(WrongKind))
  }

  /** GetProperty: like TryGetProperty, but a missing key throws. */
  function GetProperty(el: Json, key: string): (r: Result<Json, Error>)
    ensures r.Success? <==> el.JObj? && Lookup(el.members, key).Some?
    ensures r.Success? ==> Lookup(el.members, key) == Some(r.value)
    ensures el.JObj? && r.Failure? ==> r.error == Access(MissingProperty(key))
    ensures !el.JObj? ==> r == Failure(Access(WrongKind))
  {
    var found :- TryGetProperty(el, key);
    match found
    case Some(v) => Success(v)
    case None => Failure(Access(MissingProperty(key)))
  }

  /** GetInt32: a Number written as an integer within 32 bits. */
  function GetInt32(el: Json): (r: Result<int, Error>)
    ensures r.Success? <==> el.JNum? && Int32Literal(el.num)
    ensures r.Success? ==> Int32Min <= r.value <= Int32Max && Value(el.num) == r.value as real
    ensures r.Failure? ==> r.error == Access(if el.JNum? then NotInt32 else WrongKind)
  {
    match el
    case JNum(n) => if Int32Literal(n) then Success(n.mantissa) else Failure(Access(NotInt32))
    case _ => Failure(Access(WrongKind))
  }

  /** TryGetDecimal: throws on a non-Number, reports false (None) when the
      magnitude does not fit a decimal. */
  function TryGetDecimal(el: Json): (r: Result<Option<real>, Error>)
    ensures r.Success? <==> el.JNum?
    ensures r.Failure? ==> r.error == Access(WrongKind)
    ensures r.Success? ==> (r.value.Some? <==> DecimalRepresentable(el.num))
    ensures r.Success? && r.value.Some? ==>
              r.value.value == Value(el.num) && -(DecimalMax as real) <= r.value.value <= DecimalMax as real
  {
    match el
    case JNum(n) =>
      if DecimalRepresentable(n) then
        DecimalBound(n);
        Success(Some(Value(n)))
      else Success(None)
    case _ => Failure(Access(WrongKind))
  }

  lemma DecimalBound(n: Num)
    requires DecimalRepresentable(n)
    ensures -(DecimalMax as real) <= Value(n) <= DecimalMax as real
  {
    var p := Pow10(n.scale) as real;
    var m := n.mantissa as real;
    assert Abs(n.mantissa) as real <= DecimalMax as real * p;
    assert -(DecimalMax as real) * p <= m <= DecimalMax as real * p;
    assert m / p <= DecimalMax as real by {
      assert m <= DecimalMax as real * p;
    }
    assert -(DecimalMax as real) <= m / p by {
      assert -(DecimalMax as real) * p <= m;
    }
  }

  /** GetString: the contents of a String, null for a Null, throws otherwise. */
  function GetString(el: Json): (r: Result<Option<string>, Error>)
    ensures r.Success? <==> el.JStr? || el.JNull?
    ensures r == Success(None) <==> el.JNull?
    ensures el.JStr? ==> r == Success(Some(el.str))
  {
    match el
    case JStr(s) => Success(Some(s))
    case JNull => Success(None)
    case _ => Failure(Access(WrongKind))
  }

  // ----- defensive readers -----

  /** SafeString: never fails; a String yields its contents, false and null
      yield "", true yields bool.TrueString and anything else its raw text. */
  function SafeString(el: Json): (r: string)
    ensures el.JStr? ==> r == el.str
    ensures r == "" <==> el == JFalse || el == JNull || el == JStr("")
    ensures el.JNum? || el.JArr? || el.JObj? ==> r == Text(el)
  {
    match el
    case JStr(s) => s
    case JFalse => ""
    case JNull => ""
    case JTrue => "True"
    case _ => Text(el)
  }

  /** A relation field is `[id, label]` or `false`; only an array of at least
      two elements yields a label, the SafeString of its second element. */
  function RelationLabel(field: Option<Json>): (r: string)
    ensures field.Some? && field.value.JArr? && |field.value.elems| >= 2 ==>
              r == SafeString(field.value.elems[1])
    ensures !(field.Some? && field.value.JArr? && |field.value.elems| >= 2) ==> r == ""
  {
    match field
    case Some(JArr(es)) => if |es| >= 2 then SafeString(es[1]) else ""
    case _ => ""
  }

  /** The relation shapes the server sends: a pair yields its label, while
      `false`, a one-element array or a missing field yield "". */
  lemma RelationShapes()
    ensures RelationLabel(Some(JArr([IntJson(5), JStr("Alice")]))) == "Alice"
    ensures RelationLabel(Some(JFalse)) == "" && RelationLabel(None) == ""
    ensures RelationLabel(Some(JArr([IntJson(5)]))) == ""
    ensures RelationLabel(Some(JArr([IntJson(5), JFalse]))) == ""
  {
  }

  /** SafeString on a number is the literal's text. */
  lemma SafeStringOfNumbers()
    ensures SafeString(JNum(Num(1250, 2))) == "12.50"
    ensures SafeString(JNum(Num(-5, 2))) == "-0.05"
  {
    assert NumText(Num(1250, 2)) == "12.50" by {
      assert Digits(1250) == "1250" by {
        assert Digits(12) == "12" by { assert Digits(1) == "1"; }
        assert Digits(125) == "125";
      }
      assert ZeroPad("1250", 3) == "1250";
    }
    assert NumText(Num(-5, 2)) == "-0.05" by {
      assert Digits(5) == "5";
      assert ZeroPad("5", 3) == "005" by {
        assert ZeroPad("5", 3) == ZeroPad("05", 3) == ZeroPad("005", 3);
      }
    }
  }

  /** The raw text of a two-element array. */
  lemma PairText(a: Json, b: Json)
    ensures Text(JArr([a, b])) == "[" + Text(a) + "," + Text(b) + "]"
  {
    var es := [a, b];
    var parts := seq(|es|, i requires 0 <= i < |es| => Text(es[i]));
    assert parts == [Text(a), Text(b)];
    assert parts[1..] == [Text(b)];
    assert Join(parts) == Text(a) + "," + Text(b);
  }

  /** SafeString on true and on an array. */
  lemma SafeStringOfOthers()
    ensures SafeString(JTrue) == "True"
    ensures SafeString(JArr([IntJson(3), JStr("V")])) == "[3,\"V\"]"
  {
    PairText(IntJson(3), JStr("V"));
    assert Text(IntJson(3)) == "3" by {
      assert Digits(3) == "3";
      assert ZeroPad("3", 1) == "3";
    }
    assert Text(JStr("V")) == "\"V\"" by {
      assert Escape("V") == "V";
    }
  }

  /** A string property read as `TryGetProperty(key) ? SafeString(el) : ""`. */
  function StringField(ms: seq<(string, Json)>, key: string): string
  {
    match Lookup(ms, key)
    case Some(el) => SafeString(el)
    case None => ""
  }

  /** A property that a Number-guarded GetInt32 reads without throwing. */
  predicate Int32Readable(ms: seq<(string, Json)>, key: string)
  {
    match Lookup(ms, key)
    case Some(JNum(n)) => Int32Literal(n)
    case _ => true
  }

  /** A Number-guarded integer property: its value, or 0 when it is absent or
      not a Number. */
  function Int32Field(ms: seq<(string, Json)>, key: string): int
  {
    match Lookup(ms, key)
    case Some(JNum(n)) => n.mantissa
    case _ => 0
  }

  /** A property that an unguarded TryGetDecimal reads without throwing:
      absent, or a Number. */
  predicate DecimalReadable(ms: seq<(string, Json)>, key: string)
  {
    match Lookup(ms, key)
    case Some(el) => el.JNum?
    case None => true
  }

  /** A decimal property: its value when it is a representable Number,
      otherwise 0. */
  function DecimalField(ms: seq<(string, Json)>, key: string): real
  {
    match Lookup(ms, key)
    case Some(JNum(n)) => if DecimalRepresentable(n) then Value(n) else 0.0
    case _ => 0.0
  }

  /** A boolean property compared against the literal `true`. */
  predicate Flag(ms: seq<(string, Json)>, key: string)
  {
    Lookup(ms, key) == Some(JTrue)
  }

  // ----- arrays -----

  /** Decodes the elements of an array in order, stopping at the first element
      whose decoding throws. */
  function DecodeEach<T>(f: Json -> Result<T, Error>, items: seq<Json>): (r: Result<seq<T>, Error>)
    ensures r.Success? <==> forall i :: 0 <= i < |items| ==> f(items[i]).Success?
    ensures r.Success? ==> |r.value| == |items|
    ensures r.Success? ==> forall i :: 0 <= i < |items| ==> f(items[i]) == Success(r.value[i])
    ensures r.Failure? ==>
              exists i :: (0 <= i < |items| && f(items[i]) == Failure(r.error)
                           && forall k :: 0 <= k < i ==> f(items[k]).Success?)
  {
    if items == [] then Success([])
    else
      match f(items[0])
      case Failure(e) => Failure(e)
      case Success(x) =>
        match DecodeEach(f, items[1..])
        case Failure(e) =>
          assert forall k :: 1 <= k < |items| ==> items[k] == items[1..][k - 1];
          Failure(e)
        case Success(xs) =>
          assert forall k :: 1 <= k < |items| ==> items[k] == items[1..][k - 1];
          Success([x] + xs)
  }

  /** When every earlier element decodes, the first element that throws
      decides the outcome. */
  lemma DecodeEachStopsAt<T>(f: Json -> Result<T, Error>, items: seq<Json>, i: nat)
    requires i < |items| && f(items[i]).Failure?
    requires forall k :: 0 <= k < i ==> f(items[k]).Success?
    ensures DecodeEach(f, items) == Failure(f(items[i]).error)
  {
    var r := DecodeEach(f, items);
    assert r.Failure?;
    var j :| 0 <= j < |items| && f(items[j]) == Failure(r.error) && forall k :: 0 <= k < j ==> f(items[k]).Success?;
    assert j == i;
  }

  /** When every element decodes, the result is exactly their values, in order. */
  lemma DecodeEachAll<T>(f: Json -> Result<T, Error>, items: seq<Json>, values: seq<T>)
    requires |values| == |items|
    requires forall k :: 0 <= k < |items| ==> f(items[k]) == Success(values[k])
    ensures DecodeEach(f, items) == Success(values)
  {
    var r := DecodeEach(f, items);
    assert r.Success?;
    assert r.value == values;
  }
}
