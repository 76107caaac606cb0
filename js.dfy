/**
 * The parts of JavaScript's dynamic semantics the app's code relies on: undefined next to the
 * JSON values, truthiness (`if (x)`, `a || b`), String() conversion, property reads (which throw
 * on null and undefined), optional chaining, and Object.keys over a parsed JSON value.
 */
module Js {
  import opened Wrappers
  import opened Json

  /** A JavaScript value as this app sees it: undefined, or a value JSON can carry (null included). */
  datatype JsValue = Undefined | Val(json: Json)

  const Null: JsValue := Val(JNull)

  function Str(s: string): JsValue { Val(JStr(s)) }

  /** A thrown exception, by the built-in constructor that made it. */
  datatype JsError =
    | Error(message: string)
    | TypeError(message: string)
    | SyntaxError(message: string)

  /** Reading a property of null or undefined throws a TypeError (the engine's wording varies). */
  const ReadOfNull: JsError := TypeError("Cannot read properties of null")
  const ReadOfUndefined: JsError := TypeError("Cannot read properties of undefined")

  /** JSON.parse of text that is not JSON throws a SyntaxError (the engine's wording varies). */
  const NotJson: JsError := SyntaxError("Unexpected token in JSON")

  /** JSON.parse, as a function that either returns a value or throws. */
  function ParseJson(text: string): (r: Result<Json, JsError>)
    ensures r.Success? <==> Parse(text).Some?
    ensures r.Failure? ==> r.error == NotJson
  {
    match Parse(text)
    case Some(v) => Success(v)
    case None => Failure(NotJson)
  }

  /** JSON.parse(JSON.stringify(v)) returns v and does not throw. */
  lemma ParseJsonOfSerialize(v: Json)
    ensures ParseJson(Serialize(v)) == Success(v)
  {
    ParseOfSerialize(v);
  }

  /** JavaScript truthiness: false, 0, "", null and undefined are falsy; objects and arrays are truthy. */
  predicate Truthy(v: JsValue)
  {
    match v
    case Undefined => false
    case Val(j) =>
      match j
      case JNull => false
      case JBool(b) => b
      case JNum(n) => n != 0
      case JStr(s) => s != ""
      case JArr(_) => true
      case JObj(_) => true
  }

  /** `a || b`: a when a is truthy, otherwise b. */
  function Or(a: JsValue, b: JsValue): (r: JsValue)
    ensures Truthy(a) ==> r == a
    ensures !Truthy(a) ==> r == b
  {
    if Truthy(a) then a else b
  }

  /** String(v): how String() and template literals write a value. */
  function ToStr(v: JsValue): string
  {
    match v
    case Undefined => "undefined"
    case Val(j) => JsonToStr(j)
  }

  function JsonToStr(j: Json): string
    decreases j
  {
    match j
    case JNull => "null"
    case JBool(b) => if b then "true" else "false"
    case JNum(n) => IntToString(n)
    case JStr(s) => s
    case JArr(items) => Join(items)
    case JObj(_) => "[object Object]"
  }

  /** Array.prototype.join(","): null elements are written as the empty string. */
  function Join(items: seq<Json>): string
    decreases items
  {
    if |items| == 0 then ""
    else
      var first := if items[0] == JNull then "" else JsonToStr(items[0]);
      if |items| == 1 then first else first + "," + Join(items[1..])
  }

  /** For null, booleans and numbers, String() and JSON.stringify agree; a string is written as itself. */
  lemma ToStrOfScalar(j: Json)
    requires !j.JArr? && !j.JObj?
    ensures j.JStr? ==> ToStr(Val(j)) == j.s
    ensures !j.JStr? ==> ToStr(Val(j)) == Serialize(j)
  {
  }

  /** The canonical array index a property key names, if it names one ("0", "1", ... but not "01"). */
  function IndexOf(key: string): (r: Option<nat>)
    ensures r.Some? ==> NatToString(r.value) == key
  {
    if |key| > 0 && AllDigits(key) && (key[0] != '0' || |key| == 1) then
      var n := DigitsValue(key);
      NatToStringOfDigits(key);
      Some(n)
    else None
  }

  lemma {:induction false} NatToStringOfDigits(key: string)
    requires |key| > 0 && AllDigits(key) && (key[0] != '0' || |key| == 1)
    ensures NatToString(DigitsValue(key)) == key
    decreases |key|
  {
    var init, last := key[..|key| - 1], key[|key| - 1];
    if |key| > 1 {
      assert init[0] == key[0];
      NatToStringOfDigits(init);
      var n := DigitsValue(key);
      assert n / 10 == DigitsValue(init) && n % 10 == DigitValue(last);
      NatToStringLeadingZero(DigitsValue(init));
      assert init == NatToString(n / 10);
      assert key == init + [last];
    }
  }

  lemma IndexOfNatToString(i: nat)
    ensures IndexOf(NatToString(i)) == Some(i)
  {
    NatToStringLeadingZero(i);
    if NatToString(i)[0] == '0' {
      assert NatToString(i) == "0";
    }
    DigitsValueOfNatToString(i);
  }

  /** The value of the last member named key: JSON.parse keeps the last of duplicated keys. */
  function LastValue(fields: seq<Member>, key: string): (r: Option<Json>)
    ensures r.None? <==> forall i :: 0 <= i < |fields| ==> fields[i].key != key
    ensures r.Some? ==>
      exists i :: 0 <= i < |fields| && fields[i] == Member(key, r.value) &&
        forall j :: i < j < |fields| ==> fields[j].key != key
    decreases |fields|
  {
    if |fields| == 0 then None
    else if fields[|fields| - 1].key == key then Some(fields[|fields| - 1].value)
    else LastValue(fields[..|fields| - 1], key)
  }

  /** data[key] for a parsed JSON value: own members of objects, indices of arrays and strings. */
  function Get(data: Json, key: string): (r: JsValue)
    ensures data.JObj? ==> (r == Undefined <==> forall i :: 0 <= i < |data.fields| ==> data.fields[i].key != key)
    ensures !data.JObj? && !data.JArr? && !data.JStr? ==> r == Undefined
  {
    match data
    case JObj(fields) =>
      (match LastValue(fields, key)
       case Some(v) => Val(v)
       case None => Undefined)
    case JArr(items) =>
      (match IndexOf(key)
       case Some(i) => if i < |items| then Val(items[i]) else Undefined
       case None => Undefined)
    case JStr(s) =>
      (match IndexOf(key)
       case Some(i) => if i < |s| then Str([s[i]]) else Undefined
       case None => Undefined)
    case _ => Undefined
  }

  /** `v.key` on a value known not to be null or undefined; primitives have no own data members here. */
  function Lookup(v: JsValue, key: string): JsValue
  {
    match v
    case Undefined => Undefined
    case Val(j) => Get(j, key)
  }

  /** `v.key`: throws a TypeError on null and undefined. */
  function Prop(v: JsValue, key: string): (r: Result<JsValue, JsError>)
    ensures r.Failure? <==> v == Undefined || v == Null
    ensures r.Success? ==> r.value == Lookup(v, key)
  {
    if v == Undefined then Failure(ReadOfUndefined)
    else if v == Null then Failure(ReadOfNull)
    else Success(Lookup(v, key))
  }

  /** `v?.key`: undefined on null and undefined, the member otherwise; it never throws. */
  function OptionalMember(v: JsValue, key: string): (r: JsValue)
    ensures v == Undefined || v == Null ==> r == Undefined
    ensures Prop(v, key).Success? ==> r == Prop(v, key).value
  {
    if v == Undefined || v == Null then Undefined else Lookup(v, key)
  }

  /** The distinct keys, each at the position of its first occurrence. */
  function Dedup(keys: seq<string>): (r: seq<string>)
    ensures forall k :: k in r <==> k in keys
    ensures forall i, j :: 0 <= i < j < |r| ==> r[i] != r[j]
    decreases |keys|
  {
    if |keys| == 0 then []
    else
      var d := Dedup(keys[..|keys| - 1]);
      var k := keys[|keys| - 1];
      assert keys == keys[..|keys| - 1] + [k];
      if k in d then d else d + [k]
  }

  /**
   * First occurrences keep their order: the distinct keys of every prefix of the list are a
   * prefix of the distinct keys of the whole list.
   */
  lemma {:induction false} DedupKeepsFirstOccurrenceOrder(keys: seq<string>, n: nat)
    requires n <= |keys|
    ensures Dedup(keys[..n]) <= Dedup(keys)
    decreases |keys|
  {
    if n < |keys| {
      var init := keys[..|keys| - 1];
      assert init[..n] == keys[..n];
      DedupKeepsFirstOccurrenceOrder(init, n);
    } else {
      assert keys[..n] == keys;
    }
  }

  function MemberKeys(fields: seq<Member>): (r: seq<string>)
    ensures |r| == |fields| && forall i :: 0 <= i < |fields| ==> r[i] == fields[i].key
  {
    seq(|fields|, i requires 0 <= i < |fields| => fields[i].key)
  }

  function Indices(n: nat): (r: seq<string>)
    ensures |r| == n && forall i :: 0 <= i < n ==> r[i] == NatToString(i)
  {
    seq(n, i requires 0 <= i < n => NatToString(i))
  }

  /**
   * Object.keys of a parsed JSON value: an object's distinct member names in first-occurrence
   * order, the indices of an array or a string, and nothing for the other primitives.
   */
  function Keys(data: Json): seq<string>
  {
    match data
    case JObj(fields) => Dedup(MemberKeys(fields))
    case JArr(items) => Indices(|items|)
    case JStr(s) => Indices(|s|)
    case _ => []
  }

  /** Every key Object.keys lists reads back a defined value; an object lists each member name once. */
  lemma KeysAreDefined(data: Json, k: string)
    requires k in Keys(data)
    ensures Get(data, k) != Undefined
  {
    match data
    case JObj(fields) =>
      var i :| 0 <= i < |fields| && MemberKeys(fields)[i] == k;
      assert fields[i].key == k;
    case JArr(items) =>
      var i :| 0 <= i < |items| && Indices(|items|)[i] == k;
      IndexOfNatToString(i);
    case JStr(s) =>
      var i :| 0 <= i < |s| && Indices(|s|)[i] == k;
      IndexOfNatToString(i);
  }

  lemma KeysOfObject(fields: seq<Member>)
    ensures forall k :: k in Keys(JObj(fields)) <==> exists i :: 0 <= i < |fields| && fields[i].key == k
    ensures forall i, j :: 0 <= i < j < |Keys(JObj(fields))| ==> Keys(JObj(fields))[i] != Keys(JObj(fields))[j]
  {
    var ks := MemberKeys(fields);
    forall k
      ensures k in Keys(JObj(fields)) <==> exists i :: 0 <= i < |fields| && fields[i].key == k
    {
      if k in ks {
        var i :| 0 <= i < |ks| && ks[i] == k;
        assert fields[i].key == k;
      }
      if exists i :: 0 <= i < |fields| && fields[i].key == k {
        var i :| 0 <= i < |fields| && fields[i].key == k;
        assert ks[i] == k;
      }
    }
  }
}
