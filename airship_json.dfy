/**
 * The `AirshipJSON` value type: a JSON tree, its conversion to and from
 * Foundation's untyped values (`unWrap`, `wrap`) and the nil shortcuts of
 * the `from` constructors.
 */
module AirshipJson {
  import opened Wrappers

  /** The `Double` carried by `.number`, kept as its 64-bit pattern: nothing here depends on float arithmetic. */
  datatype Double = Double(bits: bv64)

  datatype Json =
    | String(str: string)
    | Number(num: Double)
    | Object(fields: map<string, Json>)
    | Array(elements: seq<Json>)
    | Bool(flag: bool)
    | Null

  /**
   * Swift's `Any?` restricted to what `wrap` accepts and `unWrap` produces;
   * `Unsupported` stands for a value of any other kind (a `Date`, a custom
   * class, ...). `NumberValue` and `BoolValue` stand for a bridged
   * `NSNumber` already told apart by its `CFBoolean` type id.
   */
  datatype AnyValue =
    | Nil
    | StringValue(str: string)
    | NumberValue(num: Double)
    | BoolValue(flag: bool)
    | ArrayValue(items: seq<AnyValue>)
    | DictValue(entries: map<string, AnyValue>)
    | Unsupported

  datatype JsonError = InvalidJson | DecodingFailed

  /** The elements of `s` that are not nil, in their original order. */
  function DropNils(s: seq<AnyValue>): (r: seq<AnyValue>)
    ensures |r| <= |s|
    ensures forall x :: x in r <==> x in s && x != Nil
  {
    if s == [] then []
    else (if s[0] == Nil then [] else [s[0]]) + DropNils(s[1..])
  }

  /** `unWrap`: null becomes nil; array elements and object members that unwrap to nil are dropped. */
  function UnWrap(j: Json): (r: AnyValue)
    ensures r == Nil <==> j.Null?
  {
    match j
    case String(s) => StringValue(s)
    case Number(n) => NumberValue(n)
    case Bool(b) => BoolValue(b)
    case Null => Nil
    case Object(fields) =>
      // assigning nil through a dictionary subscript removes the key
      DictValue(map k | k in fields && UnWrap(fields[k]) != Nil :: UnWrap(fields[k]))
    case Array(elements) =>
      ArrayValue(DropNils(seq(|elements|, i requires 0 <= i < |elements| => UnWrap(elements[i]))))
  }

  /** `wrap`: builds a JSON tree, failing with `InvalidJson` when the value or any child of it is unsupported. */
  function Wrap(v: AnyValue): (r: Result<Json, JsonError>)
    ensures r.Failure? ==> r.error == InvalidJson
  {
    match v
    case Nil => Success(Null)
    case StringValue(s) => Success(String(s))
    case NumberValue(n) => Success(Number(n))
    case BoolValue(b) => Success(Bool(b))
    case ArrayValue(items) =>
      if forall i | 0 <= i < |items| :: Wrap(items[i]).Success? then
        Success(Array(seq(|items|, i requires 0 <= i < |items| => Wrap(items[i]).value)))
      else Failure(InvalidJson)
    case DictValue(entries) =>
      if forall k | k in entries :: Wrap(entries[k]).Success? then
        Success(Object(map k | k in entries :: Wrap(entries[k]).value))
      else Failure(InvalidJson)
    case Unsupported => Failure(InvalidJson)
  }

  /**
   * `from(json:)`: nil text is `.null` and the decoder is not consulted;
   * otherwise the text is handed to the decoder, a foreign call given here
   * as a parameter.
   */
  function FromJson(json: Option<string>, decode: string -> Result<Json, JsonError>): (r: Result<Json, JsonError>)
    ensures json.None? ==> r == Success(Null)
    ensures json.Some? ==> r == decode(json.value)
  {
    match json
    case None => Success(Null)
    case Some(text) => decode(text)
  }

  /** `from(data:)`: the same shortcut for nil bytes. */
  function FromData(data: Option<seq<bv8>>, decode: seq<bv8> -> Result<Json, JsonError>): (r: Result<Json, JsonError>)
    ensures data.None? ==> r == Success(Null)
    ensures data.Some? ==> r == decode(data.value)
  {
    match data
    case None => Success(Null)
    case Some(bytes) => decode(bytes)
  }

  /** No null below the top level: `unWrap` then loses nothing. */
  ghost predicate NoNestedNull(j: Json) {
    match j
    case Object(fields) => forall k | k in fields :: !fields[k].Null? && NoNestedNull(fields[k])
    case Array(elements) => forall i | 0 <= i < |elements| :: !elements[i].Null? && NoNestedNull(elements[i])
    case _ => true
  }

  /** A value `wrap` accepts and that has no nil below the top level. */
  ghost predicate Plain(v: AnyValue) {
    match v
    case Unsupported => false
    case ArrayValue(items) => forall i | 0 <= i < |items| :: items[i] != Nil && Plain(items[i])
    case DictValue(entries) => forall k | k in entries :: entries[k] != Nil && Plain(entries[k])
    case _ => true
  }

  /** Some part of the value, at any depth, is of a kind `wrap` rejects. */
  ghost predicate HasUnsupported(v: AnyValue) {
    match v
    case Unsupported => true
    case ArrayValue(items) => exists i | 0 <= i < |items| :: HasUnsupported(items[i])
    case DictValue(entries) => exists k | k in entries :: HasUnsupported(entries[k])
    case _ => false
  }

  lemma UnWrapScalars(s: string, n: Double, b: bool)
    ensures UnWrap(Null) == Nil
    ensures UnWrap(String(s)) == StringValue(s)
    ensures UnWrap(Number(n)) == NumberValue(n)
    ensures UnWrap(Bool(b)) == BoolValue(b)
  {
  }

  /** Dropping nils distributes over concatenation: the kept elements stay in order. */
  lemma {:induction false} DropNilsAppend(a: seq<AnyValue>, b: seq<AnyValue>)
    ensures DropNils(a + b) == DropNils(a) + DropNils(b)
  {
    if a == [] {
      assert a + b == b;
    } else {
      assert (a + b)[1..] == a[1..] + b;
      DropNilsAppend(a[1..], b);
    }
  }

  lemma {:induction false} DropNilsNoNil(s: seq<AnyValue>)
    requires forall i | 0 <= i < |s| :: s[i] != Nil
    ensures DropNils(s) == s
  {
    if s != [] {
      DropNilsNoNil(s[1..]);
    }
  }

  /** Unwrapping an array drops exactly the nulls and keeps the other elements in order. */
  lemma {:induction false} UnWrapArrayKeepsOrder(a: seq<Json>, b: seq<Json>)
    ensures UnWrap(Array(a + b)).items == UnWrap(Array(a)).items + UnWrap(Array(b)).items
    ensures |UnWrap(Array(a)).items| <= |a|
  {
    var ua := seq(|a|, i requires 0 <= i < |a| => UnWrap(a[i]));
    var ub := seq(|b|, i requires 0 <= i < |b| => UnWrap(b[i]));
    var ab := a + b;
    assert seq(|ab|, i requires 0 <= i < |ab| => UnWrap(ab[i])) == ua + ub;
    DropNilsAppend(ua, ub);
  }

  /** Unwrapping an object keeps exactly the keys whose values are not null. */
  lemma UnWrapObjectKeys(fields: map<string, Json>)
    ensures UnWrap(Object(fields)).entries.Keys == set k | k in fields && !fields[k].Null?
    ensures UnWrap(Object(fields)).entries.Keys <= fields.Keys
  {
  }

  lemma WrapScalars(s: string)
    ensures Wrap(Nil) == Success(Null)
    ensures Wrap(StringValue(s)) == Success(String(s))
  {
  }

  /** `wrap` of an array maps element-wise; of a dictionary keeps its keys and wraps each value. */
  lemma WrapContainers(items: seq<AnyValue>, entries: map<string, AnyValue>)
    ensures Wrap(ArrayValue(items)).Success? ==>
      var elements := Wrap(ArrayValue(items)).value.elements;
      |elements| == |items| && forall i | 0 <= i < |items| :: Wrap(items[i]) == Success(elements[i])
    ensures Wrap(DictValue(entries)).Success? ==>
      var fields := Wrap(DictValue(entries)).value.fields;
      fields.Keys == entries.Keys && forall k | k in entries :: Wrap(entries[k]) == Success(fields[k])
  {
  }

  /** `wrap` throws exactly when some part of the value, at any depth, is unsupported. */
  lemma {:induction false} WrapFailsIffUnsupported(v: AnyValue)
    ensures Wrap(v).Failure? <==> HasUnsupported(v)
  {
    match v
    case ArrayValue(items) =>
      forall i | 0 <= i < |items| ensures Wrap(items[i]).Failure? <==> HasUnsupported(items[i]) {
        WrapFailsIffUnsupported(items[i]);
      }
    case DictValue(entries) =>
      forall k | k in entries ensures Wrap(entries[k]).Failure? <==> HasUnsupported(entries[k]) {
        WrapFailsIffUnsupported(entries[k]);
      }
    case _ =>
  }

  /** Wrapping what `unWrap` produced gives back the tree, when no null sits below the top. */
  lemma {:induction false} WrapUnWrap(j: Json)
    requires NoNestedNull(j)
    ensures Wrap(UnWrap(j)) == Success(j)
  {
    match j
    case Object(fields) =>
      forall k | k in fields ensures Wrap(UnWrap(fields[k])) == Success(fields[k]) {
        WrapUnWrap(fields[k]);
      }
      var entries := UnWrap(j).entries;
      assert entries.Keys == fields.Keys;
      assert forall k | k in entries :: entries[k] == UnWrap(fields[k]);
      assert forall k | k in entries :: Wrap(entries[k]).Success?;
      assert (map k | k in entries :: Wrap(entries[k]).value) == fields;
      assert UnWrap(j) == DictValue(entries);
      var wrapped := map k | k in entries :: Wrap(entries[k]).value;
      assert wrapped == fields;
      assert Wrap(DictValue(entries)) == Success(Object(wrapped));
    case Array(elements) =>
      var us := seq(|elements|, i requires 0 <= i < |elements| => UnWrap(elements[i]));
      DropNilsNoNil(us);
      forall i | 0 <= i < |elements| ensures Wrap(us[i]) == Success(elements[i]) {
        WrapUnWrap(elements[i]);
      }
      var items := UnWrap(j).items;
      assert items == us;
      assert seq(|items|, i requires 0 <= i < |items| => Wrap(items[i]).value) == elements;
    case _ =>
  }

  /** Unwrapping what `wrap` built gives back the value, when it is supported and has no nested nil. */
  lemma {:induction false} UnWrapWrap(v: AnyValue)
    requires Plain(v)
    ensures Wrap(v).Success? && UnWrap(Wrap(v).value) == v
  {
    match v
    case ArrayValue(items) =>
      forall i | 0 <= i < |items| ensures Wrap(items[i]).Success? && UnWrap(Wrap(items[i]).value) == items[i] {
        UnWrapWrap(items[i]);
      }
      var elements := Wrap(v).value.elements;
      var us := seq(|elements|, i requires 0 <= i < |elements| => UnWrap(elements[i]));
      assert us == items;
      DropNilsNoNil(us);
    case DictValue(entries) =>
      forall k | k in entries ensures Wrap(entries[k]).Success? && UnWrap(Wrap(entries[k]).value) == entries[k] {
        UnWrapWrap(entries[k]);
      }
      var fields := Wrap(v).value.fields;
      assert UnWrap(Wrap(v).value).entries == entries;
    case _ =>
  }
}
