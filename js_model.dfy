/** The slice of JavaScript's value and object model that the plur core relies on:
    primitive values and references compared by strict equality, objects as ordered
    own properties plus an optional prototype, and the errors the core throws. */
module JsModel {

  datatype Option<T> = None | Some(value: T)

  /** A JavaScript value. Objects and functions are references (identity), so the
      datatype's equality is JavaScript's `===` on these values. Numbers are modelled
      as integers. */
  datatype Value =
    | Undefined
    | Null
    | Bool(b: bool)
    | Num(n: int)
    | Str(s: string)
    | ObjectRef(id: nat)
    | FunctionRef(id: nat)

  /** The result of JavaScript's `typeof` operator. */
  function TypeOf(v: Value): (t: string)
    ensures t == "undefined" <==> v == Undefined
    ensures t == "function" <==> v.FunctionRef?
  {
    match v
    case Undefined => "undefined"
    case Null => "object"
    case Bool(_) => "boolean"
    case Num(_) => "number"
    case Str(_) => "string"
    case ObjectRef(_) => "object"
    case FunctionRef(_) => "function"
  }

  /** JavaScript truthiness (`!!v`): exactly undefined, null, false, 0 and the empty
      string are falsy. */
  predicate Truthy(v: Value): (r: bool)
    ensures !r <==> v in {Undefined, Null, Bool(false), Num(0), Str("")}
  {
    match v
    case Undefined => false
    case Null => false
    case Bool(b) => b
    case Num(n) => n != 0
    case Str(s) => s != ""
    case ObjectRef(_) => true
    case FunctionRef(_) => true
  }

  /** `message || fallback` for a message argument; the empty string stands for every
      falsy message, `undefined` included. */
  function OrDefault(message: string, fallback: string): (m: string)
    ensures message != "" ==> m == message
    ensures message == "" ==> m == fallback
  {
    if message == "" then fallback else message
  }

  /** String concatenation of an optional string: `undefined` prints as "undefined". */
  function Text(s: Option<string>): string {
    match s
    case Some(t) => t
    case None => "undefined"
  }

  function StartsWith(s: string, prefix: string): bool {
    |prefix| <= |s| && s[..|prefix|] == prefix
  }

  // ---------------------------------------------------------------------------
  // Objects

  /** An own property: key, value and whether `for..in` visits it. */
  datatype Prop = Prop(key: string, value: Value, enumerable: bool)

  /** An object: its own properties in enumeration order, and its prototype. */
  datatype JsObject = JsObject(own: seq<Prop>, proto: Option<JsObject>)

  /** Own property names are unique in every JavaScript object. */
  ghost predicate UniqueKeys(props: seq<Prop>) {
    forall i, j :: 0 <= i < j < |props| ==> props[i].key != props[j].key
  }

  function FindOwn(props: seq<Prop>, key: string): (r: Option<Value>)
    ensures r.Some? <==> exists i :: 0 <= i < |props| && props[i].key == key
  {
    if props == [] then None
    else if props[0].key == key then Some(props[0].value)
    else FindOwn(props[1..], key)
  }

  /** `o.hasOwnProperty(key)`: only the own properties are consulted. */
  predicate HasOwn(o: JsObject, key: string): (r: bool)
    ensures r <==> exists i :: 0 <= i < |o.own| && o.own[i].key == key
  {
    FindOwn(o.own, key).Some?
  }

  /** `o[key]`: the own property if there is one, else the prototype chain's, else undefined. */
  function Get(o: JsObject, key: string): (v: Value)
    ensures FindOwn(o.own, key).Some? ==> v == FindOwn(o.own, key).value
    ensures v != Undefined ==> FindOwn(o.own, key).Some? || o.proto.Some?
    decreases o
  {
    match FindOwn(o.own, key)
    case Some(v) => v
    case None =>
      match o.proto
      case None => Undefined
      case Some(p) => Get(p, key)
  }

  /** Plain assignment `o[key] = v` on the own properties: an existing own property keeps
      its place and enumerability, a new one is appended as enumerable. */
  function SetOwn(props: seq<Prop>, key: string, v: Value): (r: seq<Prop>)
    ensures FindOwn(r, key) == Some(v)
    ensures forall k :: k != key ==> FindOwn(r, k) == FindOwn(props, k)
    ensures |r| == if FindOwn(props, key).Some? then |props| else |props| + 1
  {
    if props == [] then [Prop(key, v, true)]
    else if props[0].key == key then [props[0].(value := v)] + props[1..]
    else [props[0]] + SetOwn(props[1..], key, v)
  }

  /** The values of the enumerable own properties, in enumeration order. */
  function EnumerableValues(props: seq<Prop>): (values: seq<Value>)
    ensures |values| <= |props|
  {
    if props == [] then []
    else (if props[0].enumerable then [props[0].value] else []) + EnumerableValues(props[1..])
  }

  lemma {:induction false} EnumerableValuesAppend(a: seq<Prop>, b: seq<Prop>)
    ensures EnumerableValues(a + b) == EnumerableValues(a) + EnumerableValues(b)
  {
    if a == [] {
      assert a + b == b;
    } else {
      assert (a + b)[1..] == a[1..] + b;
      EnumerableValuesAppend(a[1..], b);
      var head := if a[0].enumerable then [a[0].value] else [];
      assert EnumerableValues(a + b) == head + (EnumerableValues(a[1..]) + EnumerableValues(b));
      ConcatAssociates(head, EnumerableValues(a[1..]), EnumerableValues(b));
    }
  }

  /** Concatenation is associative; stated once so that proofs can cite the step. */
  lemma ConcatAssociates<T>(a: seq<T>, b: seq<T>, c: seq<T>)
    ensures (a + b) + c == a + (b + c)
  {
  }

  lemma {:induction false} EnumerableValuesMembers(props: seq<Prop>, v: Value)
    ensures v in EnumerableValues(props) <==>
            exists i :: 0 <= i < |props| && props[i].enumerable && props[i].value == v
  {
    if props != [] {
      EnumerableValuesMembers(props[1..], v);
      if v in EnumerableValues(props[1..]) {
        var i :| 0 <= i < |props[1..]| && props[1..][i].enumerable && props[1..][i].value == v;
        assert props[i + 1].enumerable && props[i + 1].value == v;
      }
      if exists i :: 0 <= i < |props| && props[i].enumerable && props[i].value == v {
        var i :| 0 <= i < |props| && props[i].enumerable && props[i].value == v;
        if i > 0 {
          assert props[1..][i - 1] == props[i];
        }
      }
    }
  }

  /** Identities of the built-in functions the model needs to tell apart. */
  const ObjectConstructorId: nat := 10

  /** `Object.prototype`: the non-enumerable members every plain object inherits. */
  const ObjectPrototype: JsObject := JsObject(
    [ Prop("constructor", FunctionRef(ObjectConstructorId), false),
      Prop("hasOwnProperty", FunctionRef(11), false),
      Prop("isPrototypeOf", FunctionRef(12), false),
      Prop("propertyIsEnumerable", FunctionRef(13), false),
      Prop("toString", FunctionRef(14), false),
      Prop("valueOf", FunctionRef(15), false),
      Prop("toLocaleString", FunctionRef(16), false),
      Prop("__defineGetter__", FunctionRef(17), false),
      Prop("__defineSetter__", FunctionRef(18), false),
      Prop("__lookupGetter__", FunctionRef(19), false),
      Prop("__lookupSetter__", FunctionRef(20), false),
      Prop("__proto__", ObjectRef(21), false) ],
    None)

  /** A plain object literal with the given own properties. */
  function PlainObject(own: seq<Prop>): JsObject {
    JsObject(own, Some(ObjectPrototype))
  }

  // ---------------------------------------------------------------------------
  // Errors

  datatype ErrorKind = PlainError | TypeError | ReferenceError | RangeError

  /** The structured payload an AssertionError carries. */
  datatype Payload =
    | NoPayload
    | Condition(result: Value)                              // { result }
    | Comparison(expected: Value, actual: Value)            // { expected, actual }
    | PropertyCheck(propertyName: string, expected: Value, actual: Value)
    | UndefinedProperty(propertyName: string, expected: Value, object: JsObject)
    | Data(data: Value)
    | Cause(cause: Exception)

  /** What a `throw` carries. */
  datatype Exception =
    | AssertionError(message: string, payload: Payload)
    | NativeError(kind: ErrorKind, message: string)
    | Thrown(value: Value)

  /** How a call returns: normally with a value, or by throwing. */
  datatype Completion = Normal(value: Value) | Abrupt(error: Exception)

  /** An assertion either returns normally or throws. */
  datatype Outcome = Pass | Fail(error: Exception)
}
