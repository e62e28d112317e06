/** The interface-emulation layer of plur (js/plur/PlurObject.mjs): `plurify` stamps a
    class with its namepath and resets its `implemented` record, `implement` copies an
    interface's abstract placeholders into a class prototype and records the interface,
    and a few lookups read that record back. */
module PlurObject {
  import opened JsModel

  /** `PlurObject.abstractMethod`, the placeholder interfaces assign to their methods. */
  const AbstractMethod: Value := FunctionRef(1)
  /** The `plur/IPlurified` interface constructor every plurified class implements. */
  const IPlurifiedRef: Value := FunctionRef(2)
  const IPlurifiedNamepath: string := "plur/IPlurified"

  /** An interface constructor: its identity, its namepath (`None` when it was never
      plurified) and its prototype object. */
  datatype Interface = Interface(id: nat, namepath: Option<string>, prototype: JsObject)
  {
    function Ref(): Value { FunctionRef(id) }
    /** The key `implemented[iface.namepath]` uses. */
    function Key(): string { Text(namepath) }
  }

  /** What `plurify` does with its third argument. */
  datatype Interfaces = NoInterfaces | OneInterface(iface: Interface) | InterfaceList(list: seq<Interface>)

  /** The second argument of `implementing`: a namepath string or an interface constructor. */
  datatype InterfaceArg = ByNamepath(namepath: string) | ByConstructor(iface: Interface)

  /** The part of a class that `plurify` and `implement` read and write: its own
      `namepath`, its prototype object and its `implemented` record (`None` while the
      class has none). */
  datatype ClassState = ClassState(namepath: Option<string>, prototype: JsObject,
                                   implemented: Option<map<string, Value>>)

  /** `implemented[key]`: `implemented` is a plain object, so keys it does not own
      resolve through `Object.prototype`. */
  function ImplementedEntry(implemented: map<string, Value>, key: string): Value {
    if key in implemented then implemented[key] else Get(ObjectPrototype, key)
  }

  /** `c.implemented[key]` guarded by `typeof c.implemented`: undefined when there is no record. */
  function RecordEntry(implemented: Option<map<string, Value>>, key: string): Value {
    if implemented.None? then Undefined else ImplementedEntry(implemented.value, key)
  }

  // ---------------------------------------------------------------------------
  // Lookups

  /** `implementing(object, iface)`, given the `implemented` record of the object's
      constructor. */
  function Implementing(implemented: Option<map<string, Value>>, iface: InterfaceArg): (r: bool)
    ensures implemented.None? ==> !r
    ensures implemented.Some? && iface.ByNamepath? ==>
              (r <==> ImplementedEntry(implemented.value, iface.namepath) != Undefined)
    ensures implemented.Some? && iface.ByConstructor? ==>
              (r <==> ImplementedEntry(implemented.value, iface.iface.Key()) != Undefined)
  {
    match implemented
    case None => false
    case Some(m) =>
      match iface
      case ByNamepath(s) => TypeOf(ImplementedEntry(m, s)) != "undefined"
      case ByConstructor(i) => TypeOf(ImplementedEntry(m, i.Key())) != "undefined"
  }

  /** `typeof implemented`. */
  function ImplementedTypeOf(implemented: Option<map<string, Value>>): string {
    if implemented.None? then "undefined" else "object"
  }

  /** `isPlurified(o)` as written: it compares `typeof` with 'Object', a string
      `typeof` never yields, so it is false for every object or class. */
  function IsPlurified(implemented: Option<map<string, Value>>): (r: bool)
    ensures !r
  {
    ImplementedTypeOf(implemented) == "Object" &&
    TypeOf(RecordEntry(implemented, IPlurifiedNamepath)) != "undefined"
  }

  /** `isPlurifiedClass(c)` has the same body as `isPlurified`. */
  function IsPlurifiedClass(implemented: Option<map<string, Value>>): (r: bool)
    ensures !r
  {
    IsPlurified(implemented)
  }

  /** The evidently intended check: the record exists and holds `plur/IPlurified`. */
  function IsPlurifiedIntended(implemented: Option<map<string, Value>>): (r: bool)
    ensures r <==> implemented.Some? && ImplementedEntry(implemented.value, IPlurifiedNamepath) != Undefined
  {
    ImplementedTypeOf(implemented) == "object" &&
    TypeOf(RecordEntry(implemented, IPlurifiedNamepath)) != "undefined"
  }

  /** The discrepancy: a class that `plurify` has just stamped is not recognised. */
  lemma IsPlurifiedMissesPlurifiedClass(s: ClassState, np: string)
    requires Stamp(s, np).error.None?
    ensures IsPlurifiedIntended(Stamp(s, np).state.implemented)
    ensures !IsPlurified(Stamp(s, np).state.implemented)
  {
  }

  // ---------------------------------------------------------------------------
  // implement

  /** The keys of an interface prototype that `implement` acts on: own, enumerable
      (visited by `for..in`) and holding the abstract placeholder; in order. */
  function Placeholders(props: seq<Prop>): (keys: seq<string>)
    ensures forall k :: k in keys ==> exists p :: p in props && p.key == k && p.enumerable && p.value == AbstractMethod
  {
    if props == [] then []
    else
      (if props[0].enumerable && props[0].value == AbstractMethod then [props[0].key] else []) +
      Placeholders(props[1..])
  }

  lemma {:induction false} PlaceholdersComplete(props: seq<Prop>, p: Prop)
    requires p in props && p.enumerable && p.value == AbstractMethod
    ensures p.key in Placeholders(props)
  {
    if props[0] != p {
      PlaceholdersComplete(props[1..], p);
    }
  }

  lemma {:induction false} PlaceholdersDistinct(props: seq<Prop>)
    requires UniqueKeys(props)
    ensures Distinct(Placeholders(props))
  {
    if props != [] {
      PlaceholdersDistinct(props[1..]);
      if props[0].enumerable && props[0].value == AbstractMethod {
        assert props[0].key !in Placeholders(props[1..]);
      }
    }
  }

  ghost predicate Distinct(keys: seq<string>) {
    forall i, j :: 0 <= i < j < |keys| ==> keys[i] != keys[j]
  }

  datatype CopyResult = CopyResult(prototype: JsObject, error: Option<Exception>)

  function UnimplementedError(prototype: JsObject, iface: Interface, key: string): Exception {
    var np := Get(prototype, "namepath");
    NativeError(PlainError, "Unimplemented method in " + Text(if np.Str? then Some(np.s) else None) +
                            " for " + Text(iface.namepath) + ".prototype." + key)
  }

  /** The loop of `implement` over the placeholder keys: an undefined slot receives the
      placeholder, a slot already holding the placeholder throws (keeping the copies made
      so far), any other slot is left alone. */
  function CopyPlaceholders(prototype: JsObject, keys: seq<string>, iface: Interface): (r: CopyResult)
    ensures r.prototype.proto == prototype.proto
    ensures |r.prototype.own| >= |prototype.own|
    decreases |keys|
  {
    if keys == [] then CopyResult(prototype, None)
    else
      var k := keys[0];
      var slot := Get(prototype, k);
      if TypeOf(slot) == "undefined" then
        CopyPlaceholders(prototype.(own := SetOwn(prototype.own, k, AbstractMethod)), keys[1..], iface)
      else if slot == AbstractMethod then
        CopyResult(prototype, Some(UnimplementedError(prototype, iface, k)))
      else
        CopyPlaceholders(prototype, keys[1..], iface)
  }

  lemma GetAfterSetOwn(o: JsObject, key: string, v: Value, k: string)
    ensures Get(o.(own := SetOwn(o.own, key, v)), k) == if k == key then v else Get(o, k)
  {
  }

  /** A slot that is defined before the copy is unchanged after it, success or not. */
  lemma {:induction false} CopyKeepsDefinedSlots(prototype: JsObject, keys: seq<string>, iface: Interface, k: string)
    requires Get(prototype, k) != Undefined
    ensures Get(CopyPlaceholders(prototype, keys, iface).prototype, k) == Get(prototype, k)
    decreases |keys|
  {
    if keys != [] && Get(prototype, keys[0]) == Undefined {
      var next := prototype.(own := SetOwn(prototype.own, keys[0], AbstractMethod));
      GetAfterSetOwn(prototype, keys[0], AbstractMethod, k);
      CopyKeepsDefinedSlots(next, keys[1..], iface, k);
    } else if keys != [] && Get(prototype, keys[0]) != AbstractMethod {
      CopyKeepsDefinedSlots(prototype, keys[1..], iface, k);
    }
  }

  /** With distinct keys, the copy throws exactly when some key's slot already holds the
      placeholder; when it does not throw, every undefined slot among the keys holds the
      placeholder and every other slot is as before. */
  lemma {:induction false} CopyPlaceholdersSpec(prototype: JsObject, keys: seq<string>, iface: Interface)
    requires Distinct(keys)
    ensures var c := CopyPlaceholders(prototype, keys, iface);
            (c.error.Some? <==> exists i :: 0 <= i < |keys| && Get(prototype, keys[i]) == AbstractMethod) &&
            (c.error.None? ==>
               forall k :: Get(c.prototype, k) ==
                           if k in keys && Get(prototype, k) == Undefined then AbstractMethod else Get(prototype, k))
    decreases |keys|
  {
    if keys != [] {
      var k0 := keys[0];
      assert Distinct(keys[1..]);
      if Get(prototype, k0) == Undefined {
        var next := prototype.(own := SetOwn(prototype.own, k0, AbstractMethod));
        CopyPlaceholdersSpec(next, keys[1..], iface);
        forall k ensures Get(next, k) == if k == k0 then AbstractMethod else Get(prototype, k) {
          GetAfterSetOwn(prototype, k0, AbstractMethod, k);
        }
        assert forall i :: 1 <= i < |keys| ==> keys[i] != k0 && keys[i] == keys[1..][i - 1];
      } else if Get(prototype, k0) == AbstractMethod {
      } else {
        CopyPlaceholdersSpec(prototype, keys[1..], iface);
        assert forall i :: 1 <= i < |keys| ==> keys[i] == keys[1..][i - 1];
      }
    }
  }

  datatype ImplementResult = ImplementResult(state: ClassState, error: Option<Exception>)

  /** `implement(constructor, iface)`. */
  function ImplementSpec(s: ClassState, iface: Interface): (r: ImplementResult)
    ensures r.state.namepath == s.namepath
    ensures r.state.implemented.Some? <==> s.implemented.Some?
    ensures r.error.Some? ==> r.state.implemented == s.implemented
    ensures r.error.None? ==> Implementing(r.state.implemented, ByConstructor(iface))
  {
    match s.implemented
    case None =>
      ImplementResult(s, Some(NativeError(TypeError, "Cannot read properties of undefined")))
    case Some(m) =>
      if TypeOf(ImplementedEntry(m, iface.Key())) != "undefined" then
        ImplementResult(s, Some(NativeError(PlainError, "Not a valid plur Object.")))
      else
        var c := CopyPlaceholders(s.prototype, Placeholders(iface.prototype.own), iface);
        if c.error.Some? then ImplementResult(s.(prototype := c.prototype), c.error)
        else ImplementResult(s.(prototype := c.prototype, implemented := Some(m[iface.Key() := iface.Ref()])), None)
  }

  /** An interface already in the record is refused before the prototype is touched. */
  lemma ImplementRefusesRecordedInterface(s: ClassState, iface: Interface)
    requires s.implemented.Some? && ImplementedEntry(s.implemented.value, iface.Key()) != Undefined
    ensures ImplementSpec(s, iface) == ImplementResult(s, Some(NativeError(PlainError, "Not a valid plur Object.")))
  {
  }

  /** A successful `implement` records exactly the interface, under its namepath, keeps
      the namepath, and fills the prototype as the copy lemma says; a failed one leaves
      the record alone. */
  lemma ImplementOutcome(s: ClassState, iface: Interface)
    requires UniqueKeys(iface.prototype.own)
    ensures var r := ImplementSpec(s, iface);
            r.state.namepath == s.namepath &&
            (r.error.Some? ==> r.state.implemented == s.implemented) &&
            (r.error.None? ==>
               s.implemented.Some? &&
               r.state.implemented == Some(s.implemented.value[iface.Key() := iface.Ref()]) &&
               Implementing(r.state.implemented, ByConstructor(iface)) &&
               forall k :: Get(r.state.prototype, k) ==
                           if k in Placeholders(iface.prototype.own) && Get(s.prototype, k) == Undefined
                           then AbstractMethod else Get(s.prototype, k))
  {
    if s.implemented.Some? && ImplementedEntry(s.implemented.value, iface.Key()) == Undefined {
      PlaceholdersDistinct(iface.prototype.own);
      CopyPlaceholdersSpec(s.prototype, Placeholders(iface.prototype.own), iface);
    }
  }

  /** Once recorded, an interface cannot be implemented a second time. */
  lemma ImplementTwiceFails(s: ClassState, iface: Interface)
    requires ImplementSpec(s, iface).error.None?
    ensures ImplementSpec(ImplementSpec(s, iface).state, iface).error ==
            Some(NativeError(PlainError, "Not a valid plur Object."))
  {
  }

  // ---------------------------------------------------------------------------
  // plurify

  datatype StampResult = StampResult(state: ClassState, error: Option<Exception>)

  /** The first three statements of `plurify`: the two write-once `namepath` properties
      (a different existing value makes `Object.defineProperty` throw) and the reset of
      `implemented` to the `plur/IPlurified` entry alone. */
  function Stamp(s: ClassState, np: string): (r: StampResult)
    ensures r.error.None? ==> r.state.implemented == Some(map[IPlurifiedNamepath := IPlurifiedRef])
  {
    if s.namepath.Some? && s.namepath.value != np then
      StampResult(s, Some(NativeError(TypeError, "Cannot redefine property: namepath")))
    else
      var s1 := s.(namepath := Some(np));
      match FindOwn(s.prototype.own, "namepath")
      case Some(v) =>
        if v != Str(np) then StampResult(s1, Some(NativeError(TypeError, "Cannot redefine property: namepath")))
        else StampResult(s1.(implemented := Some(map[IPlurifiedNamepath := IPlurifiedRef])), None)
      case None =>
        var proto := s.prototype.(own := s.prototype.own + [Prop("namepath", Str(np), true)]);
        StampResult(s1.(prototype := proto, implemented := Some(map[IPlurifiedNamepath := IPlurifiedRef])), None)
  }

  lemma {:induction false} FindOwnAppend(props: seq<Prop>, p: Prop, k: string)
    ensures FindOwn(props + [p], k) == if FindOwn(props, k).Some? then FindOwn(props, k)
                                       else if p.key == k then Some(p.value) else None
  {
    if props != [] {
      assert (props + [p])[1..] == props[1..] + [p];
      FindOwnAppend(props[1..], p, k);
    }
  }

  /** After a successful stamp both the class and its prototype own `namepath == np`. */
  lemma StampSetsNamepath(s: ClassState, np: string)
    requires Stamp(s, np).error.None?
    ensures Stamp(s, np).state.namepath == Some(np)
    ensures FindOwn(Stamp(s, np).state.prototype.own, "namepath") == Some(Str(np))
  {
    FindOwnAppend(s.prototype.own, Prop("namepath", Str(np), true), "namepath");
  }

  /** The third argument of `plurify` as a list: a single interface is a one-element list. */
  function InterfaceListOf(ifaces: Interfaces): seq<Interface> {
    match ifaces
    case NoInterfaces => []
    case OneInterface(i) => [i]
    case InterfaceList(l) => l
  }

  /** `implement` for each interface in order, stopping at the first that throws. */
  function ImplementAll(s: ClassState, list: seq<Interface>): (r: ImplementResult)
    ensures r.state.namepath == s.namepath
    ensures r.state.implemented.Some? <==> s.implemented.Some?
    ensures s.implemented.None? && list != [] ==> r.error.Some?
    decreases |list|
  {
    if list == [] then ImplementResult(s, None)
    else
      var r := ImplementSpec(s, list[0]);
      if r.error.Some? then r else ImplementAll(r.state, list[1..])
  }

  lemma ImplementAllStep(s: ClassState, list: seq<Interface>)
    requires list != []
    ensures ImplementAll(s, list) ==
            var r := ImplementSpec(s, list[0]);
            if r.error.Some? then r else ImplementAll(r.state, list[1..])
  {
  }

  datatype PlurifyResult = PlurifyResult(state: ClassState, logged: bool, completion: Completion)

  /** `plurify(np, classObject, ifaces)`: whether a record is appended to the plurified
      log, the class's new state, and how the call completes (the namepath when no
      interfaces are given, undefined after implementing them, or the first error). */
  function PlurifySpec(s: ClassState, np: string, ifaces: Interfaces): (r: PlurifyResult)
    ensures r.logged <==> Stamp(s, np).error.None?
    ensures r.logged ==> r.state.namepath == Some(np) && r.state.implemented.Some?
    ensures !r.logged ==> r.completion.Abrupt?
  {
    var st := Stamp(s, np);
    if st.error.Some? then PlurifyResult(st.state, false, Abrupt(st.error.value))
    else if ifaces.NoInterfaces? then PlurifyResult(st.state, true, Normal(Str(np)))
    else
      var r := ImplementAll(st.state, InterfaceListOf(ifaces));
      PlurifyResult(r.state, true, if r.error.Some? then Abrupt(r.error.value) else Normal(Undefined))
  }

  lemma SingleInterfaceIsOneElementList(s: ClassState, np: string, iface: Interface)
    ensures PlurifySpec(s, np, OneInterface(iface)) == PlurifySpec(s, np, InterfaceList([iface]))
  {
  }

  /** Implementing a list keeps the namepath, every defined prototype slot, and every
      entry already in the record; after success every interface of the list is
      recognised by `implementing`. */
  lemma {:induction false} ImplementAllPreserves(s: ClassState, list: seq<Interface>, k: string, key: string)
    requires s.implemented.Some?
    requires Get(s.prototype, k) != Undefined
    requires ImplementedEntry(s.implemented.value, key) != Undefined
    ensures var r := ImplementAll(s, list);
            r.state.namepath == s.namepath &&
            Get(r.state.prototype, k) == Get(s.prototype, k) &&
            r.state.implemented.Some? &&
            ImplementedEntry(r.state.implemented.value, key) == ImplementedEntry(s.implemented.value, key) &&
            (r.error.None? ==> forall i :: 0 <= i < |list| ==> Implementing(r.state.implemented, ByConstructor(list[i])))
    decreases |list|
  {
    if list != [] {
      var iface := list[0];
      var r := ImplementSpec(s, iface);
      var m := s.implemented.value;
      if TypeOf(ImplementedEntry(m, iface.Key())) == "undefined" {
        CopyKeepsDefinedSlots(s.prototype, Placeholders(iface.prototype.own), iface, k);
        if r.error.None? {
          assert key != iface.Key();
          ImplementAllPreserves(r.state, list[1..], k, key);
          ImplementAllPreserves(r.state, list[1..], k, iface.Key());
          assert forall i :: 1 <= i < |list| ==> list[i] == list[1..][i - 1];
        }
      }
    }
  }

  /** A successful `plurify` stamps the namepath on the class and its prototype, keeps
      `plur/IPlurified` in the record and records every given interface. */
  lemma PlurifyOutcome(s: ClassState, np: string, ifaces: Interfaces)
    requires Stamp(s, np).error.None?
    ensures var r := PlurifySpec(s, np, ifaces);
            r.logged &&
            r.state.namepath == Some(np) &&
            Get(r.state.prototype, "namepath") == Str(np) &&
            r.state.implemented.Some? &&
            ImplementedEntry(r.state.implemented.value, IPlurifiedNamepath) == IPlurifiedRef &&
            (r.completion.Normal? ==>
               forall i :: 0 <= i < |InterfaceListOf(ifaces)| ==>
                 Implementing(r.state.implemented, ByConstructor(InterfaceListOf(ifaces)[i])))
  {
    var st := Stamp(s, np).state;
    StampSetsNamepath(s, np);
    ImplementAllPreserves(st, InterfaceListOf(ifaces), "namepath", IPlurifiedNamepath);
  }

  /** A constructor function object that `plurify` and `implement` update in place. */
  class PlurClass {
    var namepath: Option<string>
    var prototype: JsObject
    var implemented: Option<map<string, Value>>

    constructor (prototype: JsObject)
      ensures State() == ClassState(None, prototype, None)
    {
      this.namepath := None;
      this.prototype := prototype;
      this.implemented := None;
    }

    function State(): ClassState
      reads this
    {
      ClassState(namepath, prototype, implemented)
    }
  }

  /** `implement(constructor, iface)`: walks the interface prototype's own properties. */
  method Implement(c: PlurClass, iface: Interface) returns (error: Option<Exception>)
    modifies c
    ensures c.State() == ImplementSpec(old(c.State()), iface).state
    ensures error == ImplementSpec(old(c.State()), iface).error
  {
    if c.implemented.None? {
      return Some(NativeError(TypeError, "Cannot read properties of undefined"));
    }
    if TypeOf(ImplementedEntry(c.implemented.value, iface.Key())) != "undefined" {
      return Some(NativeError(PlainError, "Not a valid plur Object."));
    }
    ghost var start := c.prototype;
    var props := iface.prototype.own;
    var i := 0;
    while i < |props|
      invariant 0 <= i <= |props|
      invariant c.namepath == old(c.namepath) && c.implemented == old(c.implemented)
      invariant CopyPlaceholders(start, Placeholders(props), iface) ==
                CopyPlaceholders(c.prototype, Placeholders(props[i..]), iface)
    {
      assert props[i..][1..] == props[i + 1..] && props[i..][0] == props[i];
      var p := props[i];
      assert Placeholders(props[i..]) ==
             (if p.enumerable && p.value == AbstractMethod then [p.key] else []) + Placeholders(props[i + 1..]);
      if p.enumerable && p.value == AbstractMethod {
        var rest := Placeholders(props[i + 1..]);
        assert ([p.key] + rest)[0] == p.key && ([p.key] + rest)[1..] == rest;
        var slot := Get(c.prototype, p.key);
        if TypeOf(slot) == "undefined" {
          assert CopyPlaceholders(c.prototype, [p.key] + rest, iface) ==
                 CopyPlaceholders(c.prototype.(own := SetOwn(c.prototype.own, p.key, AbstractMethod)), rest, iface);
          c.prototype := c.prototype.(own := SetOwn(c.prototype.own, p.key, AbstractMethod));
        } else if slot == AbstractMethod {
          return Some(UnimplementedError(c.prototype, iface, p.key));
        } else {
          assert CopyPlaceholders(c.prototype, [p.key] + rest, iface) == CopyPlaceholders(c.prototype, rest, iface);
        }
      } else {
        assert Placeholders(props[i..]) == Placeholders(props[i + 1..]);
      }
      i := i + 1;
    }
    c.implemented := Some(c.implemented.value[iface.Key() := iface.Ref()]);
    error := None;
  }

  /** One entry of the plurified log; the timestamp is the caller's clock reading. */
  datatype PlurifiedRecord = PlurifiedRecord(namepath: string, timestamp: int)

  /** The namepath stamp of `plurify`: define `namepath` on the constructor and the
      prototype, then set `implemented` to the one entry for IPlurified. */
  method StampNamepath(c: PlurClass, np: string) returns (error: Option<Exception>)
    modifies c
    ensures c.State() == Stamp(old(c.State()), np).state
    ensures error == Stamp(old(c.State()), np).error
  {
    if c.namepath.Some? && c.namepath.value != np {
      return Some(NativeError(TypeError, "Cannot redefine property: namepath"));
    }
    c.namepath := Some(np);
    match FindOwn(c.prototype.own, "namepath") {
      case Some(v) =>
        if v != Str(np) {
          return Some(NativeError(TypeError, "Cannot redefine property: namepath"));
        }
      case None =>
        c.prototype := c.prototype.(own := c.prototype.own + [Prop("namepath", Str(np), true)]);
    }
    c.implemented := Some(map[IPlurifiedNamepath := IPlurifiedRef]);
    error := None;
  }

  /** The static state of `PlurObject`: the log of plurified classes. */
  class Registry {
    var plurified: seq<PlurifiedRecord>

    constructor ()
      ensures plurified == []
    {
      plurified := [];
    }

    /** `getPlurified()`. */
    function GetPlurified(): seq<PlurifiedRecord>
      reads this
    {
      plurified
    }

    /** `plurify(np, classObject, ifaces)`, with `now` standing for `Date.now()`. */
    method Plurify(np: string, c: PlurClass, ifaces: Interfaces, now: int) returns (r: Completion)
      modifies this, c
      ensures var spec := PlurifySpec(old(c.State()), np, ifaces);
              c.State() == spec.state && r == spec.completion &&
              GetPlurified() == old(GetPlurified()) + (if spec.logged then [PlurifiedRecord(np, now)] else [])
    {
      var e := StampNamepath(c, np);
      if e.Some? {
        return Abrupt(e.value);
      }
      ghost var st := c.State();
      plurified := plurified + [PlurifiedRecord(np, now)];

      if ifaces.NoInterfaces? {
        return Normal(Str(np));
      }
      var list := InterfaceListOf(ifaces);
      var i := 0;
      while i < |list|
        invariant 0 <= i <= |list|
        invariant plurified == old(plurified) + [PlurifiedRecord(np, now)]
        invariant ImplementAll(st, list) == ImplementAll(c.State(), list[i..])
      {
        assert list[i..][1..] == list[i + 1..];
        ImplementAllStep(c.State(), list[i..]);
        var err := Implement(c, list[i]);
        if err.Some? {
          return Abrupt(err.value);
        }
        i := i + 1;
      }
      r := Normal(Undefined);
    }
  }

  /** `values(object)`: the values of the object's own enumerable properties, in
      enumeration order; inherited properties are skipped. */
  method Values(o: JsObject) returns (values: seq<Value>)
    ensures values == EnumerableValues(o.own)
    ensures forall v :: v in values <==> exists i :: 0 <= i < |o.own| && o.own[i].enumerable && o.own[i].value == v
  {
    values := [];
    var i := 0;
    while i < |o.own|
      invariant 0 <= i <= |o.own|
      invariant values == EnumerableValues(o.own[..i])
    {
      assert o.own[..i + 1] == o.own[..i] + [o.own[i]];
      EnumerableValuesAppend(o.own[..i], [o.own[i]]);
      if o.own[i].enumerable {
        values := values + [o.own[i].value];
      }
      i := i + 1;
    }
    assert o.own[..i] == o.own;
    forall v ensures v in values <==> exists i :: 0 <= i < |o.own| && o.own[i].enumerable && o.own[i].value == v {
      EnumerableValuesMembers(o.own, v);
    }
  }
}
