/** The test base class of plur (js/plur/test/Test.mjs): raise-or-return assertion
    primitives, and the per-instance bookkeeping of expected and observed event
    emissions and of registered pending work. */
module PlurTest {
  import opened JsModel

  // ---------------------------------------------------------------------------
  // Assertion primitives. Each either returns normally (Pass) or throws (Fail).

  /** `assert(test, message)`: throws iff the condition is falsy. */
  function Assert(test: Value, message: string): (r: Outcome)
    ensures r.Pass? <==> Truthy(test)
    ensures r.Fail? ==> r.error == AssertionError(OrDefault(message, "Assertion failed"), Condition(test))
  {
    if !Truthy(test) then Fail(AssertionError(OrDefault(message, "Assertion failed"), Condition(test)))
    else Pass
  }

  /** `assertEquals(actual, expected, message)`: strict equality, no coercion. */
  function AssertEquals(actual: Value, expected: Value, message: string): (r: Outcome)
    ensures r.Pass? <==> actual == expected
    ensures r.Fail? ==> r.error.AssertionError? && r.error.payload == Comparison(expected, actual)
    ensures r.Fail? ==> r.error.message == OrDefault(message, "Values are not strictly equal")
  {
    if actual != expected then
      Fail(AssertionError(OrDefault(message, "Values are not strictly equal"), Comparison(expected, actual)))
    else Pass
  }

  /** `assertOwns(object, propertyName, expected, message)`; `None` is an undefined object. */
  function AssertOwns(obj: Option<JsObject>, propertyName: string, expected: Value, message: string): (r: Outcome)
    ensures r.Pass? <==> obj.Some? && FindOwn(obj.value.own, propertyName) == Some(expected)
    ensures obj.None? ==> r == Fail(AssertionError(OrDefault(message, "Actual object is undefined"),
                                                   PropertyCheck(propertyName, expected, Str("undefined"))))
    ensures obj.Some? && !HasOwn(obj.value, propertyName) ==>
              r == Fail(AssertionError(OrDefault(message, "Object does not own property"),
                                       PropertyCheck(propertyName, expected, Get(obj.value, propertyName))))
    ensures obj.Some? && HasOwn(obj.value, propertyName) && r.Fail? ==>
              r.error == AssertionError(OrDefault(message, "Object does not own property"),
                                        Comparison(expected, Get(obj.value, propertyName)))
  {
    match obj
    case None =>
      Fail(AssertionError(OrDefault(message, "Actual object is undefined"),
                          PropertyCheck(propertyName, expected, Str("undefined"))))
    case Some(o) =>
      if !HasOwn(o, propertyName) then
        Fail(AssertionError(OrDefault(message, "Object does not own property"),
                            PropertyCheck(propertyName, expected, Get(o, propertyName))))
      else
        AssertEquals(Get(o, propertyName), expected, OrDefault(message, "Object does not own property"))
  }

  /** `assertHas(object, propertyName, expected, message)`: the property may be inherited;
      an undefined `expected` checks existence only. */
  function AssertHas(obj: Option<JsObject>, propertyName: string, expected: Value, message: string): (r: Outcome)
    ensures r.Pass? <==> obj.Some? && Get(obj.value, propertyName) != Undefined &&
                         (expected == Undefined || Get(obj.value, propertyName) == expected)
    ensures obj.None? ==> r == Fail(AssertionError(OrDefault(message, "Object is undefined"),
                                                   PropertyCheck(propertyName, expected, Str("undefined"))))
    ensures obj.Some? && Get(obj.value, propertyName) == Undefined ==>
              r == Fail(AssertionError(OrDefault(message, "Object property is undefined"),
                                       UndefinedProperty(propertyName, expected, obj.value)))
    ensures obj.Some? && Get(obj.value, propertyName) != Undefined && r.Fail? ==>
              r.error == AssertionError(OrDefault(message, "Values are not strictly equal"),
                                        Comparison(expected, Get(obj.value, propertyName)))
  {
    match obj
    case None =>
      Fail(AssertionError(OrDefault(message, "Object is undefined"),
                          PropertyCheck(propertyName, expected, Str("undefined"))))
    case Some(o) =>
      if Get(o, propertyName) == Undefined then
        Fail(AssertionError(OrDefault(message, "Object property is undefined"),
                            UndefinedProperty(propertyName, expected, o)))
      else if expected != Undefined && Get(o, propertyName) != expected then
        AssertEquals(Get(o, propertyName), expected, message)
      else Pass
  }

  /** `fail(message, data)`: always throws. */
  function FailWith(message: string, data: Value): (r: Outcome)
    ensures r.Fail? && r.error == AssertionError(OrDefault(message, "Assertion failed"), Data(data))
  {
    Fail(AssertionError(OrDefault(message, "Assertion failed"), Data(data)))
  }

  /** `assertTry(callback, message)`, the callback given by how its call completes:
      its result passes through, a throw is wrapped with the thrown error as cause. */
  function AssertTry(callback: Completion, message: string): (r: Completion)
    ensures callback.Normal? ==> r == callback
    ensures callback.Abrupt? ==> r == Abrupt(AssertionError(message, Cause(callback.error)))
  {
    match callback
    case Normal(v) => Normal(v)
    case Abrupt(e) => Abrupt(AssertionError(message, Cause(e)))
  }

  /** `assertCatch(callback, message)` as written: the AssertionError thrown after a
      normal callback is caught by the same handler that catches the callback's own
      throw, so the call returns `undefined` in both cases. */
  function AssertCatch(callback: Completion, message: string): (r: Completion)
    ensures r == Normal(Undefined)
  {
    var afterTry := match callback
      case Normal(_) => Abrupt(AssertionError(message, NoPayload))
      case Abrupt(e) => Abrupt(e);
    // the handler swallows whatever the try block threw
    match afterTry
    case Normal(v) => Normal(v)
    case Abrupt(_) => Normal(Undefined)
  }

  /** The evidently intended `assertCatch`: throw iff the callback did not throw. */
  function AssertCatchIntended(callback: Completion, message: string): (r: Outcome)
    ensures r.Pass? <==> callback.Abrupt?
    ensures r.Fail? ==> r.error == AssertionError(message, NoPayload)
  {
    if callback.Normal? then Fail(AssertionError(message, NoPayload)) else Pass
  }

  /** The discrepancy: a callback that returns normally is accepted by `assertCatch`
      although it is exactly the case the assertion exists to reject. */
  lemma AssertCatchAcceptsNormalCallback(v: Value, message: string)
    ensures AssertCatch(Normal(v), message).Normal?
    ensures AssertCatchIntended(Normal(v), message).Fail?
  {
  }

  /** Owning a property with a defined expected value implies having it. */
  lemma OwnsImpliesHas(obj: Option<JsObject>, propertyName: string, expected: Value, m1: string, m2: string)
    requires AssertOwns(obj, propertyName, expected, m1).Pass?
    requires expected != Undefined
    ensures AssertHas(obj, propertyName, expected, m2).Pass?
  {
    OwnValueIsValue(obj.value, propertyName);
  }

  lemma OwnValueIsValue(o: JsObject, key: string)
    requires HasOwn(o, key)
    ensures Get(o, key) == FindOwn(o.own, key).value
  {
  }

  /** An inherited, defined property satisfies `assertHas` but not `assertOwns`. */
  lemma InheritedPropertyHasButNotOwns(own: seq<Prop>, parent: JsObject, propertyName: string, m: string)
    requires FindOwn(own, propertyName).None?
    requires Get(parent, propertyName) != Undefined
    ensures AssertHas(Some(JsObject(own, Some(parent))), propertyName, Get(parent, propertyName), m).Pass?
    ensures AssertOwns(Some(JsObject(own, Some(parent))), propertyName, Get(parent, propertyName), m).Fail?
  {
  }

  // ---------------------------------------------------------------------------
  // Emission bookkeeping

  /** The first registered event type, in registration order, whose observed count
      differs from the expected one, reported as `assertEquals` reports it. */
  function Reconcile(order: seq<string>, expected: map<string, int>, actual: map<string, int>): (r: Outcome)
    requires forall t :: t in order ==> t in expected && t in actual
    ensures r.Fail? ==> r.error.AssertionError? && r.error.payload.Comparison? &&
                        r.error.payload.expected != r.error.payload.actual
  {
    if order == [] then Pass
    else
      var t := order[0];
      match AssertEquals(Num(actual[t]), Num(expected[t]), "Incorrect emission count for event type: " + t)
      case Fail(e) => Fail(e)
      case Pass => Reconcile(order[1..], expected, actual)
  }

  lemma {:induction false} ReconcilePassIff(order: seq<string>, expected: map<string, int>, actual: map<string, int>)
    requires forall t :: t in order ==> t in expected && t in actual
    ensures Reconcile(order, expected, actual).Pass? <==>
            forall i :: 0 <= i < |order| ==> actual[order[i]] == expected[order[i]]
  {
    if order != [] {
      ReconcilePassIff(order[1..], expected, actual);
      assert forall i :: 1 <= i < |order| ==> order[i] == order[1..][i - 1];
    }
  }

  /** One instance of the test class: `namepathPrefix`, the pending-work list, the
      two emission maps, and the counters it has subscribed to its event emitter. */
  class TestCase {
    const namepathPrefix: string
    var promises: seq<Value>
    var expectedEmissions: map<string, int>
    var actualEmissions: map<string, int>
    /** The keys of `expectedEmissions` in the order `for..in` visits them. */
    var eventOrder: seq<string>
    /** The event type of each counter subscribed to the emitter, in subscription order. */
    var subscriptions: seq<string>

    ghost predicate Valid()
      reads this
    {
      expectedEmissions.Keys == actualEmissions.Keys &&
      (forall t :: t in expectedEmissions <==> t in eventOrder) &&
      (forall i, j :: 0 <= i < j < |eventOrder| ==> eventOrder[i] != eventOrder[j]) &&
      (forall t :: t in subscriptions ==> t in actualEmissions)
    }

    /** The constructor, where `namepath` is the `namepath` the instance sees through its
        prototype chain: its own class's when that class was plurified, otherwise the
        nearest plurified ancestor's, at the latest "plur/test/Test", under which the base
        class itself is plurified. */
    constructor (namepath: string)
      ensures Valid()
      ensures namepathPrefix == namepath + "."
      ensures promises == [] && expectedEmissions == map[] && actualEmissions == map[]
      ensures eventOrder == [] && subscriptions == []
    {
      namepathPrefix := namepath + ".";
      promises := [];
      expectedEmissions := map[];
      actualEmissions := map[];
      eventOrder := [];
      subscriptions := [];
    }

    /** `emit(suffix)`: the emitter runs every counter subscribed to the qualified type,
        each adding one to its observed count. */
    method Emit(eventTypeSuffix: string)
      requires Valid()
      modifies this`actualEmissions
      ensures Valid()
      ensures var t := namepathPrefix + eventTypeSuffix;
              actualEmissions == if t in old(actualEmissions)
                                 then old(actualEmissions)[t := old(actualEmissions)[t] + multiset(subscriptions)[t]]
                                 else old(actualEmissions)
    {
      var t := namepathPrefix + eventTypeSuffix;
      if t !in actualEmissions {
        assert multiset(subscriptions)[t] == 0;
        return;
      }
      ghost var counted := 0;
      var i := 0;
      while i < |subscriptions|
        invariant 0 <= i <= |subscriptions|
        invariant counted == multiset(subscriptions[..i])[t]
        invariant actualEmissions == old(actualEmissions)[t := old(actualEmissions)[t] + counted]
      {
        assert subscriptions[..i + 1] == subscriptions[..i] + [subscriptions[i]];
        if subscriptions[i] == t {
          UpdateTwice(old(actualEmissions), t, old(actualEmissions)[t] + counted, old(actualEmissions)[t] + counted + 1);
          actualEmissions := actualEmissions[t := actualEmissions[t] + 1];
          counted := counted + 1;
        }
        i := i + 1;
      }
      assert subscriptions[..i] == subscriptions;
    }

    /** `assertEmission(suffix, count)`: expect `count` emissions of the qualified type,
        reset its observed count and subscribe one more counter to it. */
    method AssertEmission(eventTypeSuffix: string, expectedCount: int)
      requires Valid()
      modifies this`expectedEmissions, this`actualEmissions, this`eventOrder, this`subscriptions
      ensures Valid()
      ensures var t := namepathPrefix + eventTypeSuffix;
              expectedEmissions == old(expectedEmissions)[t := expectedCount] &&
              actualEmissions == old(actualEmissions)[t := 0] &&
              subscriptions == old(subscriptions) + [t] &&
              eventOrder == if t in old(expectedEmissions) then old(eventOrder) else old(eventOrder) + [t]
    {
      var t := namepathPrefix + eventTypeSuffix;
      if t !in expectedEmissions {
        eventOrder := eventOrder + [t];
      }
      expectedEmissions := expectedEmissions[t := expectedCount];
      actualEmissions := actualEmissions[t := 0];
      subscriptions := subscriptions + [t];
    }

    /** `assertExpectedEmissions()`: passes iff every registered event type was observed
        exactly as often as expected; otherwise fails on the first mismatch in
        registration order. Changes nothing. */
    method AssertExpectedEmissions() returns (r: Outcome)
      requires Valid()
      ensures r == Reconcile(eventOrder, expectedEmissions, actualEmissions)
      ensures r.Pass? <==> forall t :: t in expectedEmissions ==> actualEmissions[t] == expectedEmissions[t]
    {
      var i := 0;
      while i < |eventOrder|
        invariant 0 <= i <= |eventOrder|
        invariant Reconcile(eventOrder, expectedEmissions, actualEmissions) ==
                  Reconcile(eventOrder[i..], expectedEmissions, actualEmissions)
      {
        var t := eventOrder[i];
        assert eventOrder[i..][1..] == eventOrder[i + 1..];
        var check := AssertEquals(Num(actualEmissions[t]), Num(expectedEmissions[t]),
                                  "Incorrect emission count for event type: " + t);
        if check.Fail? {
          r := check;
          EmissionsMismatchAt(i);
          return;
        }
        i := i + 1;
      }
      r := Pass;
      ReconcilePassIff(eventOrder, expectedEmissions, actualEmissions);
    }

    lemma EmissionsMismatchAt(i: nat)
      requires Valid() && i < |eventOrder|
      requires actualEmissions[eventOrder[i]] != expectedEmissions[eventOrder[i]]
      ensures Reconcile(eventOrder, expectedEmissions, actualEmissions).Fail?
      ensures !forall t :: t in expectedEmissions ==> actualEmissions[t] == expectedEmissions[t]
    {
      ReconcilePassIff(eventOrder, expectedEmissions, actualEmissions);
    }

    /** `addPromise(p)`: register pending work. */
    method AddPromise(promise: Value)
      modifies this`promises
      ensures promises == old(promises) + [promise]
      ensures HasPromises()
    {
      promises := promises + [promise];
    }

    /** `hasPromises()`. */
    function HasPromises(): (r: bool)
      reads this
      ensures r <==> |promises| != 0
    {
      |promises| != 0
    }
  }

  /** A client of the emission bookkeeping: expect two emissions of "created", emit it
      `emitted` times, reconcile. Passes exactly when `emitted` is two. */
  method EmissionScenario(namepath: string, emitted: nat) returns (r: Outcome)
    ensures r.Pass? <==> emitted == 2
    ensures r.Fail? ==> r.error == AssertionError("Incorrect emission count for event type: " + namepath + ".created",
                                                  Comparison(Num(2), Num(emitted)))
  {
    var test := new TestCase(namepath);
    test.AssertEmission("created", 2);
    var t := test.namepathPrefix + "created";
    assert t == (namepath + ".") + "created";
    assert test.eventOrder == [t];
    var n := 0;
    while n < emitted
      invariant 0 <= n <= emitted
      invariant test.Valid() && test.eventOrder == [t] && test.subscriptions == [t]
      invariant test.expectedEmissions == map[t := 2] && test.actualEmissions == map[t := n]
    {
      test.Emit("created");
      assert multiset(test.subscriptions)[t] == 1;
      n := n + 1;
    }
    r := test.AssertExpectedEmissions();
    ScenarioVerdict(namepath, emitted);
  }

  /** The verdict on the one event type of the scenario. */
  lemma ScenarioVerdict(namepath: string, emitted: nat)
    ensures var t := (namepath + ".") + "created";
            Reconcile([t], map[t := 2], map[t := emitted]) ==
              if emitted == 2 then Pass
              else Fail(AssertionError("Incorrect emission count for event type: " + namepath + ".created",
                                       Comparison(Num(2), Num(emitted))))
  {
    var t := (namepath + ".") + "created";
    ReconcileSingle(t, 2, emitted);
    ConcatAssociates(namepath, ".", "created");
    ConcatAssociates("Incorrect emission count for event type: ", namepath, ".created");
  }

  lemma UpdateTwice<K, V>(m: map<K, V>, k: K, a: V, b: V)
    ensures m[k := a][k := b] == m[k := b]
  {
  }

  lemma ReconcileSingle(t: string, expected: int, actual: int)
    ensures Reconcile([t], map[t := expected], map[t := actual]) ==
            AssertEquals(Num(actual), Num(expected), "Incorrect emission count for event type: " + t)
  {
    assert [t][1..] == [];
  }
}
