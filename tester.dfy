/** The test runner of plur (js/plur/test/Tester.mjs). A cursor walks an ordered list
    of target identifiers; for each it loads the test class, picks the own prototype
    properties named `test_...` that hold functions, constructs one instance and calls
    those methods one at a time; the first throw rejects the whole run.

    The runner's promise chain is modelled as a sequential loop. Targets are data: the
    identifier and what loading it yields (the test class, its prototype properties,
    whether its constructor returns, and how each method call completes). The model
    records the trace of constructed instances and invoked methods. */
module PlurTester {
  import opened JsModel

  // ---------------------------------------------------------------------------
  // Targets

  /** A character of the class `[a-zA-Z0-9_\-\/]` of `Tester._TEST_CONSTRUCTOR`. */
  predicate TargetChar(c: char) {
    ('a' <= c <= 'z') || ('A' <= c <= 'Z') || ('0' <= c <= '9') || c == '_' || c == '-' || c == '/'
  }

  /** `target.match(Tester._TEST_CONSTRUCTOR)`: one or more characters, all in the class.
      An identifier that passes cannot climb out of the module root with `..` or name a
      file extension, since it holds no dot, and holds no space. */
  predicate ValidTargetName(s: string): (r: bool)
    ensures r ==> s != [] && '.' !in s && ' ' !in s
  {
    |s| > 0 && forall i :: 0 <= i < |s| ==> TargetChar(s[i])
  }

  lemma TargetNameExamples()
    ensures ValidTargetName("plur-tests/unit/plur/PlurObject_2")
    ensures !ValidTargetName("")
    ensures !ValidTargetName("plur/Foo Test")
    ensures !ValidTargetName("../plur/Foo.mjs")
  {
    assert !TargetChar("plur/Foo Test"[8]);
    assert !TargetChar("../plur/Foo.mjs"[0]);
  }

  /** The error an invalid identifier raises: building the PlurError reads the
      undeclared variable `testTarget`, which throws first. */
  const InvalidTargetError: Exception := NativeError(ReferenceError, "testTarget is not defined")

  /** How the synchronous call `test[methodName]()` completes. */
  datatype Call = Returned | ReturnedPromise(rejection: Option<Exception>) | Threw(error: Exception)

  /** A loaded test class: its prototype's own properties (in `getOwnPropertyNames`
      order), whether `new testClass()` returns, and how each method call completes
      (a method not listed returns normally). */
  datatype TestClass = TestClass(prototype: seq<Prop>, constructs: bool, calls: map<string, Call>)

  function CallOf(c: TestClass, methodName: string): Call {
    if methodName in c.calls then c.calls[methodName] else Returned
  }

  /** What the dynamic `import()` of a target yields. */
  datatype Module = LoadFails | Loaded(testClass: TestClass)

  datatype Target = Target(name: string, load: Module)

  /** An observable step of a run: an instance of target `target`'s class is
      constructed, or one of its methods is invoked. */
  datatype Event = Constructed(target: nat) | Invoked(target: nat, methodName: string)

  // ---------------------------------------------------------------------------
  // Discovering test methods

  /** `/^test_/.test(name) && typeof prototype[name] === 'function'`. */
  predicate IsTestMethod(p: Prop): (r: bool)
    ensures r <==> |p.key| >= 5 && p.key[..5] == "test_" && p.value.FunctionRef?
  {
    StartsWith(p.key, "test_") && TypeOf(p.value) == "function"
  }

  /** The names of the test methods, in property order. */
  function TestMethodNames(props: seq<Prop>): (names: seq<string>)
    ensures |names| <= |props|
    ensures forall k :: 0 <= k < |names| ==> StartsWith(names[k], "test_")
  {
    if props == [] then []
    else (if IsTestMethod(props[0]) then [props[0].key] else []) + TestMethodNames(props[1..])
  }

  /** Filtering commutes with concatenation: the order of the properties is kept. */
  lemma {:induction false} TestMethodNamesAppend(a: seq<Prop>, b: seq<Prop>)
    ensures TestMethodNames(a + b) == TestMethodNames(a) + TestMethodNames(b)
  {
    if a == [] {
      assert a + b == b;
    } else {
      assert (a + b)[1..] == a[1..] + b;
      TestMethodNamesAppend(a[1..], b);
      var head := if IsTestMethod(a[0]) then [a[0].key] else [];
      assert TestMethodNames(a + b) == head + (TestMethodNames(a[1..]) + TestMethodNames(b));
      ConcatAssociates(head, TestMethodNames(a[1..]), TestMethodNames(b));
    }
  }

  /** A name is discovered iff some property with that name is a test method. */
  lemma {:induction false} TestMethodNamesMembers(props: seq<Prop>, name: string)
    ensures name in TestMethodNames(props) <==>
            exists i :: 0 <= i < |props| && props[i].key == name && IsTestMethod(props[i])
  {
    if props != [] {
      TestMethodNamesMembers(props[1..], name);
      if name in TestMethodNames(props[1..]) {
        var i :| 0 <= i < |props[1..]| && props[1..][i].key == name && IsTestMethod(props[1..][i]);
        assert props[i + 1] == props[1..][i];
      }
      if exists i :: 0 <= i < |props| && props[i].key == name && IsTestMethod(props[i]) {
        var i :| 0 <= i < |props| && props[i].key == name && IsTestMethod(props[i]);
        if i > 0 {
          assert props[1..][i - 1] == props[i];
        }
      }
    }
  }

  /** The discovery loop: push each property name that is a test method. */
  method DiscoverTestMethods(props: seq<Prop>) returns (names: seq<string>)
    ensures names == TestMethodNames(props)
    ensures forall n :: n in names ==> StartsWith(n, "test_")
  {
    names := [];
    var i := 0;
    while i < |props|
      invariant 0 <= i <= |props|
      invariant names == TestMethodNames(props[..i])
      invariant forall n :: n in names ==> StartsWith(n, "test_")
    {
      assert props[..i + 1] == props[..i] + [props[i]];
      TestMethodNamesAppend(props[..i], [props[i]]);
      if IsTestMethod(props[i]) {
        names := names + [props[i].key];
      }
      i := i + 1;
    }
    assert props[..i] == props;
  }

  // ---------------------------------------------------------------------------
  // Running one target

  /** `_testMethod`: the method's promise settles as soon as the synchronous call
      returns; only a synchronous throw rejects it, a returned promise is never awaited. */
  function MethodError(c: Call): (e: Option<Exception>)
    ensures e.Some? <==> c.Threw?
  {
    match c
    case Threw(err) => Some(err)
    case _ => None
  }

  lemma ReturnedPromiseIgnored(rejection: Option<Exception>)
    ensures MethodError(ReturnedPromise(rejection)) == MethodError(Returned) == None
  {
  }

  datatype TargetOutcome = TargetPassed | TargetFailed(error: Exception) | TargetHung

  datatype TargetRun = TargetRun(events: seq<Event>, outcome: TargetOutcome)

  function Invocations(t: nat, names: seq<string>): (evs: seq<Event>)
    ensures |evs| == |names|
    ensures forall k :: 0 <= k < |names| ==> evs[k] == Invoked(t, names[k])
  {
    seq(|names|, k requires 0 <= k < |names| => Invoked(t, names[k]))
  }

  /** The `_testNextMethod` chain: call each method in order; the first throw rejects
      the target and nothing after it runs; the last success resolves the target. */
  function MethodsRun(t: nat, c: TestClass, names: seq<string>): (r: TargetRun)
    ensures 0 < |r.events| <= |names| || (names == [] && r == TargetRun([], TargetPassed))
    ensures !r.outcome.TargetHung?
    ensures r.outcome.TargetPassed? ==> |r.events| == |names|
  {
    if names == [] then TargetRun([], TargetPassed)
    else
      match MethodError(CallOf(c, names[0]))
      case Some(e) => TargetRun([Invoked(t, names[0])], TargetFailed(e))
      case None =>
        var rest := MethodsRun(t, c, names[1..]);
        TargetRun([Invoked(t, names[0])] + rest.events, rest.outcome)
  }

  /** One step of the `_testNextMethod` chain. */
  lemma MethodsRunStep(t: nat, c: TestClass, names: seq<string>)
    requires names != []
    ensures MethodsRun(t, c, names) ==
            if MethodError(CallOf(c, names[0])).Some? then
              TargetRun([Invoked(t, names[0])], TargetFailed(MethodError(CallOf(c, names[0])).value))
            else
              TargetRun([Invoked(t, names[0])] + MethodsRun(t, c, names[1..]).events, MethodsRun(t, c, names[1..]).outcome)
  {
  }

  /** The methods invoked are a prefix of the discovered names, in order; the target
      passes iff all were invoked and none threw, and fails with the error of the last
      one invoked, every earlier one having returned. A target never hangs here. */
  lemma {:induction false} MethodsRunIsPrefix(t: nat, c: TestClass, names: seq<string>)
    ensures var r := MethodsRun(t, c, names);
            var n := |r.events|;
            n <= |names| && r.events == Invocations(t, names[..n]) &&
            !r.outcome.TargetHung? &&
            (forall k :: 0 <= k < n - 1 ==> MethodError(CallOf(c, names[k])).None?) &&
            (r.outcome.TargetPassed? <==> n == |names| && forall k :: 0 <= k < n ==> MethodError(CallOf(c, names[k])).None?) &&
            (r.outcome.TargetFailed? ==> 0 < n && MethodError(CallOf(c, names[n - 1])) == Some(r.outcome.error))
  {
    if names != [] && MethodError(CallOf(c, names[0])).None? {
      MethodsRunIsPrefix(t, c, names[1..]);
      var rest := MethodsRun(t, c, names[1..]);
      var n := |rest.events| + 1;
      assert names[1..][..n - 1] == names[1..n];
      assert forall k :: 1 <= k < |names| ==> names[1..][k - 1] == names[k];
    }
  }

  /** One target, once its identifier has passed the pattern: load it, discover its
      test methods, construct one instance if there is at least one, and run them.
      A failed load, a throwing constructor and a class without test methods all leave
      the target's promise unsettled. */
  function TargetRunOf(t: nat, target: Target): (r: TargetRun)
    ensures r.outcome.TargetHung? <==> r.events == []
    ensures r.events != [] ==> r.events[0] == Constructed(t) && target.load.Loaded?
  {
    match target.load
    case LoadFails => TargetRun([], TargetHung)
    case Loaded(c) =>
      var names := TestMethodNames(c.prototype);
      if |names| == 0 || !c.constructs then TargetRun([], TargetHung)
      else
        var m := MethodsRun(t, c, names);
        TargetRun([Constructed(t)] + m.events, m.outcome)
  }

  /** A target without test methods only warns: it produces no event and never settles. */
  lemma ZeroMethodTargetHangs(t: nat, name: string, c: TestClass)
    requires TestMethodNames(c.prototype) == []
    ensures TargetRunOf(t, Target(name, Loaded(c))) == TargetRun([], TargetHung)
  {
  }

  /** Whether an event is one the runner can produce for these targets: its target
      passed the pattern and loaded, its class has test methods and a returning
      constructor, and an invoked method is one of the discovered ones. */
  predicate EventAllowed(targets: seq<Target>, e: Event) {
    var t := e.target;
    t < |targets| && ValidTargetName(targets[t].name) && targets[t].load.Loaded? &&
    var c := targets[t].load.testClass;
    |TestMethodNames(c.prototype)| > 0 && c.constructs &&
    (e.Invoked? ==> e.methodName in TestMethodNames(c.prototype))
  }

  /** The events of one target come in one block: the construction, then invocations. */
  ghost predicate Block(t: nat, events: seq<Event>) {
    events == [] || (events[0] == Constructed(t) && forall k :: 1 <= k < |events| ==> events[k].Invoked? && events[k].target == t)
  }

  lemma TargetRunShape(targets: seq<Target>, t: nat)
    requires t < |targets| && ValidTargetName(targets[t].name)
    ensures var r := TargetRunOf(t, targets[t]);
            Block(t, r.events) &&
            (r.outcome.TargetPassed? ==> r.events != []) &&
            (r.outcome.TargetHung? ==> r.events == []) &&
            forall k :: 0 <= k < |r.events| ==> EventAllowed(targets, r.events[k])
  {
    if targets[t].load.Loaded? {
      var c := targets[t].load.testClass;
      var names := TestMethodNames(c.prototype);
      if |names| > 0 && c.constructs {
        MethodsRunIsPrefix(t, c, names);
        var m := MethodsRun(t, c, names);
        forall k | 1 <= k < |m.events| + 1
          ensures ([Constructed(t)] + m.events)[k] == Invoked(t, names[k - 1])
        {
        }
      }
    }
  }

  // ---------------------------------------------------------------------------
  // Running the list

  /** The run's promise, or its absence before `test()` is called. */
  datatype Settlement = NoPromise | Pending | Resolved | Rejected(error: Exception)

  /** How a run ends: the promise resolves, rejects with the error of the failing method
      (the bare error, without the target or method name), stays pending for ever, or
      `test()` itself throws. */
  datatype RunOutcome = RunResolved | RunRejected(error: Exception) | Stuck | Raised(error: Exception)

  /** The events a run produces, how it ends, and where the target cursor stops. */
  datatype RunResult = RunResult(trace: seq<Event>, outcome: RunOutcome, lastIndex: int)

  function Prefix(events: seq<Event>, r: RunResult): RunResult {
    RunResult(events + r.trace, r.outcome, r.lastIndex)
  }

  /** `_testNextTarget` with the cursor at `next - 1`: resolve when `next` is the list's
      length; otherwise move the cursor to `next` and check the identifier, which
      throws out of `test()` when the call is synchronous (`sync`, the first target of
      a `test()` call) and is an unhandled rejection, stalling the run, when it is not;
      then run the target and continue with the next one after it passes. */
  function Advance(targets: seq<Target>, next: nat, sync: bool): RunResult
    requires next <= |targets|
    decreases |targets| - next
  {
    if next == |targets| then RunResult([], RunResolved, next - 1)
    else if !ValidTargetName(targets[next].name) then
      RunResult([], if sync then Raised(InvalidTargetError) else Stuck, next)
    else
      var r := TargetRunOf(next, targets[next]);
      match r.outcome
      case TargetPassed => Prefix(r.events, Advance(targets, next + 1, false))
      case TargetFailed(e) => RunResult(r.events, RunRejected(e), next)
      case TargetHung => RunResult(r.events, Stuck, next)
  }

  /** `test()` with the cursor at `index`: an empty list resolves at once, anything
      else starts `_testNextTarget` synchronously. */
  function TestFrom(targets: seq<Target>, index: int): (r: RunResult)
    requires -1 <= index < |targets|
    ensures index <= r.lastIndex < |targets| || (|targets| == 0 && r.lastIndex == index)
    ensures r.outcome.RunResolved? ==> r.lastIndex == |targets| - 1
    ensures r.outcome.Raised? ==> r == RunResult([], Raised(InvalidTargetError), index + 1)
  {
    if |targets| == 0 then RunResult([], RunResolved, index)
    else
      AdvanceCursor(targets, index + 1, true);
      Advance(targets, index + 1, true)
  }

  /** One step of `_testNextTarget` on a valid identifier. */
  lemma AdvanceStep(targets: seq<Target>, next: nat, sync: bool)
    requires next < |targets| && ValidTargetName(targets[next].name)
    ensures var r := TargetRunOf(next, targets[next]);
            Advance(targets, next, sync) ==
              if r.outcome.TargetPassed? then Prefix(r.events, Advance(targets, next + 1, false))
              else RunResult(r.events, if r.outcome.TargetFailed? then RunRejected(r.outcome.error) else Stuck, next)
  {
  }

  /** A run of a fresh runner. */
  function Run(targets: seq<Target>): (r: RunResult)
    ensures -1 <= r.lastIndex < |targets|
    ensures r.outcome.RunResolved? ==> r.lastIndex == |targets| - 1
    ensures r.outcome.Raised? ==> r == RunResult([], Raised(InvalidTargetError), 0)
  {
    TestFrom(targets, -1)
  }

  /** A target passes when its identifier matches and it resolves. */
  predicate TargetPasses(targets: seq<Target>, t: nat)
    requires t < |targets|
  {
    ValidTargetName(targets[t].name) && TargetRunOf(t, targets[t]).outcome.TargetPassed?
  }

  lemma RunEmptyResolves()
    ensures Run([]) == RunResult([], RunResolved, -1)
  {
  }

  /** An invalid first identifier makes `test()` throw before anything is loaded. */
  lemma InvalidFirstTargetRaises(targets: seq<Target>)
    requires |targets| > 0 && !ValidTargetName(targets[0].name)
    ensures Run(targets) == RunResult([], Raised(InvalidTargetError), 0)
  {
  }

  /** The cursor: it stops at `lastIndex`, every target before it passed, the run
      resolves exactly when the cursor reaches the last target with every target passed,
      and otherwise the target under the cursor did not pass. Only the first target of
      the call can make `test()` throw. */
  lemma {:induction false} AdvanceCursor(targets: seq<Target>, next: nat, sync: bool)
    requires next <= |targets|
    ensures next - 1 <= Advance(targets, next, sync).lastIndex < |targets|
    ensures forall j :: next <= j < Advance(targets, next, sync).lastIndex ==> TargetPasses(targets, j)
    ensures Advance(targets, next, sync).outcome.RunResolved? <==>
            Advance(targets, next, sync).lastIndex == |targets| - 1 && forall j :: next <= j < |targets| ==> TargetPasses(targets, j)
    ensures !Advance(targets, next, sync).outcome.RunResolved? ==>
            next <= Advance(targets, next, sync).lastIndex && !TargetPasses(targets, Advance(targets, next, sync).lastIndex)
    ensures Advance(targets, next, sync).outcome.Raised? ==>
            sync && Advance(targets, next, sync) == RunResult([], Raised(InvalidTargetError), next)
    decreases |targets| - next
  {
    if next < |targets| {
      if TargetPasses(targets, next) {
        AdvanceCursor(targets, next + 1, false);
      } else {
        assert !TargetPasses(targets, next);
      }
    }
  }

  /** A trace in which targets never go backwards, each target's construction opens its
      block, and each invocation follows an event of its own target. */
  ghost predicate Sequenced(trace: seq<Event>) {
    (forall a, b :: 0 <= a < b < |trace| ==> trace[a].target <= trace[b].target) &&
    (forall a :: 0 < a < |trace| && trace[a].Constructed? ==> trace[a - 1].target < trace[a].target) &&
    (forall a :: 0 <= a < |trace| && trace[a].Invoked? ==> 0 < a && trace[a - 1].target == trace[a].target)
  }

  lemma SequencedAppend(t: nat, block: seq<Event>, rest: seq<Event>)
    requires Block(t, block) && block != []
    requires Sequenced(rest)
    requires forall k :: 0 <= k < |rest| ==> t < rest[k].target
    ensures Sequenced(block + rest)
  {
    var s := block + rest;
    forall a | 0 <= a < |s| && s[a].Invoked? ensures 0 < a && s[a - 1].target == s[a].target {
      if a >= |block| {
        assert s[a] == rest[a - |block|];
        assert a - |block| > 0;
      }
    }
  }

  /** Every event of a run belongs to a target between `next` and the cursor's stop. */
  ghost predicate WithinCursor(trace: seq<Event>, lo: int, hi: int) {
    forall k :: 0 <= k < |trace| ==> lo <= trace[k].target <= hi
  }

  /** Every event of a trace is allowed for its target. */
  ghost predicate AllAllowed(targets: seq<Target>, trace: seq<Event>) {
    forall k :: 0 <= k < |trace| ==> EventAllowed(targets, trace[k])
  }

  lemma AllAllowedAppend(targets: seq<Target>, a: seq<Event>, b: seq<Event>)
    requires AllAllowed(targets, a) && AllAllowed(targets, b)
    ensures AllAllowed(targets, a + b)
  {
    forall k | 0 <= k < |a + b| ensures EventAllowed(targets, (a + b)[k]) {
      if k >= |a| {
        assert (a + b)[k] == b[k - |a|];
      }
    }
  }

  lemma WithinCursorAppend(a: seq<Event>, b: seq<Event>, lo: int, mid: int, hi: int)
    requires WithinCursor(a, lo, mid) && WithinCursor(b, lo, hi) && mid <= hi
    ensures WithinCursor(a + b, lo, hi)
  {
    forall k | 0 <= k < |a + b| ensures lo <= (a + b)[k].target <= hi {
      if k >= |a| {
        assert (a + b)[k] == b[k - |a|];
      }
    }
  }

  lemma BlockWithin(t: nat, events: seq<Event>)
    requires Block(t, events)
    ensures WithinCursor(events, t, t)
  {
    forall k | 0 <= k < |events| ensures events[k].target == t {
      if k == 0 {
        assert events[0] == Constructed(t);
      }
    }
  }

  /** A passing target's block followed by the rest of the run keeps the trace shape. */
  lemma TraceJoin(targets: seq<Target>, next: nat, events: seq<Event>, rest: RunResult)
    requires Block(next, events) && events != [] && WithinCursor(events, next, next) && AllAllowed(targets, events)
    requires Sequenced(rest.trace) && AllAllowed(targets, rest.trace)
    requires WithinCursor(rest.trace, next + 1, rest.lastIndex) && next <= rest.lastIndex
    ensures Sequenced(Prefix(events, rest).trace)
    ensures WithinCursor(Prefix(events, rest).trace, next, Prefix(events, rest).lastIndex)
    ensures AllAllowed(targets, Prefix(events, rest).trace)
  {
    SequencedAppend(next, events, rest.trace);
    AllAllowedAppend(targets, events, rest.trace);
    WithinCursorAppend(events, rest.trace, next, next, rest.lastIndex);
  }

  /** Every event of a run is allowed for its target, the events of a run stay within
      the targets the cursor visited, and the trace is sequenced. */
  lemma {:induction false} AdvanceTrace(targets: seq<Target>, next: nat, sync: bool)
    requires next <= |targets|
    ensures Sequenced(Advance(targets, next, sync).trace)
    ensures WithinCursor(Advance(targets, next, sync).trace, next, Advance(targets, next, sync).lastIndex)
    ensures AllAllowed(targets, Advance(targets, next, sync).trace)
    decreases |targets| - next
  {
    if next < |targets| && ValidTargetName(targets[next].name) {
      TargetRunShape(targets, next);
      AdvanceStep(targets, next, sync);
      var tr := TargetRunOf(next, targets[next]);
      BlockWithin(next, tr.events);
      if tr.outcome.TargetPassed? {
        AdvanceTrace(targets, next + 1, false);
        AdvanceCursor(targets, next + 1, false);
        TraceJoin(targets, next, tr.events, Advance(targets, next + 1, false));
      } else {
        assert Sequenced(tr.events);
      }
    }
  }

  /** The same for a whole `test()` call: only valid, loaded targets with test methods
      produce events, and the trace is sequenced. */
  lemma RunTrace(targets: seq<Target>)
    ensures var r := Run(targets);
            Sequenced(r.trace) &&
            forall k :: 0 <= k < |r.trace| ==> r.trace[k].target <= r.lastIndex && EventAllowed(targets, r.trace[k])
  {
    if |targets| > 0 {
      AdvanceTrace(targets, 0, true);
    }
  }

  /** In a sequenced trace each target is constructed at most once. */
  lemma OneInstancePerTarget(trace: seq<Event>, a: nat, b: nat)
    requires Sequenced(trace)
    requires a < |trace| && b < |trace| && trace[a].Constructed? && trace[b].Constructed?
    requires trace[a].target == trace[b].target
    ensures a == b
  {
    if a < b {
      ConstructionIsLater(trace, a, b);
    } else if b < a {
      ConstructionIsLater(trace, b, a);
    }
  }

  /** A construction's target is later than that of every event before it. */
  lemma ConstructionIsLater(trace: seq<Event>, a: nat, b: nat)
    requires Sequenced(trace)
    requires a < b < |trace| && trace[b].Constructed?
    ensures trace[a].target < trace[b].target
  {
    assert trace[a].target <= trace[b - 1].target;
  }

  /** In a sequenced trace every invocation comes after the construction of an
      instance of its own target. */
  lemma {:induction false} InstanceBeforeInvocation(trace: seq<Event>, a: nat)
    requires Sequenced(trace)
    requires a < |trace| && trace[a].Invoked?
    ensures exists b :: 0 <= b < a && trace[b] == Constructed(trace[a].target)
  {
    if trace[a - 1].Constructed? {
      assert trace[a - 1] == Constructed(trace[a].target);
    } else {
      InstanceBeforeInvocation(trace, a - 1);
    }
  }

  /** The error the call of an invoked method throws, if any. */
  function EventError(targets: seq<Target>, e: Event): Option<Exception> {
    if e.Invoked? && e.target < |targets| && targets[e.target].load.Loaded? then
      MethodError(CallOf(targets[e.target].load.testClass, e.methodName))
    else None
  }

  /** Every call in `trace` returned, except the last one when `rejection` is given:
      that one is an invocation that threw `rejection`. */
  ghost predicate HaltsWith(targets: seq<Target>, trace: seq<Event>, rejection: Option<Exception>) {
    (forall k :: 0 <= k < |trace| && (k < |trace| - 1 || rejection.None?) ==> EventError(targets, trace[k]).None?) &&
    (rejection.Some? ==> 0 < |trace| && trace[|trace| - 1].Invoked? && EventError(targets, trace[|trace| - 1]) == rejection)
  }

  lemma HaltsWithAppend(targets: seq<Target>, a: seq<Event>, b: seq<Event>, rejection: Option<Exception>)
    requires HaltsWith(targets, a, None) && HaltsWith(targets, b, rejection)
    ensures HaltsWith(targets, a + b, rejection)
  {
    var s := a + b;
    forall k | 0 <= k < |s| && (k < |s| - 1 || rejection.None?)
      ensures EventError(targets, s[k]).None?
    {
      if k >= |a| {
        assert s[k] == b[k - |a|];
      }
    }
    if rejection.Some? {
      assert s[|s| - 1] == b[|b| - 1];
    }
  }

  function RejectionOf(o: TargetOutcome): Option<Exception> {
    if o.TargetFailed? then Some(o.error) else None
  }

  lemma TargetRunHalts(targets: seq<Target>, t: nat)
    requires t < |targets| && ValidTargetName(targets[t].name)
    ensures var r := TargetRunOf(t, targets[t]);
            HaltsWith(targets, r.events, RejectionOf(r.outcome)) &&
            forall k :: 0 <= k < |r.events| ==> r.events[k].target == t
  {
    if targets[t].load.Loaded? {
      var c := targets[t].load.testClass;
      var names := TestMethodNames(c.prototype);
      if |names| > 0 && c.constructs {
        MethodsRunIsPrefix(t, c, names);
        var events := [Constructed(t)] + MethodsRun(t, c, names).events;
        assert forall k :: 1 <= k < |events| ==> events[k] == Invoked(t, names[k - 1]);
      }
    }
  }

  /** A method that threw ends the run: the run rejects with that error, the failing
      invocation is the last event and belongs to the target under the cursor, and
      every invocation before it returned. */
  lemma {:induction false} AdvanceHalts(targets: seq<Target>, next: nat, sync: bool)
    requires next <= |targets|
    ensures var r := Advance(targets, next, sync);
            HaltsWith(targets, r.trace, if r.outcome.RunRejected? then Some(r.outcome.error) else None) &&
            (r.outcome.RunRejected? ==> r.trace[|r.trace| - 1].target == r.lastIndex)
    decreases |targets| - next
  {
    if next < |targets| && ValidTargetName(targets[next].name) {
      TargetRunHalts(targets, next);
      var tr := TargetRunOf(next, targets[next]);
      if tr.outcome.TargetPassed? {
        AdvanceHalts(targets, next + 1, false);
        var rest := Advance(targets, next + 1, false);
        HaltsWithAppend(targets, tr.events, rest.trace, if rest.outcome.RunRejected? then Some(rest.outcome.error) else None);
        if rest.outcome.RunRejected? {
          assert (tr.events + rest.trace)[|tr.events + rest.trace| - 1] == rest.trace[|rest.trace| - 1];
        }
      }
    }
  }

  /** `test()` on a fresh runner rejects only after a method threw; see AdvanceHalts. */
  lemma FailureHalts(targets: seq<Target>)
    requires Run(targets).outcome.RunRejected?
    ensures var r := Run(targets);
            var n := |r.trace|;
            0 < n && r.trace[n - 1].Invoked? && r.trace[n - 1].target == r.lastIndex &&
            EventError(targets, r.trace[n - 1]) == Some(r.outcome.error) &&
            forall k :: 0 <= k < n - 1 ==> EventError(targets, r.trace[k]).None?
  {
    AdvanceHalts(targets, 0, true);
  }

  /** The events of targets `next..` when all of them pass: for each, its construction
      and then every discovered test method in order. */
  function FullTrace(targets: seq<Target>, next: nat): seq<Event>
    requires next <= |targets|
    decreases |targets| - next
  {
    if next == |targets| then []
    else [Constructed(next)] + Invocations(next, TargetMethods(targets[next])) + FullTrace(targets, next + 1)
  }

  /** The test methods a target's class declares (none when it does not load). */
  function TargetMethods(target: Target): seq<string> {
    if target.load.Loaded? then TestMethodNames(target.load.testClass.prototype) else []
  }

  /** The number of discovered test methods of targets `next..`. */
  function MethodTotal(targets: seq<Target>, next: nat): nat
    requires next <= |targets|
    decreases |targets| - next
  {
    if next == |targets| then 0 else |TargetMethods(targets[next])| + MethodTotal(targets, next + 1)
  }

  function InvocationCount(trace: seq<Event>): nat {
    if trace == [] then 0 else (if trace[0].Invoked? then 1 else 0) + InvocationCount(trace[1..])
  }

  lemma {:induction false} InvocationCountAppend(a: seq<Event>, b: seq<Event>)
    ensures InvocationCount(a + b) == InvocationCount(a) + InvocationCount(b)
  {
    if a == [] {
      assert a + b == b;
    } else {
      assert (a + b)[1..] == a[1..] + b;
      InvocationCountAppend(a[1..], b);
    }
  }

  lemma {:induction false} InvocationCountOfInvocations(t: nat, names: seq<string>)
    ensures InvocationCount(Invocations(t, names)) == |names|
  {
    if names != [] {
      assert Invocations(t, names)[1..] == Invocations(t, names[1..]);
      InvocationCountOfInvocations(t, names[1..]);
    }
  }

  lemma {:induction false} FullTraceCount(targets: seq<Target>, next: nat)
    requires next <= |targets|
    ensures InvocationCount(FullTrace(targets, next)) == MethodTotal(targets, next)
    decreases |targets| - next
  {
    if next < |targets| {
      FullTraceCount(targets, next + 1);
      var names := TargetMethods(targets[next]);
      InvocationCountAppend([Constructed(next)] + Invocations(next, names), FullTrace(targets, next + 1));
      InvocationCountAppend([Constructed(next)], Invocations(next, names));
      InvocationCountOfInvocations(next, names);
      assert InvocationCount([Constructed(next)]) == 0;
    }
  }

  /** A target that passes constructed its instance and invoked all its test methods. */
  lemma PassedTargetRun(targets: seq<Target>, t: nat)
    requires t < |targets| && TargetPasses(targets, t)
    ensures TargetRunOf(t, targets[t]) == TargetRun([Constructed(t)] + Invocations(t, TargetMethods(targets[t])), TargetPassed)
  {
    var c := targets[t].load.testClass;
    var names := TestMethodNames(c.prototype);
    MethodsRunIsPrefix(t, c, names);
    assert names[..|names|] == names;
  }

  /** One step of the cursor over a passing target. */
  lemma PassingStep(targets: seq<Target>, next: nat, sync: bool)
    requires next < |targets| && TargetPasses(targets, next)
    ensures Advance(targets, next, sync) ==
            Prefix([Constructed(next)] + Invocations(next, TargetMethods(targets[next])), Advance(targets, next + 1, false))
  {
    PassedTargetRun(targets, next);
    AdvanceStep(targets, next, sync);
  }

  lemma FullTraceStep(targets: seq<Target>, next: nat)
    requires next < |targets|
    ensures Prefix([Constructed(next)] + Invocations(next, TargetMethods(targets[next])),
                   RunResult(FullTrace(targets, next + 1), RunResolved, |targets| - 1)) ==
            RunResult(FullTrace(targets, next), RunResolved, |targets| - 1)
  {
  }

  lemma {:induction false} AllPassAdvance(targets: seq<Target>, next: nat, sync: bool)
    requires next <= |targets|
    requires forall j :: next <= j < |targets| ==> TargetPasses(targets, j)
    ensures Advance(targets, next, sync) == RunResult(FullTrace(targets, next), RunResolved, |targets| - 1)
    decreases |targets| - next
  {
    if next < |targets| {
      assert TargetPasses(targets, next);
      PassingStep(targets, next, sync);
      AllPassAdvance(targets, next + 1, false);
      FullTraceStep(targets, next);
    } else {
      assert FullTrace(targets, next) == [];
    }
  }

  /** When every target passes, the run resolves with the cursor on the last target, the
      trace is one construction per target followed by all of its test methods in order,
      and the number of invocations is the total number of test methods. */
  lemma AllPass(targets: seq<Target>)
    requires forall j :: 0 <= j < |targets| ==> TargetPasses(targets, j)
    ensures Run(targets) == RunResult(FullTrace(targets, 0), RunResolved, |targets| - 1)
    ensures InvocationCount(Run(targets).trace) == MethodTotal(targets, 0)
  {
    if |targets| > 0 {
      AllPassAdvance(targets, 0, true);
    }
    FullTraceCount(targets, 0);
  }

  /** The state an ended run leaves the promise and `test()` in, as a RunOutcome. */
  function OutcomeOf(settlement: Settlement, raised: Option<Exception>): RunOutcome {
    if raised.Some? then Raised(raised.value)
    else match settlement
      case Resolved => RunResolved
      case Rejected(e) => RunRejected(e)
      case _ => Stuck
  }

  // ---------------------------------------------------------------------------
  // The runner object

  class Tester {
    /** `_testTargets`. */
    const targets: seq<Target>
    /** `_testTargetIndex`, the cursor. */
    var targetIndex: int
    /** `_testTarget`, the identifier under the cursor. */
    var currentTarget: Option<string>
    /** The state of `_promise`. */
    var settlement: Settlement
    /** The instances constructed and methods invoked so far. */
    var trace: seq<Event>

    ghost predicate Valid()
      reads this
    {
      -1 <= targetIndex < |targets|
    }

    constructor (testTargets: seq<Target>)
      ensures Valid()
      ensures targets == testTargets && targetIndex == -1 && currentTarget == None
      ensures settlement == NoPromise && trace == []
    {
      targets := testTargets;
      targetIndex := -1;
      currentTarget := None;
      settlement := NoPromise;
      trace := [];
    }

    /** `test()`: creates the run's promise and starts `_testNextTarget`, which runs
        until the run resolves, rejects, stalls, or throws (returned as `raised`). */
    method Test() returns (raised: Option<Exception>)
      requires Valid()
      modifies this`targetIndex, this`currentTarget, this`settlement, this`trace
      ensures Valid() && old(targetIndex) <= targetIndex
      ensures trace == old(trace) + TestFrom(targets, old(targetIndex)).trace
      ensures targetIndex == TestFrom(targets, old(targetIndex)).lastIndex
      ensures OutcomeOf(settlement, raised) == TestFrom(targets, old(targetIndex)).outcome
      ensures settlement != NoPromise && (raised.Some? ==> settlement == Pending)
      ensures currentTarget == if targetIndex == old(targetIndex) then old(currentTarget)
                               else Some(targets[targetIndex].name)
    {
      settlement := Pending;
      if |targets| == 0 {
        settlement := Resolved;
        return None;
      }
      raised := TestNextTarget(true);
    }

    /** `_testNextTarget` with the cursor at `targetIndex`: resolve at the end of the
        list, otherwise advance the cursor, check the identifier and run the target.
        `sync` tells whether the call is still inside `test()`; `raised` is what it
        throws there. */
    method TestNextTarget(sync: bool) returns (raised: Option<Exception>)
      requires -1 <= targetIndex < |targets| && settlement == Pending
      modifies this`targetIndex, this`currentTarget, this`settlement, this`trace
      ensures old(targetIndex) <= targetIndex < |targets|
      ensures trace == old(trace) + Advance(targets, old(targetIndex) + 1, sync).trace
      ensures targetIndex == Advance(targets, old(targetIndex) + 1, sync).lastIndex
      ensures OutcomeOf(settlement, raised) == Advance(targets, old(targetIndex) + 1, sync).outcome
      ensures settlement != NoPromise && (raised.Some? ==> settlement == Pending)
      ensures currentTarget == if targetIndex == old(targetIndex) then old(currentTarget)
                               else Some(targets[targetIndex].name)
      decreases |targets| - targetIndex, 0
    {
      if targetIndex + 1 == |targets| {
        // _resolved
        settlement := Resolved;
        return None;
      }
      targetIndex := targetIndex + 1;
      currentTarget := Some(targets[targetIndex].name);
      if !ValidTargetName(targets[targetIndex].name) {
        return if sync then Some(InvalidTargetError) else None;
      }
      raised := RunTarget(sync);
    }

    /** The rest of `_testNextTarget` once the identifier under the cursor matched: run
        the target; when it passes, the chain continues with the next target. */
    method RunTarget(sync: bool) returns (raised: Option<Exception>)
      requires 0 <= targetIndex < |targets| && ValidTargetName(targets[targetIndex].name)
      requires settlement == Pending && currentTarget == Some(targets[targetIndex].name)
      modifies this`targetIndex, this`currentTarget, this`settlement, this`trace
      ensures old(targetIndex) <= targetIndex < |targets|
      ensures trace == old(trace) + Advance(targets, old(targetIndex), sync).trace
      ensures targetIndex == Advance(targets, old(targetIndex), sync).lastIndex
      ensures OutcomeOf(settlement, raised) == Advance(targets, old(targetIndex), sync).outcome
      ensures settlement != NoPromise && (raised.Some? ==> settlement == Pending)
      ensures currentTarget == Some(targets[targetIndex].name)
      decreases |targets| - targetIndex, 1
    {
      AdvanceStep(targets, targetIndex, sync);
      ghost var whole := Advance(targets, targetIndex, sync);
      ghost var run := TargetRunOf(targetIndex, targets[targetIndex]);
      ghost var rest := Advance(targets, targetIndex + 1, false);
      var outcome := TestTarget(targetIndex);
      if outcome.TargetPassed? {
        assert whole == Prefix(run.events, rest);
        raised := TestNextTarget(false);
        ConcatAssociates(old(trace), run.events, rest.trace);
      } else if outcome.TargetFailed? {
        assert whole == RunResult(run.events, RunRejected(outcome.error), targetIndex);
        // _rejected
        settlement := Rejected(outcome.error);
        raised := None;
      } else {
        assert whole == RunResult(run.events, Stuck, targetIndex);
        raised := None;
      }
    }

    /** The part of `_testNextTarget` after the pattern check, for target `t`. */
    method TestTarget(t: nat) returns (outcome: TargetOutcome)
      requires t < |targets|
      modifies this`trace
      ensures trace == old(trace) + TargetRunOf(t, targets[t]).events
      ensures outcome == TargetRunOf(t, targets[t]).outcome
    {
      match targets[t].load {
        case LoadFails =>
          // the rejected import is not handled: the target's promise never settles
          outcome := TargetHung;
        case Loaded(c) =>
          var names := DiscoverTestMethods(c.prototype);
          if |names| > 0 {
            if !c.constructs {
              // `new testClass()` threw inside the import callback: nothing settles
              return TargetHung;
            }
            trace := trace + [Constructed(t)];
            outcome := TestMethods(t, c, names);
            assert trace == old(trace) + ([Constructed(t)] + MethodsRun(t, c, names).events);
          } else {
            // only a warning: the target's promise never settles
            outcome := TargetHung;
          }
      }
    }

    /** `_testNextMethod`: methods one at a time on the one instance, `testMethodIndex`
        advancing after each method that did not throw. */
    method TestMethods(t: nat, c: TestClass, names: seq<string>) returns (outcome: TargetOutcome)
      modifies this`trace
      ensures trace == old(trace) + MethodsRun(t, c, names).events
      ensures outcome == MethodsRun(t, c, names).outcome
    {
      var testMethodIndex := 0;
      ghost var done: seq<Event> := [];
      while testMethodIndex < |names|
        invariant 0 <= testMethodIndex <= |names|
        invariant trace == old(trace) + done
        invariant MethodsRun(t, c, names) ==
                  TargetRun(done + MethodsRun(t, c, names[testMethodIndex..]).events,
                            MethodsRun(t, c, names[testMethodIndex..]).outcome)
      {
        var name := names[testMethodIndex];
        ghost var remaining := names[testMethodIndex..];
        assert remaining[0] == name && remaining[1..] == names[testMethodIndex + 1..];
        MethodsRunStep(t, c, remaining);
        var error := MethodError(CallOf(c, name));
        trace := trace + [Invoked(t, name)];
        ConcatAssociates(old(trace), done, [Invoked(t, name)]);
        ConcatAssociates(done, [Invoked(t, name)], MethodsRun(t, c, remaining[1..]).events);
        done := done + [Invoked(t, name)];
        if error.Some? {
          return TargetFailed(error.value);
        }
        testMethodIndex := testMethodIndex + 1;
      }
      assert names[testMethodIndex..] == [];
      outcome := TargetPassed;
    }
  }
}
