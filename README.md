# plur core in Dafny

This project models the core of **plur**, a small JavaScript framework. The core has
four parts:

- **Test runner** (`js/plur/test/Tester.mjs`). It walks an ordered list of test
  target identifiers. Each identifier is checked against the pattern
  `^[a-zA-Z0-9_\-\/]+$`. The runner then loads the target's test class and picks the
  class prototype's own properties that are named `test_...` and hold functions. It
  builds one instance and calls those methods one at a time. The first method that
  throws rejects the whole run.
- **Test base class** (`js/plur/test/Test.mjs`). It has the assertion primitives
  (`assert`, `assertEquals`, `assertOwns`, `assertHas`, `fail`, `assertTry`,
  `assertCatch`). It also keeps per-instance counts of expected and observed event
  emissions, and a list of registered pending work.
- **Interface layer** (`js/plur/PlurObject.mjs`).
  - `plurify` stamps a class and its prototype with a write-once namepath, resets the
    class's `implemented` record and appends to a global log.
  - `implement` copies an interface's abstract placeholders into a class prototype
    and records the interface.
  - `implementing`, `isPlurified`, `isPlurifiedClass`, `values` and `getPlurified`
    read this state back.
- **API registry** (`js/plur/api/API.mjs`). It is a name-to-API table with a
  distinguished `plur` slot. Registration is once per name, and a lookup either
  finds an API or throws. Each API has a runtime debug flag that the framework-wide
  flags override.

The JavaScript semantics the core relies on are modelled in `js_model.dfy`:

- values, with strict equality as datatype equality;
- `typeof` and truthiness;
- objects as ordered own properties plus a prototype link, with lookup through the
  prototype chain and `Object.prototype` inherited by plain objects;
- the errors the core throws.

Where the code changes state in place, the model uses classes. These are
`PlurTester.Tester`, `PlurTest.TestCase`, `PlurObject.PlurClass`,
`PlurObject.Registry`, `PlurApi.Api` and `PlurApi.ApiRegistry`. Their methods are
proved against pure specification functions: `Advance`, `Reconcile`,
`ImplementSpec`, `PlurifySpec`, `DebugSpec` and `ApiSpec`. The lemmas state the
framework's promises about those functions.

Inputs that come from outside the core are parameters:

- what loading a test target yields (a failure or a test class);
- how each test method call completes;
- the clock reading `plurify` logs.

Three behaviours of the code shape the runner model:

- **Rejection error.** A run rejects with the bare error the failing method threw
  (`Tester.mjs` lines 107 and 49-52). The error names no target and no method.
- **Target without test methods.** Such a target's promise never settles, so the
  run's promise never settles either (`Tester.mjs` lines 96-103).
- **Invalid identifier.** The error an invalid identifier raises is a ReferenceError.
  Line 71 reads the undeclared variable `testTarget` before the intended PlurError is
  built.
  - For the first target of a `test()` call, the error is thrown out of `test()`
    itself.
  - For a later target, it is thrown inside a promise callback. There it is an
    unhandled rejection, and the run's promise never settles.

## Model

| member | source | states |
|---|---|---|
| JsModel.TypeOf | js/plur/test/Tester.mjs:89 | `typeof` yields "undefined" exactly for `undefined` and "function" exactly for functions |
| JsModel.OrDefault | js/plur/test/Test.mjs:120 | `message \|\| fallback`: a non-empty message is kept, an empty one is replaced |
| JsModel.Truthy | js/plur/api/API.mjs:58 | falsy exactly for undefined, null, false, 0 and the empty string (`!!debug`, the `assert` condition) |
| JsModel.HasOwn | js/plur/test/Test.mjs:137 | true iff some own property has the key; an inherited property does not count (see `PlurTest.InheritedPropertyHasButNotOwns`) |
| JsModel.Get | js/plur/test/Test.mjs:182 | an own property shadows the prototype chain, and a defined result needs an own property or a prototype; `PlurObject.GetAfterSetOwn` relates it to assignment |
| JsModel.FindOwn | js/plur/PlurObject.mjs:154 | an own lookup finds a value iff some own property has the key |
| JsModel.SetOwn | js/plur/PlurObject.mjs:132 | after an assignment the key reads back as the assigned value and every other own key is unchanged; the property count grows by one exactly when the key was not owned |
| JsModel.EnumerableValues | js/plur/PlurObject.mjs:151-160 | at most one value per own property; order and membership are given by `EnumerableValuesAppend` and `EnumerableValuesMembers` |
| JsModel.EnumerableValuesAppend | js/plur/PlurObject.mjs:153-157 | collecting enumerable values keeps property order across concatenation |
| JsModel.EnumerableValuesMembers | js/plur/PlurObject.mjs:153-157 | a value is collected iff some own enumerable property holds it |
| PlurTest.Assert | js/plur/test/Test.mjs:118-121 | throws iff the condition is falsy, with the default message and the condition as payload |
| PlurTest.AssertEquals | js/plur/test/Test.mjs:126-129 | throws iff `actual !== expected`; the payload carries both values |
| PlurTest.AssertOwns | js/plur/test/Test.mjs:134-142 | passes iff the object is defined and owns the property with exactly the expected value; each of the three failures has its own message and payload |
| PlurTest.AssertHas | js/plur/test/Test.mjs:179-187 | passes iff the property resolves through the prototype chain to a defined value that equals `expected`, or `expected` is undefined; each failure's message and payload |
| PlurTest.FailWith | js/plur/test/Test.mjs:192-194 | always throws, carrying the given data |
| PlurTest.AssertTry | js/plur/test/Test.mjs:31-37 | a normal callback result passes through; a throw is rethrown wrapped, with the original as cause |
| PlurTest.AssertCatch | js/plur/test/Test.mjs:39-46 | as written: returns `undefined` however the callback completes |
| PlurTest.AssertCatchIntended | js/plur/test/Test.mjs:39-46 | corrected: throws iff the callback returned normally |
| PlurTest.AssertCatchAcceptsNormalCallback | js/plur/test/Test.mjs:39-46 | a callback that returns normally is accepted as written but rejected by the corrected version |
| PlurTest.OwnsImpliesHas | js/plur/test/Test.mjs:134-142 | an object that passes `assertOwns` with a defined expected value also passes `assertHas` |
| PlurTest.InheritedPropertyHasButNotOwns | js/plur/test/Test.mjs:179-187 | an inherited defined property passes `assertHas` and fails `assertOwns` |
| PlurTest.Reconcile | js/plur/test/Test.mjs:77-82 | fails only with the `assertEquals` comparison of two different counts; `ReconcilePassIff` and `TestCase.EmissionsMismatchAt` give when it passes |
| PlurTest.ReconcilePassIff | js/plur/test/Test.mjs:77-82 | reconciling passes iff every registered event type's observed count equals its expected count |
| PlurTest.TestCase.constructor | js/plur/test/Test.mjs:18-24 | empty bookkeeping; the prefix is the namepath the instance sees followed by "."; an instance of a subclass that was never plurified inherits the base class's namepath, so its prefix is "plur/test/Test." |
| PlurTest.TestCase.Emit | js/plur/test/Test.mjs:59-61 | the qualified type's observed count grows by the number of counters subscribed to it; every other count is unchanged |
| PlurTest.TestCase.AssertEmission | js/plur/test/Test.mjs:63-75 | sets the expected count, resets the observed count to 0, subscribes one more counter; other event types unchanged |
| PlurTest.TestCase.AssertExpectedEmissions | js/plur/test/Test.mjs:77-82 | changes nothing; passes iff observed equals expected for every registered type, else fails at the first mismatch in registration order |
| PlurTest.TestCase.EmissionsMismatchAt | js/plur/test/Test.mjs:77-82 | one mismatching registered type makes reconciliation fail |
| PlurTest.TestCase.AddPromise | js/plur/test/Test.mjs:97-99 | appends the work item; afterwards there is pending work |
| PlurTest.TestCase.HasPromises | js/plur/test/Test.mjs:101-103 | true iff the pending-work list is non-empty |
| PlurTest.EmissionScenario | js/plur/test/Test.mjs:63-82 | expecting two emissions and emitting `n` passes iff `n` is 2, and otherwise fails with expected 2 and actual `n` |
| PlurObject.ImplementedEntry | js/plur/PlurObject.mjs:119 | `implemented[key]` on a plain object: a recorded key gives its entry, any other key resolves through `Object.prototype`; `Implementing` and `ImplementRefusesRecordedInterface` state what it decides |
| PlurObject.Implementing | js/plur/PlurObject.mjs:44-53 | false without an `implemented` record; otherwise true iff the string, or the interface's namepath, has a defined entry |
| PlurObject.IsPlurified | js/plur/PlurObject.mjs:24-26 | as written: false for every object or class |
| PlurObject.IsPlurifiedClass | js/plur/PlurObject.mjs:34-36 | as written: false for every class |
| PlurObject.IsPlurifiedIntended | js/plur/PlurObject.mjs:24-26 | corrected: true iff there is a record and it holds `plur/IPlurified` |
| PlurObject.IsPlurifiedMissesPlurifiedClass | js/plur/PlurObject.mjs:24-26 | a freshly plurified class is recognised by the corrected check and not by the code as written |
| PlurObject.Placeholders | js/plur/PlurObject.mjs:126-128 | every selected key is an own enumerable property holding the abstract placeholder |
| PlurObject.PlaceholdersComplete | js/plur/PlurObject.mjs:126-128 | every own enumerable placeholder property is selected |
| PlurObject.PlaceholdersDistinct | js/plur/PlurObject.mjs:126-128 | the selected keys are distinct |
| PlurObject.CopyPlaceholders | js/plur/PlurObject.mjs:126-141 | the copy keeps the prototype's own prototype link and removes no own property; `CopyPlaceholdersSpec` gives the full result and `CopyKeepsDefinedSlots` the untouched slots |
| PlurObject.CopyKeepsDefinedSlots | js/plur/PlurObject.mjs:130-139 | a slot defined before the copy holds the same value after it, whether or not the copy throws |
| PlurObject.CopyPlaceholdersSpec | js/plur/PlurObject.mjs:126-141 | the copy throws iff some key's slot already holds the placeholder; on success an undefined slot receives the placeholder and every other slot is unchanged |
| PlurObject.ImplementSpec | js/plur/PlurObject.mjs:118-144 | keeps the namepath and whether there is a record; a failure leaves the record unchanged; after a success `implementing` recognises the interface; `ImplementOutcome` gives the rest |
| PlurObject.ImplementRefusesRecordedInterface | js/plur/PlurObject.mjs:119-121 | an interface already in the record throws before the prototype is touched |
| PlurObject.ImplementOutcome | js/plur/PlurObject.mjs:118-144 | success records exactly `implemented[namepath] = iface` and fills the prototype as the copy lemma says; a failure leaves the record unchanged |
| PlurObject.ImplementTwiceFails | js/plur/PlurObject.mjs:118-144 | implementing the same interface again throws "Not a valid plur Object." |
| PlurObject.Implement | js/plur/PlurObject.mjs:118-144 | the in-place loop leaves the class exactly in the state `ImplementSpec` gives, with the same error |
| PlurObject.Stamp | js/plur/PlurObject.mjs:86-90 | when stamping succeeds, the record is reset to the `plur/IPlurified` entry alone |
| PlurObject.StampSetsNamepath | js/plur/PlurObject.mjs:162-164 | after stamping, both the class and its prototype own `namepath` equal to the given one |
| PlurObject.InterfaceListOf | js/plur/PlurObject.mjs:95-102 | the interfaces `plurify` implements: none, the single one, or the list in order; `SingleInterfaceIsOneElementList` shows a single interface acts as a one-element list |
| PlurObject.ImplementAll | js/plur/PlurObject.mjs:104-106 | keeps the namepath and whether there is a record; without a record a non-empty list fails; `ImplementAllPreserves` gives the rest |
| PlurObject.PlurifySpec | js/plur/PlurObject.mjs:86-107 | logged iff stamping succeeds; a logged class owns the namepath and has a record; an unlogged call completes abruptly; `PlurifyOutcome` gives the rest |
| PlurObject.SingleInterfaceIsOneElementList | js/plur/PlurObject.mjs:100-102 | a single interface behaves as a one-element list |
| PlurObject.ImplementAllPreserves | js/plur/PlurObject.mjs:104-106 | implementing a list in order keeps the namepath, every defined slot and every existing record entry; after success each listed interface is recognised |
| PlurObject.PlurifyOutcome | js/plur/PlurObject.mjs:86-107 | a successful plurify is logged, stamps the namepath on class and prototype, keeps `plur/IPlurified`, and records every given interface |
| PlurObject.Registry.constructor | js/plur/PlurObject.mjs:180 | the plurified log starts empty |
| PlurObject.Registry.GetPlurified | js/plur/PlurObject.mjs:170-172 | returns the log itself; `Registry.Plurify` states how it grows |
| PlurObject.StampNamepath | js/plur/PlurObject.mjs:86-90 | the class and error after stamping are those of `Stamp`: a conflicting namepath is refused, otherwise both `namepath` slots are set and the record reset |
| PlurObject.Registry.Plurify | js/plur/PlurObject.mjs:86-107 | the class ends in the specified state, with the specified completion; the log grows by exactly one record `(np, now)` iff stamping succeeded |
| PlurObject.Values | js/plur/PlurObject.mjs:151-160 | the own enumerable values in enumeration order; a value is listed iff an own enumerable property holds it |
| PlurApi.Api.constructor | js/plur/api/API.mjs:53-62 | stores the descriptive strings; the framework flag is `!!debug` and the runtime flag starts equal to it; a missing import map becomes `{}` |
| PlurApi.DebugSpec | js/plur/api/API.mjs:69-77 | a set framework flag (own or `plur`'s) answers with the own framework flag; otherwise a boolean toggle overwrites the runtime flag, another toggle leaves it, and it is the answer |
| PlurApi.Api.Debug | js/plur/api/API.mjs:69-77 | answer and new runtime flag are those of `DebugSpec`: a set framework-wide flag (own or `plur`'s) answers the own flag and ignores the toggle; otherwise a boolean toggle overwrites the runtime flag, which is the answer |
| PlurApi.DebugToggleThenQuery | js/plur/api/API.mjs:69-77 | a toggle followed by a query answers the toggle, unless a framework flag is set |
| PlurApi.Api.GetImportPaths | js/plur/api/API.mjs:79-81 | exactly the own enumerable values of the import path map, in key order |
| PlurApi.ApiSpec | js/plur/api/API.mjs:24-43 | an error leaves the registry and the `plur` slot unchanged; a registered name is never removed or rebound; the cases are `NoNameReturnsPlur`, `RegisterOnce`, `RegisterThenLookup` and `UnknownNameThrows` |
| PlurApi.Api.GetImportPathMap | js/plur/api/API.mjs:83-85 | returns the map the constructor stored (`{}` for a falsy argument); `Api.GetImportPaths` reads its values |
| PlurApi.NoNameReturnsPlur | js/plur/api/API.mjs:24-26 | without a name the `plur` slot is returned and nothing changes |
| PlurApi.RegisterOnce | js/plur/api/API.mjs:27-30 | a second registration under a name throws "already registered" and leaves the registry unchanged |
| PlurApi.RegisterThenLookup | js/plur/api/API.mjs:32-39 | a registration returns the API, a later lookup returns the same API, only "plur" fills the `plur` slot, and no other name changes |
| PlurApi.UnknownNameThrows | js/plur/api/API.mjs:38-42 | looking up an unregistered name throws "Unknown API name" |
| PlurApi.ApiRegistry.constructor | js/plur/api/API.mjs:115-117 | the registry starts empty and `plur` null |
| PlurApi.ApiRegistry.Resolve | js/plur/api/API.mjs:24-43 | the new registry, `plur` slot and result are those of `ApiSpec`: no name returns `plur`; registering refuses a taken name; a lookup of an unknown name throws |
| PlurTester.ValidTargetName | js/plur/test/Tester.mjs:29 | one or more characters of the class `[a-zA-Z0-9_\-\/]` (`TargetChar`); an accepted identifier holds no dot and no space |
| PlurTester.TargetNameExamples | js/plur/test/Tester.mjs:29 | a path of letters, digits, `_`, `-` and `/` matches the identifier pattern; empty strings, spaces and dots do not |
| PlurTester.IsTestMethod | js/plur/test/Tester.mjs:89 | a property is a test method iff its name starts with `test_` and its value is a function |
| PlurTester.TestMethodNames | js/plur/test/Tester.mjs:86-94 | no more names than properties, each starting with `test_`; membership and order are given by `TestMethodNamesMembers` and `TestMethodNamesAppend` |
| PlurTester.TestMethodNamesAppend | js/plur/test/Tester.mjs:86-94 | discovery keeps property order across concatenation |
| PlurTester.TestMethodNamesMembers | js/plur/test/Tester.mjs:86-94 | a name is discovered iff some own prototype property with that name starts with `test_` and holds a function |
| PlurTester.DiscoverTestMethods | js/plur/test/Tester.mjs:86-94 | the discovery loop yields exactly the ordered subsequence of test method names |
| PlurTester.MethodError | js/plur/test/Tester.mjs:137-159 | a method call fails iff it throws synchronously |
| PlurTester.ReturnedPromiseIgnored | js/plur/test/Tester.mjs:142-143 | a returned promise, even a rejected one, counts as success for the runner; the runner does not observe the rejection |
| PlurTester.MethodsRun | js/plur/test/Tester.mjs:110-135 | the method chain never hangs; it invokes at least one method unless there is none, never more than there are, and passes only after invoking them all; `MethodsRunIsPrefix` gives the rest |
| PlurTester.MethodsRunIsPrefix | js/plur/test/Tester.mjs:110-135 | the invoked methods are a prefix of the discovered ones; the target passes iff all ran and none threw, and fails with the last invoked method's error, every earlier one having returned |
| PlurTester.TargetRunOf | js/plur/test/Tester.mjs:76-105 | a target hangs iff it produces no event; otherwise it loaded and its first event is the construction; `ZeroMethodTargetHangs` and `TargetRunShape` describe it further |
| PlurTester.ZeroMethodTargetHangs | js/plur/test/Tester.mjs:96-103 | a target without test methods produces no event and never settles |
| PlurTester.TestFrom | js/plur/test/Tester.mjs:31-47 | `test()` from a cursor position: the cursor never moves back and stays in the list; a resolved run ends on the last target; `test()` throws only at the first target visited, with no event |
| PlurTester.Run | js/plur/test/Tester.mjs:31-47 | `test()` on a fresh runner: the cursor ends in the list (at -1 for an empty one); a resolved run ends on the last target; `test()` throws only for the first identifier, before any event |
| PlurTester.RunEmptyResolves | js/plur/test/Tester.mjs:40-41 | an empty target list resolves at once with no event |
| PlurTester.InvalidFirstTargetRaises | js/plur/test/Tester.mjs:70-72 | an invalid first identifier makes `test()` throw the ReferenceError before anything is loaded |
| PlurTester.Advance | js/plur/test/Tester.mjs:59-108 | the trace, outcome and final cursor of the `_testNextTarget` chain from a cursor position; `AdvanceCursor`, `AdvanceTrace`, `AdvanceHalts` and `AllPassAdvance` state its properties |
| PlurTester.AdvanceCursor | js/plur/test/Tester.mjs:59-108 | the cursor moves one target at a time past passing targets; the run resolves iff it reaches the last target with every target passed; otherwise it stops on a target that did not pass; only the first target of a call can make `test()` throw |
| PlurTester.AdvanceTrace | js/plur/test/Tester.mjs:59-108 | every event belongs to a visited target that passed the pattern, loaded, has test methods and a returning constructor; invoked methods are discovered ones; the trace is ordered by target |
| PlurTester.RunTrace | js/plur/test/Tester.mjs:68-98 | the same for a whole run: only valid, loaded targets with test methods are instantiated or invoked |
| PlurTester.OneInstancePerTarget | js/plur/test/Tester.mjs:96-98 | each target is instantiated at most once |
| PlurTester.InstanceBeforeInvocation | js/plur/test/Tester.mjs:96-98 | every invocation comes after the construction of its target's instance |
| PlurTester.AdvanceHalts | js/plur/test/Tester.mjs:120-131 | a rejected run ends with the invocation that threw the rejection error, on the target under the cursor; every earlier invocation returned |
| PlurTester.FailureHalts | js/plur/test/Tester.mjs:49-52 | the same for a whole run: the run rejects with the same error the failing method threw, and nothing runs after it |
| PlurTester.FullTraceCount | js/plur/test/Tester.mjs:86-98 | the full trace holds one invocation per discovered test method |
| PlurTester.AllPassAdvance | js/plur/test/Tester.mjs:63-68 | when every remaining target passes, the run resolves with the cursor on the last target, and the trace is each target's construction followed by all its test methods |
| PlurTester.AllPass | js/plur/test/Tester.mjs:59-108 | the same for a whole run, with the invocation count equal to the total number of test methods |
| PlurTester.Tester.constructor | js/plur/test/Tester.mjs:16-24 | cursor at -1, no current target, no promise, empty trace |
| PlurTester.Tester.Test | js/plur/test/Tester.mjs:31-47 | the new trace, cursor and outcome are those of `Advance` from the old cursor; the current target is the one under the cursor |
| PlurTester.Tester.TestNextTarget | js/plur/test/Tester.mjs:59-72 | from the current cursor the trace grows, and the cursor and outcome become, exactly those of `Advance`: resolve at the end, advance, and refuse an invalid identifier (thrown only on the synchronous first call) |
| PlurTester.Tester.RunTarget | js/plur/test/Tester.mjs:74-107 | runs the target under the cursor and, after a pass, continues with the next target; a failure rejects with the bare error and a hung target leaves the promise pending, as `Advance` says |
| PlurTester.Tester.TestTarget | js/plur/test/Tester.mjs:76-105 | appends the target's events and returns its outcome as specified |
| PlurTester.Tester.TestMethods | js/plur/test/Tester.mjs:110-135 | runs the methods in order, appending one invocation per call, and stops at the first throw |

## Left out

- Dynamic `import()` and module path building (`Tester.mjs` line 77) are not modelled. A target's load result is given as data.
  - A module without a default export, or whose `default` has no prototype, is modelled as a failed load.
  - A load failure is unhandled in the code, so the run's promise never settles.
- Promises, `setTimeout`, the timeout executor, and `onPromises` are left out; they are asynchronous and timing code. The runner is a sequential loop whose outcome is `Resolved`, `Rejected`, `Stuck` (pending for ever) or `Raised`.
- The host's handling of unhandled rejections is not modelled. A failed load, an invalid later identifier and a rejected promise returned by a test method are unhandled rejections. The model reads them at the language level: the run's promise never settles (`Stuck`), and a returned rejected promise is ignored. A host that treats unhandled rejections as fatal (Node.js since version 15, by default) ends the process instead.
- Logging through the system log is left out; it is informational only.
- Emitter internals are not modelled. Only the effect of a subscribed counter is: exact event-type matching and one increment per subscription. Emit payloads and subscription ids are dropped.
- `Test.prototype.test` is left out, because it relies on `for..in` reflection over inherited instance properties.
- `sleep` is left out, because it calls an undefined function.
- `assertCreation` is left out, because it depends on live constructors and prototype identity.
- Instance properties that shadow prototype test methods are not modelled. The runner calls the prototype's methods.
- Numbers are integers. NaN, -0 and floating point are not modelled.
- Property order is insertion order. The reordering of integer-like keys is not modelled.
- Messages, namepaths and target identifiers are strings. Non-string arguments are not modelled.
- `Date.now()` is the `now` parameter of `Plurify`.
- PlurObject.Stamp: an existing own `namepath` is taken to be one that a previous write-once definition made. An inherited static `namepath` on a subclass, and writable existing properties, are not modelled.
- The class's `implemented` record is its own. Static inheritance of `implemented` from a parent class is not modelled.
- Prototypes are values. Aliasing between a prototype and its parent's is not modelled.
- Property descriptors, getters and setters are not modelled.
- PlurApi.Api.Debug takes `API.plur` as a non-null parameter. The instance constant `debug` shadowing the `debug()` method is not modelled.
- `API.init()` is not modelled, because its body is empty.
- The platform, OS and browser constant tables are not modelled.
- The interface declaration files, the terminal shell, the browser stub and the test template are not part of this model.
- PlurObject.IsPlurified: an undefined or null argument throws a TypeError at `o.implemented` (`PlurObject.mjs` line 25). The model takes the record of an object or class, so that path is not modelled. The same holds for PlurObject.IsPlurifiedClass (line 35).
- PlurTest.AssertOwns: `object.hasOwnProperty` (`Test.mjs` line 137) is taken to be `Object.prototype`'s. A `null` object, an object whose prototype chain lacks `Object.prototype`, and an object with its own `hasOwnProperty` are not modelled. In the code the first two throw a TypeError and the third calls that property. The model looks at the own keys in all three cases.
- PlurTest.AssertHas: a `null` object is not modelled. `typeof null` is not "undefined", so the code reads `null[propertyName]` (`Test.mjs` line 182) and throws a TypeError.
- PlurObject.Placeholders: the interface prototype's `hasOwnProperty` (`PlurObject.mjs` line 128) is taken to be `Object.prototype`'s, as for `assertOwns`. A prototype without `Object.prototype` in its chain, which throws a TypeError there, and one that owns `hasOwnProperty` are not modelled.
- PlurObject.Values: the same holds for `object.hasOwnProperty` (`PlurObject.mjs` line 154).
- PlurObject.Implement: a class without an `implemented` record throws a TypeError. The exact engine message is not modelled.

## Findings

| source | as written | input that shows it | evidently intended | confidence | as-written member | corrected member |
|---|---|---|---|---|---|---|
| js/plur/test/Test.mjs:39-46 | the AssertionError thrown after a normal callback is caught by the same handler, so `assertCatch` never throws | a callback that returns normally | throw when the callback does not throw | high, not executed | PlurTest.AssertCatch (PlurTest.AssertCatchAcceptsNormalCallback) | PlurTest.AssertCatchIntended |
| js/plur/PlurObject.mjs:24-36 | `typeof ... === 'Object'` is never true, so `isPlurified` and `isPlurifiedClass` are always false | any class just passed to `plurify` | compare with `'object'` | high, not executed | PlurObject.IsPlurified (PlurObject.IsPlurifiedMissesPlurifiedClass) | PlurObject.IsPlurifiedIntended |
