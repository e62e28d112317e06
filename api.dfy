/** The API registry of plur (js/plur/api/API.mjs): a table of named API descriptors
    with a distinguished `plur` slot, register-once and lookup-or-throw rules, and a
    runtime debug flag that the framework-wide flags override. */
module PlurApi {
  import opened JsModel
  import PlurObject

  /** An API descriptor. The four descriptive strings and the framework-wide `debug`
      flag are write-once properties; the runtime flag and the import path map are
      ordinary fields. */
  class Api {
    const name: string
    const version: string
    const scmUrl: string
    const branch: string
    /** Framework-wide debugging (`!!debug` of the constructor argument). */
    const debug: bool
    /** `_debug`, the runtime debugging flag. */
    var runtimeDebug: bool
    /** `_importPathMap`. */
    var importPathMap: JsObject

    /** `new API(name, version, scmUrl, branch, importPathsMap, debug)`; `None` stands
        for every falsy import path map argument. */
    constructor (name: string, version: string, scmUrl: string, branch: string,
                 importPathsMap: Option<JsObject>, debug: Value)
      ensures this.name == name && this.version == version && this.scmUrl == scmUrl && this.branch == branch
      ensures this.debug == Truthy(debug) && runtimeDebug == this.debug
      ensures importPathMap == if importPathsMap.Some? then importPathsMap.value else PlainObject([])
    {
      this.name := name;
      this.version := version;
      this.scmUrl := scmUrl;
      this.branch := branch;
      this.debug := Truthy(debug);
      new;
      runtimeDebug := this.debug;
      importPathMap := if importPathsMap.Some? then importPathsMap.value else PlainObject([]);
    }

    /** The `debug(toggle)` method, with `plur` the API registered as `plur`. */
    method Debug(plur: Api, toggle: Value) returns (r: bool)
      modifies this`runtimeDebug
      ensures DebugOutcome(r, runtimeDebug) == DebugSpec(debug, plur.debug, old(runtimeDebug), toggle)
    {
      if debug || plur.debug {
        return debug;
      } else if toggle.Bool? {
        runtimeDebug := toggle.b;
      }
      r := runtimeDebug;
    }

    /** `getImportPaths()`: the own enumerable values of the import path map, in order. */
    method GetImportPaths() returns (paths: seq<Value>)
      ensures paths == EnumerableValues(importPathMap.own)
      ensures forall v :: v in paths <==>
                exists i :: 0 <= i < |importPathMap.own| && importPathMap.own[i].enumerable && importPathMap.own[i].value == v
    {
      paths := PlurObject.Values(importPathMap);
    }

    /** `getImportPathMap()`. */
    function GetImportPathMap(): JsObject
      reads this
    {
      importPathMap
    }
  }

  datatype DebugOutcome = DebugOutcome(result: bool, runtimeDebug: bool)

  /** The logic of `debug(toggle)`: a set framework-wide flag (this API's or `plur`'s)
      answers with this API's flag and ignores the toggle; otherwise a boolean toggle
      overwrites the runtime flag, any other toggle leaves it, and the runtime flag is
      the answer. */
  function DebugSpec(framework: bool, plurFramework: bool, runtime: bool, toggle: Value): (d: DebugOutcome)
    ensures framework || plurFramework ==> d == DebugOutcome(framework, runtime)
    ensures !framework && !plurFramework && toggle.Bool? ==> d == DebugOutcome(toggle.b, toggle.b)
    ensures !framework && !plurFramework && !toggle.Bool? ==> d == DebugOutcome(runtime, runtime)
  {
    if framework || plurFramework then DebugOutcome(framework, runtime)
    else
      var rt := if TypeOf(toggle) == "boolean" then toggle.b else runtime;
      DebugOutcome(rt, rt)
  }

  /** A toggle followed by a query answers the toggle, unless a framework flag is set,
      in which case both calls answer this API's framework flag. */
  lemma DebugToggleThenQuery(framework: bool, plurFramework: bool, runtime: bool, b: bool, query: Value)
    requires !query.Bool?
    ensures var first := DebugSpec(framework, plurFramework, runtime, Bool(b));
            var second := DebugSpec(framework, plurFramework, first.runtimeDebug, query);
            second.result == (if framework || plurFramework then framework else b) &&
            second.result == first.result
  {
  }

  /** What `API.api(name, api)` returns: an API (or null, when `plur` is unset) or an error. */
  datatype ApiReturn = ReturnedApi(api: Api?) | ApiError(error: Exception)

  datatype ApiState = ApiState(apis: map<string, Api>, plur: Api?, ret: ApiReturn)

  /** `API.api(name, api)` over the registry `apis` and the `plur` slot; `None` is an
      omitted name and `null` an `api` argument that is not an API. The registry is an
      array, so storing under "length" makes the array throw a RangeError. */
  function ApiSpec(apis: map<string, Api>, plur: Api?, name: Option<string>, api: Api?): (r: ApiState)
    ensures r.ret.ApiError? ==> r.apis == apis && r.plur == plur
    ensures apis.Keys <= r.apis.Keys
    ensures forall n :: n in apis ==> r.apis[n] == apis[n]
  {
    match name
    case None => ApiState(apis, plur, ReturnedApi(plur))
    case Some(n) =>
      if api != null then
        if n in apis then ApiState(apis, plur, ApiError(NativeError(PlainError, "API " + n + " is already registered.")))
        else if n == "length" then ApiState(apis, plur, ApiError(NativeError(RangeError, "Invalid array length")))
        else ApiState(apis[n := api], if n == "plur" then api else plur, ReturnedApi(api))
      else if n in apis then ApiState(apis, plur, ReturnedApi(apis[n]))
      else ApiState(apis, plur, ApiError(NativeError(PlainError, "Unknown API name: " + n)))
  }

  /** Without a name, `api()` returns the `plur` slot and changes nothing. */
  lemma NoNameReturnsPlur(apis: map<string, Api>, plur: Api?, api: Api?)
    ensures ApiSpec(apis, plur, None, api) == ApiState(apis, plur, ReturnedApi(plur))
  {
  }

  /** A name already registered cannot be registered again; the registry is unchanged. */
  lemma RegisterOnce(apis: map<string, Api>, plur: Api?, n: string, api: Api)
    requires n in apis
    ensures var s := ApiSpec(apis, plur, Some(n), api);
            s.apis == apis && s.plur == plur && s.ret.ApiError? &&
            s.ret.error == NativeError(PlainError, "API " + n + " is already registered.")
  {
  }

  /** A successful registration returns the API, a later lookup by the same name returns
      that same API, only the `plur` name fills the `plur` slot, and no other name changes. */
  lemma RegisterThenLookup(apis: map<string, Api>, plur: Api?, n: string, api: Api)
    requires n !in apis && n != "length"
    ensures var s := ApiSpec(apis, plur, Some(n), api);
            s.ret == ReturnedApi(api) &&
            ApiSpec(s.apis, s.plur, Some(n), null).ret == ReturnedApi(api) &&
            (s.plur == if n == "plur" then api else plur) &&
            (forall m :: m != n ==> (m in s.apis <==> m in apis) && (m in apis ==> s.apis[m] == apis[m]))
  {
  }

  /** Looking up a name with nothing registered under it throws. */
  lemma UnknownNameThrows(apis: map<string, Api>, plur: Api?, n: string)
    requires n !in apis
    ensures ApiSpec(apis, plur, Some(n), null) ==
            ApiState(apis, plur, ApiError(NativeError(PlainError, "Unknown API name: " + n)))
  {
  }

  /** The static state of `API`: `_apis` and `plur`. */
  class ApiRegistry {
    var apis: map<string, Api>
    var plur: Api?

    constructor ()
      ensures apis == map[] && plur == null
    {
      apis := map[];
      plur := null;
    }

    /** `API.api(name, api)`. */
    method Resolve(name: Option<string>, api: Api?) returns (r: ApiReturn)
      modifies this
      ensures ApiState(apis, plur, r) == ApiSpec(old(apis), old(plur), name, api)
    {
      if name.None? {
        return ReturnedApi(plur);
      }
      var n := name.value;
      if api != null {
        if n in apis {
          return ApiError(NativeError(PlainError, "API " + n + " is already registered."));
        }
        if n == "length" {
          return ApiError(NativeError(RangeError, "Invalid array length"));
        }
        apis := apis[n := api];
        if n == "plur" {
          plur := api;
        }
        return ReturnedApi(api);
      } else if n in apis {
        return ReturnedApi(apis[n]);
      }
      r := ApiError(NativeError(PlainError, "Unknown API name: " + n));
    }
  }
}
