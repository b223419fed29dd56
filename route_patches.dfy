/**
 * `routePatch`: a mountable that registers one wrapper of a route patch with
 * the host router while mounted. The wrapper logs the route hit with a
 * best-effort app id, never lets the diagnostic fail the render, and
 * always answers what the wrapped patch answers.
 */
module RoutePatches {

  // ---------------------------------------------------------------------
  // The props a patch receives, as far as the wrapper looks at them

  /** A JavaScript value: nullish, a primitive, or an object with properties. */
  datatype JsValue =
    | Undefined
    | Null
    | Primitive(text: string)
    | Object(properties: map<string, Property>)

  /** An own property: a plain value, or a getter that throws when read. */
  datatype Property = Data(value: JsValue) | ThrowingGetter

  /** The outcome of evaluating an expression: a value, or an exception. */
  datatype Access = Value(v: JsValue) | Threw

  predicate IsNullish(v: JsValue)
  {
    v.Undefined? || v.Null?
  }

  /**
   * `v?.key`: nullish short-circuits to `undefined`, a missing property and
   * any property of a primitive read as `undefined`.
   */
  function OptionalMember(v: JsValue, key: string): (r: Access)
    ensures IsNullish(v) ==> r == Value(Undefined)
    ensures r.Threw? <==> v.Object? && key in v.properties && v.properties[key].ThrowingGetter?
  {
    match v
    case Object(properties) =>
      if key !in properties then Value(Undefined)
      else if properties[key].ThrowingGetter? then Threw
      else Value(properties[key].value)
    case _ => Value(Undefined)
  }

  /** `v?.k1?.k2?. ...`: a chain of optional member accesses, stopping at the first exception. */
  function OptionalChain(v: JsValue, keys: seq<string>): (r: Access)
    ensures keys == [] ==> r == Value(v)
    ensures keys != [] && IsNullish(v) ==> r == Value(Undefined)
    decreases |keys|
  {
    if keys == [] then Value(v)
    else
      match OptionalMember(v, keys[0])
      case Threw => Threw
      case Value(next) => OptionalChain(next, keys[1..])
  }

  /** `props?.match?.params?.appid`. */
  function MatchParamsAppId(props: JsValue): Access
  {
    OptionalChain(props, ["match", "params", "appid"])
  }

  /** `props?.params?.appid`. */
  function ParamsAppId(props: JsValue): Access
  {
    OptionalChain(props, ["params", "appid"])
  }

  const UnknownAppId: JsValue := Primitive("unknown")

  /**
   * `props?.match?.params?.appid ?? props?.params?.appid ?? "unknown"`: the
   * right operand of `??` is evaluated only when the left one is nullish,
   * and an exception in an evaluated operand is the outcome.
   */
  function ExtractAppId(props: JsValue): (r: Access)
    ensures r.Value? ==> !IsNullish(r.v)
  {
    match MatchParamsAppId(props)
    case Threw => Threw
    case Value(first) =>
      if !IsNullish(first) then Value(first)
      else
        match ParamsAppId(props)
        case Threw => Threw
        case Value(second) => if !IsNullish(second) then Value(second) else Value(UnknownAppId)
  }

  /** The app id is the first non-nullish candidate, in order, and "unknown" when both are nullish. */
  lemma ExtractAppIdFallback(props: JsValue)
    ensures MatchParamsAppId(props).Value? && !IsNullish(MatchParamsAppId(props).v) ==>
              ExtractAppId(props) == MatchParamsAppId(props)
    ensures MatchParamsAppId(props).Value? && IsNullish(MatchParamsAppId(props).v) ==>
              ExtractAppId(props) == (if ParamsAppId(props).Value? && IsNullish(ParamsAppId(props).v)
                                      then Value(UnknownAppId) else ParamsAppId(props))
    ensures ExtractAppId(props).Threw? <==>
              || MatchParamsAppId(props).Threw?
              || (IsNullish(MatchParamsAppId(props).v) && ParamsAppId(props).Threw?)
  {
  }

  /** Props that are nullish, or lack both `match` and `params`, give "unknown". */
  lemma ExtractAppIdOfBareProps(props: JsValue)
    requires IsNullish(props) || (props.Object? && "match" !in props.properties && "params" !in props.properties)
    ensures ExtractAppId(props) == Value(UnknownAppId)
  {
  }

  /** The route's own `match.params.appid` wins over a top-level `params.appid`. */
  lemma ExtractAppIdPrefersMatch(routeAppId: string, paramsAppId: string)
    ensures var props := Object(map[
              "match" := Data(Object(map["params" := Data(Object(map["appid" := Data(Primitive(routeAppId))]))])),
              "params" := Data(Object(map["appid" := Data(Primitive(paramsAppId))]))]);
            ExtractAppId(props) == Value(Primitive(routeAppId))
  {
  }

  // ---------------------------------------------------------------------
  // The wrapper

  /** `console.log("[MetaDeck DIAG] routePatch hit", path, "appid=", appid)`. */
  datatype DiagLine = DiagLine(path: string, appid: JsValue)

  /** What one call of the wrapper answers and what it wrote to the console. */
  datatype Hit<R> = Hit(result: R, logged: seq<DiagLine>)

  /**
   * The `wrapped` closure: an object, because the host router removes a
   * patch by reference, capturing the route path and the patch it wraps.
   */
  class WrappedPatch<R> {
    const path: string
    const patch: JsValue -> R

    constructor (path: string, patch: JsValue -> R)
      ensures this.path == path && this.patch == patch
    {
      this.path := path;
      this.patch := patch;
    }

    /**
     * A call with `props`; `consoleThrows` says whether `console.log`
     * throws. The diagnostic line is written only when the app id was
     * extracted and the console accepted it; the answer is always the
     * patch's.
     */
    function Call(props: JsValue, consoleThrows: bool): (hit: Hit<R>)
      ensures hit.result == patch(props)
      ensures |hit.logged| <= 1
      ensures hit.logged != [] <==> ExtractAppId(props).Value? && !consoleThrows
      ensures hit.logged != [] ==> hit.logged[0] == DiagLine(path, ExtractAppId(props).v)
    {
      var logged :=
        match ExtractAppId(props)
        case Threw => []
        case Value(appid) => if consoleThrows then [] else [DiagLine(path, appid)];
      Hit(patch(props), logged)
    }
  }

  /** Whatever the props and the console do, the wrapper answers exactly what the patch answers. */
  lemma WrapperIsTransparent<R>(w: WrappedPatch<R>, props: JsValue, consoleThrows: bool)
    ensures w.Call(props, consoleThrows).result == w.patch(props)
    ensures ExtractAppId(props).Threw? ==> w.Call(props, consoleThrows) == Hit(w.patch(props), [])
  {
  }

  // ---------------------------------------------------------------------
  // The host router's patch table

  /**
   * A patch table: for each route path, the patches registered for it in
   * the order they were added, each once; a path with no patches is absent.
   */
  ghost predicate ValidTable(table: map<string, seq<object>>)
  {
    forall path :: path in table ==> table[path] != [] && NoDuplicates(table[path])
  }

  predicate NoDuplicates(s: seq<object>)
  {
    forall i, j :: 0 <= i < j < |s| ==> s[i] != s[j]
  }

  /** `s` without `x`, keeping the order of the rest. */
  function Remove(s: seq<object>, x: object): (r: seq<object>)
    ensures x !in r
    ensures forall i :: 0 <= i < |r| ==> r[i] in s
    ensures forall i :: 0 <= i < |s| && s[i] != x ==> s[i] in r
    ensures |r| <= |s|
  {
    if s == [] then []
    else if s[0] == x then Remove(s[1..], x)
    else [s[0]] + Remove(s[1..], x)
  }

  lemma {:induction false} RemoveAbsent(s: seq<object>, x: object)
    requires x !in s
    ensures Remove(s, x) == s
  {
    if s != [] {
      assert s == [s[0]] + s[1..];
      RemoveAbsent(s[1..], x);
    }
  }

  lemma {:induction false} RemoveAppended(s: seq<object>, x: object)
    requires x !in s
    ensures Remove(s + [x], x) == s
  {
    if s == [] {
      assert [] + [x] == [x];
    } else {
      assert (s + [x])[0] == s[0] && (s + [x])[1..] == s[1..] + [x];
      RemoveAppended(s[1..], x);
      assert s == [s[0]] + s[1..];
    }
  }

  lemma {:induction false} RemoveKeepsNoDuplicates(s: seq<object>, x: object)
    requires NoDuplicates(s)
    ensures NoDuplicates(Remove(s, x))
  {
    if s != [] {
      assert NoDuplicates(s[1..]) by {
        forall i, j | 0 <= i < j < |s[1..]| ensures s[1..][i] != s[1..][j] {
          assert s[1..][i] == s[i + 1] && s[1..][j] == s[j + 1];
        }
      }
      RemoveKeepsNoDuplicates(s[1..], x);
      if s[0] != x {
        var rest := Remove(s[1..], x);
        assert s[0] !in s[1..] by {
          forall k | 0 <= k < |s[1..]| ensures s[1..][k] != s[0] {
            assert s[1..][k] == s[k + 1];
          }
        }
        assert s[0] !in rest;
        forall i, j | 0 <= i < j < |[s[0]] + rest| ensures ([s[0]] + rest)[i] != ([s[0]] + rest)[j] {
          if i == 0 {
            assert ([s[0]] + rest)[j] == rest[j - 1];
          } else {
            assert ([s[0]] + rest)[i] == rest[i - 1] && ([s[0]] + rest)[j] == rest[j - 1];
          }
        }
      }
    }
  }

  /**
   * `addPatch(path, patch)`: the patch joins the end of the path's list
   * unless it is already registered there; every other path is untouched.
   */
  function WithPatch(table: map<string, seq<object>>, path: string, patch: object): (t: map<string, seq<object>>)
    ensures path in t && patch in t[path]
    ensures path in table && patch in table[path] ==> t == table
    ensures !(path in table && patch in table[path]) ==>
              t[path] == (if path in table then table[path] else []) + [patch]
    ensures forall p :: p != path ==> (p in t <==> p in table) && (p in t ==> t[p] == table[p])
  {
    if path in table && patch in table[path] then table
    else table[path := (if path in table then table[path] else []) + [patch]]
  }

  /**
   * `removePatch(path, patch)`: the patch leaves the path's list, and a path
   * whose list becomes empty leaves the table; every other path is untouched.
   */
  function WithoutPatch(table: map<string, seq<object>>, path: string, patch: object): (t: map<string, seq<object>>)
    ensures path in t ==> path in table && t[path] == Remove(table[path], patch) && t[path] != []
    ensures path !in t ==> path !in table || Remove(table[path], patch) == []
    ensures forall p :: p != path ==> (p in t <==> p in table) && (p in t ==> t[p] == table[p])
  {
    if path !in table then table
    else
      var rest := Remove(table[path], patch);
      if rest == [] then table - {path} else table[path := rest]
  }

  lemma WithPatchValid(table: map<string, seq<object>>, path: string, patch: object)
    requires ValidTable(table)
    ensures ValidTable(WithPatch(table, path, patch))
  {
    if !(path in table && patch in table[path]) {
      var before := if path in table then table[path] else [];
      assert NoDuplicates(before + [patch]) by {
        forall i, j | 0 <= i < j < |before + [patch]| ensures (before + [patch])[i] != (before + [patch])[j] {
          if j == |before| {
            assert (before + [patch])[i] == before[i];
          } else {
            assert (before + [patch])[i] == before[i] && (before + [patch])[j] == before[j];
          }
        }
      }
    }
  }

  lemma WithoutPatchValid(table: map<string, seq<object>>, path: string, patch: object)
    requires ValidTable(table)
    ensures ValidTable(WithoutPatch(table, path, patch))
  {
    if path in table {
      RemoveKeepsNoDuplicates(table[path], patch);
    }
  }

  /** Removing a patch that was added to a valid table where it was not registered gives the table back. */
  lemma WithoutPatchUndoesWithPatch(table: map<string, seq<object>>, path: string, patch: object)
    requires ValidTable(table)
    requires path !in table || patch !in table[path]
    ensures WithoutPatch(WithPatch(table, path, patch), path, patch) == table
  {
    if path in table {
      var before := table[path];
      var added := table[path := before + [patch]];
      assert WithPatch(table, path, patch) == added;
      RemoveAppended(before, patch);
      assert WithoutPatch(added, path, patch) == added[path := before];
      assert added[path := before] == table;
    } else {
      var added := table[path := [patch]];
      assert [] + [patch] == [patch];
      assert WithPatch(table, path, patch) == added;
      assert Remove([patch], patch) == [];
      assert WithoutPatch(added, path, patch) == added - {path};
      assert added - {path} == table;
    }
  }

  /** Removing a patch that is not registered under the path leaves a valid table as it is. */
  lemma WithoutPatchAbsent(table: map<string, seq<object>>, path: string, patch: object)
    requires ValidTable(table)
    requires path !in table || patch !in table[path]
    ensures WithoutPatch(table, path, patch) == table
  {
    if path in table {
      RemoveAbsent(table[path], patch);
      assert table[path := table[path]] == table;
    }
  }

  /** The host's `routerHook`, reduced to its patch table; every table it reaches is valid. */
  class RouterHook {
    var patches: map<string, seq<object>>

    ghost predicate Valid()
      reads this
    {
      ValidTable(patches)
    }

    constructor ()
      ensures Valid() && patches == map[]
    {
      patches := map[];
    }

    method AddPatch(path: string, patch: object)
      requires Valid()
      modifies this
      ensures Valid()
      ensures patches == WithPatch(old(patches), path, patch)
    {
      WithPatchValid(patches, path, patch);
      patches := WithPatch(patches, path, patch);
    }

    method RemovePatch(path: string, patch: object)
      requires Valid()
      modifies this
      ensures Valid()
      ensures patches == WithoutPatch(old(patches), path, patch)
    {
      WithoutPatchValid(patches, path, patch);
      patches := WithoutPatch(patches, path, patch);
    }
  }

  // ---------------------------------------------------------------------
  // The mountable

  /** What `routePatch` returns: `mount` and `dismount` over one wrapper. */
  class RoutePatchMountable<R> {
    const router: RouterHook
    const path: string
    const wrapped: WrappedPatch<R>

    constructor (router: RouterHook, path: string, wrapped: WrappedPatch<R>)
      ensures this.router == router && this.path == path && this.wrapped == wrapped
    {
      this.router := router;
      this.path := path;
      this.wrapped := wrapped;
    }

    /** Registers the wrapper under the path. */
    method Mount()
      requires router.Valid()
      modifies router
      ensures router.Valid()
      ensures router.patches == WithPatch(old(router.patches), path, wrapped)
    {
      router.AddPatch(path, wrapped);
    }

    /** Unregisters the very wrapper `Mount` registered. */
    method Dismount()
      requires router.Valid()
      modifies router
      ensures router.Valid()
      ensures router.patches == WithoutPatch(old(router.patches), path, wrapped)
    {
      router.RemovePatch(path, wrapped);
    }
  }

  /** `routePatch(path, patch)`: a fresh wrapper of `patch` for `path`, and the mountable over it. */
  method RoutePatch<R>(router: RouterHook, path: string, patch: JsValue -> R) returns (m: RoutePatchMountable<R>)
    ensures fresh(m) && fresh(m.wrapped)
    ensures m.router == router && m.path == path
    ensures m.wrapped.path == path && m.wrapped.patch == patch
  {
    var wrapped := new WrappedPatch(path, patch);
    m := new RoutePatchMountable(router, path, wrapped);
  }

  /** Dismounting a route patch that was never mounted leaves the router's table as it was. */
  method DismountUnmounted<R>(router: RouterHook, path: string, patch: JsValue -> R)
    requires router.Valid()
    modifies router
    ensures router.Valid()
    ensures router.patches == old(router.patches)
  {
    var m := RoutePatch(router, path, patch);
    assert path !in router.patches || m.wrapped !in router.patches[path];
    WithoutPatchAbsent(router.patches, path, m.wrapped);
    m.Dismount();
  }

  /**
   * A caller that creates a route patch, mounts it and dismounts it: while
   * mounted the table holds the wrapper under the path and nothing else
   * changed, and afterwards the table is what it was.
   */
  method MountThenDismount<R>(router: RouterHook, path: string, patch: JsValue -> R)
    requires router.Valid()
    modifies router
    ensures router.Valid()
    ensures router.patches == old(router.patches)
  {
    var m := RoutePatch(router, path, patch);
    ghost var before := router.patches;
    assert path !in before || m.wrapped !in before[path];
    m.Mount();
    assert router.patches[path] == (if path in before then before[path] else []) + [m.wrapped];
    m.Dismount();
    WithoutPatchUndoesWithPatch(before, path, m.wrapped);
  }
}
