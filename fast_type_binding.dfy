/** Fast constructor-call binding for user-defined Python types.

    A call site that constructs an instance of a user-defined type (`Point(3, 4)`)
    asks the type for a specialised target.  The type refuses when one of the
    eligibility gates fails; otherwise a builder classifies the resolved
    `__new__` and `__init__` slots, obtains the allocation delegate (from a
    process-wide cache keyed by the underlying CLR type and the call-site
    delegate type, or a nested dynamic call site for a user `__new__`) and
    returns a fast site that captures the type's version.  On every call the
    fast site checks the version and either runs new and init directly or
    falls back to the site's generic update path.

    The generated arity variants 0..5 are identical copies; here one model
    takes the call's arguments as a sequence. */
module FastTypeBinding {
  import opened Wrappers

  /** A CLR type, identified by its full name. */
  datatype ClrType = ClrType(name: string)

  const PythonTypeClass := ClrType("IronPython.Runtime.Types.PythonType")
  const ObjectClass := ClrType("System.Object")

  /** Largest number of call arguments for which a fast target is generated. */
  const MaxFastArity := 5

  /** What `TryResolveSlot` finds for a slot name. */
  datatype SlotValue =
    | DefaultInit                                 // InstanceOps.Init
    | DefaultNew                                  // InstanceOps.New
    | Function(id: nat)                           // a PythonFunction
    | StaticMethod(exactType: bool, func: SlotValue)  // a staticmethod (exactType: not a subclass of it) wrapping func
    | OtherSlot(id: nat)                          // any other slot object: builtin, property, classmethod, ...

  /** A snapshot of a Python type as the binder sees it.  The slot fields are
      the results of `TryResolveSlot` (None when it fails). */
  datatype PyType = PyType(
    isSystemType: bool,
    isMixedNewStyleOldStyle: bool,
    del: Option<SlotValue>,        // __del__
    newSlot: Option<SlotValue>,    // __new__
    initSlot: Option<SlotValue>,   // __init__
    version: int,
    underlying: ClrType,           // UnderlyingSystemType
    runtimeClass: ClrType)         // GetType() of the type object itself

  /** How one argument of a call is passed. */
  datatype ArgumentKind = Simple | Named(name: string) | List | Dictionary | Instance

  /** A `PythonInvokeBinder`, reduced to its call signature. */
  datatype Binder = Binder(signature: seq<ArgumentKind>)

  /** A call-site delegate type, reduced to the parameter types of its `Invoke`. */
  datatype SiteType = SiteType(invokeParams: seq<ClrType>)

  /** A delegate a fast site holds: either the compiled allocator that calls
      the single `(PythonType)` constructor of `allocates`, or a `NewInitSite`
      that dynamically calls `target` through a nested call site. */
  datatype Callable =
    | FastNew(allocates: ClrType, site: SiteType)
    | NewInitSite(binder: Binder, target: SlotValue)

  /** A `FastTypeSite`: the captured version and the two delegates. */
  datatype FastTypeSite = FastTypeSite(version: int, newDlg: Callable, initDlg: Option<Callable>)

  /** `FastBindResult<T>`: the target (null when none) and whether to cache it. */
  datatype FastBindResult = FastBindResult(target: Option<FastTypeSite>, shouldCache: bool)

  /** The empty result `new FastBindResult<T>()`. */
  const NoBinding := FastBindResult(None, false)

  /** The exceptions the binder itself can raise. */
  datatype BindError = NotImplemented | NullReference

  // ---------------------------------------------------------------------------
  // Eligibility gates of MakeInvokeBinding

  /** The first gate: the type is not specialised at all. */
  predicate FailsTypeGates(t: PyType, argCount: nat) {
    || t.isSystemType
    || t.isMixedNewStyleOldStyle
    || t.del.Some?
    || argCount > MaxFastArity
    || t.runtimeClass != PythonTypeClass
  }

  /** The generic argument list of a site: the `Invoke` parameters after the
      call site, the code context and the type. */
  method GenericTypeArgs(paramTypes: seq<ClrType>) returns (genTypeArgs: seq<ClrType>)
    requires |paramTypes| >= 3
    ensures |genTypeArgs| == |paramTypes| - 3
    ensures forall i :: 0 <= i < |genTypeArgs| ==> genTypeArgs[i] == paramTypes[i + 3]
  {
    var args := new ClrType[|paramTypes| - 3](_ => ObjectClass);
    var i := 0;
    while i < |paramTypes| - 3
      invariant 0 <= i <= |paramTypes| - 3
      invariant forall j :: 0 <= j < i ==> args[j] == paramTypes[j + 3]
    {
      args[i] := paramTypes[i + 3];
      i := i + 1;
    }
    genTypeArgs := args[..];
  }

  /** Which builder class handles a given number of generic arguments. */
  datatype BuilderKind = NonGenericBuilder | GenericBuilder(arity: nat)

  function SelectBuilder(arity: nat): (r: Result<BuilderKind, BindError>)
    ensures arity == 0 ==> r == Ok(NonGenericBuilder)
    ensures 1 <= arity <= MaxFastArity ==> r == Ok(GenericBuilder(arity))
    ensures arity > MaxFastArity ==> r == Err(NotImplemented)
  {
    if arity == 0 then Ok(NonGenericBuilder)
    else if arity <= MaxFastArity then Ok(GenericBuilder(arity))
    else Err(NotImplemented)
  }

  // ---------------------------------------------------------------------------
  // The builder

  /** `FastBindingBuilderBase`: the type, the nested binder, the site type and
      its generic argument list. */
  datatype Builder = Builder(pyType: PyType, nestedBinder: Binder, siteType: SiteType, genTypeArgs: seq<ClrType>)

  /** Nested new/init calls carry one extra leading simple argument: the type
      passed to `__new__`, or the instance passed to `__init__`. */
  function NestedBinder(b: Binder): (r: Binder)
    ensures |r.signature| == |b.signature| + 1
    ensures r.signature[0] == Simple && r.signature[1..] == b.signature
  {
    Binder([Simple] + b.signature)
  }

  /** The builder's constructor. */
  function MakeBuilder(t: PyType, b: Binder, site: SiteType, genTypeArgs: seq<ClrType>): (r: Builder)
    ensures r.pyType == t && r.siteType == site && r.genTypeArgs == genTypeArgs
    ensures r.nestedBinder.signature == [Simple] + b.signature
  {
    Builder(t, NestedBinder(b), site, genTypeArgs)
  }

  /** How `__init__` is run by a fast site. */
  datatype InitPlan = NoInit | InitSite(func: SlotValue)

  /** How `__new__` is run by a fast site. */
  datatype NewPlan = DefaultAllocator | NewSite(func: SlotValue)

  /** The classification of the resolved slots: refuse, or build with these plans. */
  datatype SlotPlan = Refuse | Build(newPlan: NewPlan, initPlan: InitPlan)

  function PlanNew(newInst: Option<SlotValue>, initPlan: InitPlan): Result<SlotPlan, BindError> {
    if newInst == Some(DefaultNew) then Ok(Build(DefaultAllocator, initPlan))
    else if newInst.None? then Err(NullReference)
    else if newInst.value.StaticMethod? && newInst.value.exactType && newInst.value.func.Function? then
      Ok(Build(NewSite(newInst.value.func), initPlan))
    else Ok(Refuse)
  }

  /** The slot classification of `MakeBindingResult` for `arity` generic arguments. */
  function PlanSlots(init: Option<SlotValue>, newInst: Option<SlotValue>, arity: nat): (r: Result<SlotPlan, BindError>)
    // the default __init__ with arguments and the default __new__ would report an error: not optimised
    ensures init == Some(DefaultInit) && arity > 0 && newInst == Some(DefaultNew) ==> r == Ok(Refuse)
    // an __init__ that is neither the default nor a Python function is not handled
    ensures init != Some(DefaultInit) && !(init.Some? && init.value.Function?) ==> r == Ok(Refuse)
    // a __new__ that is neither the default nor an exact staticmethod over a Python function is not handled
    ensures (init == Some(DefaultInit) || (init.Some? && init.value.Function?)) &&
            newInst.Some? && newInst != Some(DefaultNew) &&
            !(newInst.value.StaticMethod? && newInst.value.exactType && newInst.value.func.Function?) &&
            !(init == Some(DefaultInit) && arity > 0 && newInst == Some(DefaultNew))
            ==> r == Ok(Refuse)
    // an accepted __init__ with an accepted __new__ builds, unless it is the refused default pair
    ensures (init == Some(DefaultInit) || (init.Some? && init.value.Function?)) &&
            (newInst == Some(DefaultNew) ||
             (newInst.Some? && newInst.value.StaticMethod? && newInst.value.exactType && newInst.value.func.Function?)) &&
            !(init == Some(DefaultInit) && arity > 0 && newInst == Some(DefaultNew))
            ==> r.Ok? && r.value.Build?
    // only an unresolvable __new__ behind an accepted __init__ is dereferenced as null
    ensures r.Err? <==> (init == Some(DefaultInit) || (init.Some? && init.value.Function?)) && newInst.None?
    ensures r.Err? ==> r.error == NullReference
    // what a build is made of
    ensures r.Ok? && r.value.Build? ==>
      && (r.value.initPlan == NoInit <==> init == Some(DefaultInit))
      && (r.value.initPlan.InitSite? ==> init == Some(r.value.initPlan.func) && r.value.initPlan.func.Function?)
      && (r.value.newPlan == DefaultAllocator <==> newInst == Some(DefaultNew))
      && (r.value.newPlan.NewSite? ==>
            newInst == Some(StaticMethod(true, r.value.newPlan.func)) && r.value.newPlan.func.Function?)
      && !(r.value.initPlan == NoInit && r.value.newPlan == DefaultAllocator && arity > 0)
  {
    if init == Some(DefaultInit) then
      if arity > 0 && newInst == Some(DefaultNew) then Ok(Refuse)
      else PlanNew(newInst, NoInit)
    else if init.Some? && init.value.Function? then
      PlanNew(newInst, InitSite(init.value))
    else
      Ok(Refuse)
  }

  /** "Exactly one constructor, taking exactly one `PythonType`." */
  predicate IsCanonicalCtorSet(ctors: seq<seq<ClrType>>) {
    |ctors| == 1 && |ctors[0]| == 1 && ctors[0][0] == PythonTypeClass
  }

  /** What building the allocator for (`u`, `site`) yields, given the
      parameter lists of `u`'s public constructors. */
  function FreshFastNew(ctors: seq<seq<ClrType>>, u: ClrType, site: SiteType): (r: Option<Callable>)
    ensures r.Some? <==> |ctors| == 1 && |ctors[0]| == 1 && ctors[0][0] == PythonTypeClass
    ensures r.Some? ==> r.value.FastNew? && r.value.allocates == u && r.value.site == site
  {
    if IsCanonicalCtorSet(ctors) then Some(FastNew(u, site)) else None
  }

  function InitDelegate(b: Builder, p: InitPlan): Option<Callable> {
    match p
    case NoInit => None
    case InitSite(f) => Some(NewInitSite(b.nestedBinder, f))
  }

  /** What `MakeBindingResult` returns, as a function of the builder and the
      constructors of the type's underlying CLR type (the cache is transparent:
      see `FastNewCache.Valid`). */
  function BuildTarget(b: Builder, ctors: seq<seq<ClrType>>): (r: Result<Option<FastTypeSite>, BindError>)
    ensures var plan := PlanSlots(b.pyType.initSlot, b.pyType.newSlot, |b.genTypeArgs|);
      && (plan.Err? ==> r == Err(plan.error))
      && (plan == Ok(Refuse) ==> r == Ok(None))
      && ((plan.Ok? && plan.value.Build? && plan.value.newPlan == DefaultAllocator && !IsCanonicalCtorSet(ctors))
          ==> r == Ok(None))
    // a build with its own __new__ site, or whose allocator can be made, yields a site
    ensures var plan := PlanSlots(b.pyType.initSlot, b.pyType.newSlot, |b.genTypeArgs|);
      plan.Ok? && plan.value.Build? && (plan.value.newPlan.NewSite? || IsCanonicalCtorSet(ctors))
      ==> r.Ok? && r.value.Some?
    // a built site captures the version of the type it was built for
    ensures r.Ok? && r.value.Some? ==> r.value.value.version == b.pyType.version
    ensures r.Ok? && r.value.Some? ==>
      var plan := PlanSlots(b.pyType.initSlot, b.pyType.newSlot, |b.genTypeArgs|).value;
      && plan.Build?
      && r.value.value.initDlg == InitDelegate(b, plan.initPlan)
      && (plan.newPlan == DefaultAllocator ==>
            r.value.value.newDlg == FastNew(b.pyType.underlying, b.siteType))
      && (plan.newPlan.NewSite? ==> r.value.value.newDlg == NewInitSite(b.nestedBinder, plan.newPlan.func))
  {
    var t := b.pyType;
    match PlanSlots(t.initSlot, t.newSlot, |b.genTypeArgs|)
    case Err(e) => Err(e)
    case Ok(Refuse) => Ok(None)
    case Ok(Build(np, ip)) =>
      var newDlg := match np
        case DefaultAllocator => FreshFastNew(ctors, t.underlying, b.siteType)
        case NewSite(f) => Some(NewInitSite(b.nestedBinder, f));
      if newDlg.None? then Ok(None)
      else Ok(Some(FastTypeSite(t.version, newDlg.value, InitDelegate(b, ip))))
  }

  /** The process-wide cache `_fastBindCtors`: underlying system type ->
      call-site type -> compiled allocator. */
  class FastNewCache {
    /** `GetConstructors()`: the parameter types of each public constructor. */
    const reflect: ClrType -> seq<seq<ClrType>>
    var ctors: map<ClrType, map<SiteType, Callable>>

    /** Every cached allocator is the one a fresh build would produce. */
    ghost predicate Valid()
      reads this
    {
      forall u, s :: u in ctors && s in ctors[u] ==>
        IsCanonicalCtorSet(reflect(u)) && ctors[u][s] == FastNew(u, s)
    }

    constructor (reflect: ClrType -> seq<seq<ClrType>>)
      ensures Valid() && this.reflect == reflect && ctors == map[]
    {
      this.reflect := reflect;
      ctors := map[];
    }

    /** The inner dictionary for `u`, or an empty one. */
    function Inner(u: ClrType): map<SiteType, Callable>
      reads this
    {
      if u in ctors then ctors[u] else map[]
    }

    /** `GetOrCreateFastNew`: return the cached allocator for (`u`, `site`),
        or build, insert and return it when `u` has the canonical constructor.
        The inner map for `u` is created first, even when nothing is built. */
    method GetOrCreateFastNew(u: ClrType, site: SiteType) returns (d: Option<Callable>)
      requires Valid()
      modifies this
      ensures Valid()
      ensures d == FreshFastNew(reflect(u), u, site)
      ensures u in old(ctors) && site in old(ctors)[u] ==> d == Some(old(ctors)[u][site]) && ctors == old(ctors)
      ensures !(u in old(ctors) && site in old(ctors)[u]) ==>
        ctors == old(ctors)[u := if d.Some? then old(Inner(u))[site := d.value] else old(Inner(u))]
    {
      var inner: map<SiteType, Callable>;
      if u !in ctors {
        inner := map[];
        ctors := ctors[u := inner];
      } else if site in ctors[u] {
        return Some(ctors[u][site]);
      } else {
        inner := ctors[u];
      }
      var cis := reflect(u);
      if |cis| == 1 && |cis[0]| == 1 && cis[0][0] == PythonTypeClass {
        var newDlg := FastNew(u, site);
        ctors := ctors[u := inner[site := newDlg]];
        d := Some(newDlg);
      } else {
        d := None;
      }
    }

    /** `MakeBindingResult`: classify the slots and build the fast site.  Only
        the default `__new__` behind an accepted `__init__` touches the cache. */
    method MakeBindingResult(b: Builder) returns (r: Result<Option<FastTypeSite>, BindError>)
      requires Valid()
      modifies this
      ensures Valid()
      ensures r == BuildTarget(b, reflect(b.pyType.underlying))
      ensures var plan := PlanSlots(b.pyType.initSlot, b.pyType.newSlot, |b.genTypeArgs|);
        var u := b.pyType.underlying;
        if plan.Ok? && plan.value.Build? && plan.value.newPlan == DefaultAllocator then
          (u in old(ctors) && b.siteType in old(ctors)[u] ==> ctors == old(ctors)) &&
          (!(u in old(ctors) && b.siteType in old(ctors)[u]) ==>
             ctors == old(ctors)[u := if IsCanonicalCtorSet(reflect(u))
                                      then old(Inner(u))[b.siteType := FastNew(u, b.siteType)]
                                      else old(Inner(u))])
        else ctors == old(ctors)
    {
      var t := b.pyType;
      var version := t.version;
      var init, newInst := t.initSlot, t.newSlot;
      var initDlg: Option<Callable>;
      if init == Some(DefaultInit) {
        if |b.genTypeArgs| > 0 && newInst == Some(DefaultNew) {
          return Ok(None);
        }
        initDlg := None;
      } else if init.Some? && init.value.Function? {
        initDlg := Some(NewInitSite(b.nestedBinder, init.value));
      } else {
        return Ok(None);
      }
      var newDlg: Option<Callable>;
      if newInst == Some(DefaultNew) {
        newDlg := GetOrCreateFastNew(t.underlying, b.siteType);
      } else if newInst.None? {
        return Err(NullReference);
      } else if newInst.value.StaticMethod? && newInst.value.exactType && newInst.value.func.Function? {
        newDlg := Some(NewInitSite(b.nestedBinder, newInst.value.func));
      } else {
        newDlg := None;
      }
      if newDlg.None? {
        return Ok(None);
      }
      r := Ok(Some(FastTypeSite(version, newDlg.value, initDlg)));
    }

    /** `MakeInvokeBinding`: the gates, the site-shape check, the generic
        argument list, the builder selection, then `MakeBindingResult`.
        `argCount` is the number of call arguments; `site` is the delegate
        type `T` of the call site. */
    method MakeInvokeBinding(site: SiteType, binder: Binder, t: PyType, argCount: nat)
      returns (r: Result<FastBindResult, BindError>)
      requires |site.invokeParams| >= 3
      requires Valid()
      modifies this
      ensures Valid()
      ensures FailsTypeGates(t, argCount) ==> r == Ok(NoBinding) && ctors == old(ctors)
      ensures !FailsTypeGates(t, argCount) && site.invokeParams[2] != ObjectClass ==>
        r == Ok(NoBinding) && ctors == old(ctors)
      ensures !FailsTypeGates(t, argCount) && site.invokeParams[2] == ObjectClass &&
              |site.invokeParams| - 3 > MaxFastArity ==>
        r == Err(NotImplemented) && ctors == old(ctors)
      ensures !FailsTypeGates(t, argCount) && site.invokeParams[2] == ObjectClass &&
              |site.invokeParams| - 3 <= MaxFastArity ==>
        var built := BuildTarget(MakeBuilder(t, binder, site, site.invokeParams[3..]), reflect(t.underlying));
        r == (if built.Err? then Err(built.error) else Ok(FastBindResult(built.value, true)))
      // a build over the default allocator fills the cache entry for (underlying type, site) when absent
      ensures !FailsTypeGates(t, argCount) && site.invokeParams[2] == ObjectClass &&
              |site.invokeParams| - 3 <= MaxFastArity ==>
        var plan := PlanSlots(t.initSlot, t.newSlot, |site.invokeParams| - 3);
        var u := t.underlying;
        if plan.Ok? && plan.value.Build? && plan.value.newPlan == DefaultAllocator then
          (u in old(ctors) && site in old(ctors)[u] ==> ctors == old(ctors)) &&
          (!(u in old(ctors) && site in old(ctors)[u]) ==>
             ctors == old(ctors)[u := if IsCanonicalCtorSet(reflect(u))
                                      then old(Inner(u))[site := FastNew(u, site)]
                                      else old(Inner(u))])
        else ctors == old(ctors)
    {
      if FailsTypeGates(t, argCount) {
        return Ok(NoBinding);
      }
      var paramTypes := site.invokeParams;
      if paramTypes[2] != ObjectClass {
        return Ok(NoBinding);
      }
      var genTypeArgs := GenericTypeArgs(paramTypes);
      assert genTypeArgs == paramTypes[3..];
      var kind := SelectBuilder(|genTypeArgs|);
      if kind.Err? {
        return Err(kind.error);
      }
      var builder := MakeBuilder(t, binder, site, genTypeArgs);
      var target := MakeBindingResult(builder);
      if target.Err? {
        return Err(target.error);
      }
      r := Ok(FastBindResult(target.value, true));
    }
  }

  // ---------------------------------------------------------------------------
  // Executing a fast site

  /** A run-time value passed to or returned by a call. */
  datatype Value = Null | TypeObject(t: PyType) | Object(runtimeType: ClrType, id: nat)

  /** `GetType()` of a non-null value. */
  function RuntimeType(v: Value): ClrType
    requires v != Null
  {
    match v
    case TypeObject(t) => t.runtimeClass
    case Object(c, _) => c
  }

  /** A call made through the nested call site of a `NewInitSite`. */
  datatype DynamicCall = DynamicCall(binder: Binder, callee: SlotValue, args: seq<Value>)

  /** `NewInitSite.Call`: the stored target is the callee, then come the type
      (for `__new__`) or the instance (for `__init__`) and the call's arguments. */
  function NewInitCall(d: Callable, typeOrInstance: Value, args: seq<Value>): (r: DynamicCall)
    requires d.NewInitSite?
    ensures r.binder == d.binder && r.callee == d.target
    ensures |r.args| == |args| + 1 && r.args[0] == typeOrInstance && r.args[1..] == args
  {
    DynamicCall(d.binder, d.target, [typeOrInstance] + args)
  }

  /** When a site's binder describes its arguments, the nested binder built
      from it describes the nested call's arguments: one leading simple
      argument for the type or instance, then the original ones. */
  lemma NestedCallMatchesNestedBinder(b: Binder, f: SlotValue, typeOrInstance: Value, args: seq<Value>)
    requires |b.signature| == |args|
    ensures var c := NewInitCall(NewInitSite(NestedBinder(b), f), typeOrInstance, args);
      |c.binder.signature| == |c.args| && c.binder.signature[0] == Simple &&
      forall i :: 0 <= i < |args| ==> c.binder.signature[i + 1] == b.signature[i] && c.args[i + 1] == args[i]
  {
    var c := NewInitCall(NewInitSite(NestedBinder(b), f), typeOrInstance, args);
    forall i | 0 <= i < |args|
      ensures c.binder.signature[i + 1] == b.signature[i] && c.args[i + 1] == args[i]
    {
      assert c.binder.signature[1..][i] == b.signature[i];
      assert c.args[1..][i] == args[i];
    }
  }

  /** The collaborators a fast site calls into: the identity the allocator
      gives a new instance, the nested dynamic call sites, and the call
      site's `Update` (the slow, fully general path). */
  datatype Runtime = Runtime(
    freshId: nat,
    dispatch: DynamicCall -> Value,
    update: (Value, seq<Value>) -> Value)

  /** Running a delegate with its first argument (type or instance) and the call's arguments. */
  function Invoke(rt: Runtime, d: Callable, first: Value, args: seq<Value>): Value {
    match d
    case FastNew(u, _) => Object(u, rt.freshId)
    case NewInitSite(_, _) => rt.dispatch(NewInitCall(d, first, args))
  }

  /** One step a fast site takes. */
  datatype Step = CallNew(dlg: Callable, typeArg: Value, args: seq<Value>)
                | CallInit(dlg: Callable, instance: Value, args: seq<Value>)
                | UpdateSite(typeArg: Value, args: seq<Value>)

  /** The result of a call and the steps taken to produce it. */
  datatype CallOutcome = CallOutcome(result: Value, steps: seq<Step>)

  /** The guard: the presented value is a Python type whose version is the captured one. */
  predicate GuardHolds(s: FastTypeSite, typeArg: Value) {
    typeArg.TypeObject? && typeArg.t.version == s.version
  }

  /** `FastTypeSite.CallTarget`. */
  function CallTarget(s: FastTypeSite, rt: Runtime, typeArg: Value, args: seq<Value>): (r: CallOutcome)
    // a guard miss goes to Update only, and returns what Update returns
    ensures !GuardHolds(s, typeArg) ==>
      r.steps == [UpdateSite(typeArg, args)] && r.result == rt.update(typeArg, args)
    // a hit calls new first and returns new's result
    ensures GuardHolds(s, typeArg) ==>
      && 1 <= |r.steps| <= 2
      && r.steps[0] == CallNew(s.newDlg, typeArg, args)
      && r.result == Invoke(rt, s.newDlg, typeArg, args)
    // init runs exactly when it exists and new returned a non-null instance of the underlying type
    ensures GuardHolds(s, typeArg) ==>
      (|r.steps| == 2 <==>
         s.initDlg.Some? && r.result != Null && RuntimeType(r.result) == typeArg.t.underlying)
    ensures |r.steps| == 2 ==> r.steps[1] == CallInit(s.initDlg.value, r.result, args)
  {
    if typeArg.TypeObject? && typeArg.t.version == s.version then
      var res := Invoke(rt, s.newDlg, typeArg, args);
      if s.initDlg.Some? && res != Null && RuntimeType(res) == typeArg.t.underlying then
        CallOutcome(res, [CallNew(s.newDlg, typeArg, args), CallInit(s.initDlg.value, res, args)])
      else
        CallOutcome(res, [CallNew(s.newDlg, typeArg, args)])
    else
      CallOutcome(rt.update(typeArg, args), [UpdateSite(typeArg, args)])
  }

  /** Invalidation: once the type's version has moved on, the site never runs
      its delegates again; every call goes to Update. */
  lemma StaleSiteNeverRunsDelegates(b: Builder, ctors: seq<seq<ClrType>>, rt: Runtime, t: PyType, args: seq<Value>)
    requires BuildTarget(b, ctors).Ok? && BuildTarget(b, ctors).value.Some?
    requires t.version != b.pyType.version
    ensures var r := CallTarget(BuildTarget(b, ctors).value.value, rt, TypeObject(t), args);
      r.result == rt.update(TypeObject(t), args) &&
      forall i :: 0 <= i < |r.steps| ==> r.steps[i].UpdateSite?
  {
  }

  /** A value that is not a Python type always takes the slow path. */
  lemma NonTypeTakesSlowPath(s: FastTypeSite, rt: Runtime, v: Value, args: seq<Value>)
    requires !v.TypeObject?
    ensures CallTarget(s, rt, v, args) == CallOutcome(rt.update(v, args), [UpdateSite(v, args)])
  {
  }

  /** With the default `__new__`, the compiled allocator returns an instance of
      exactly the underlying type, so on a hit against the type the site was
      built for, a user `__init__` always runs on that instance. */
  lemma DefaultAllocatorAlwaysInitialises(b: Builder, ctors: seq<seq<ClrType>>, rt: Runtime, args: seq<Value>)
    requires b.pyType.newSlot == Some(DefaultNew)
    requires BuildTarget(b, ctors).Ok? && BuildTarget(b, ctors).value.Some?
    requires BuildTarget(b, ctors).value.value.initDlg.Some?
    ensures var r := CallTarget(BuildTarget(b, ctors).value.value, rt, TypeObject(b.pyType), args);
      r.result == Object(b.pyType.underlying, rt.freshId) &&
      r.steps == [CallNew(FastNew(b.pyType.underlying, b.siteType), TypeObject(b.pyType), args),
                  CallInit(NewInitSite(b.nestedBinder, b.pyType.initSlot.value), r.result, args)]
  {
    var plan := PlanSlots(b.pyType.initSlot, b.pyType.newSlot, |b.genTypeArgs|).value;
    assert plan.newPlan == DefaultAllocator;
    assert plan.initPlan.InitSite?;
  }

  /** A user `__new__` that returns an object of another CLR type (or null)
      suppresses `__init__`: only new is called. */
  lemma ForeignInstanceSkipsInit(s: FastTypeSite, rt: Runtime, t: PyType, args: seq<Value>)
    requires t.version == s.version
    requires var res := Invoke(rt, s.newDlg, TypeObject(t), args);
      res == Null || RuntimeType(res) != t.underlying
    ensures CallTarget(s, rt, TypeObject(t), args).steps == [CallNew(s.newDlg, TypeObject(t), args)]
  {
  }
}
