/**
  The component hierarchy planner: the kernel bindings that turn a request for
  IInstantiateComponent<T>, IRequireComponent<T>,
  IRequireComponentInDescendants<T> or IRequireComponentInHierarchy<T> into a
  component, and the context path that joins instantiation to later lookups.

  The kernel is not modelled: a request is an immutable record pointing at the
  request that caused it, Kernel.Resolve of a child request is a function
  parameter that also yields what the handlers it runs recorded in the shared
  hierarchy parameter, and GetComponentsUnderPath of the hierarchy parameter, whose
  implementation is not part of this model, is a function parameter of the
  recorded entries, the path and the mode.
*/
module ProtogameComponentModule {
  import opened Wrappers

  /** A CLR type: a name, and the generic arguments of a constructed generic type. */
  datatype Type = Type(name: string, genericArguments: seq<Type>)

  /** A component instance and the types it is an instance of. */
  datatype Component = Component(id: nat, instanceOf: set<Type>)

  datatype DescendantMode = Immediate | Full

  /** One AddComponentAtPath call: a component recorded under a context path. */
  datatype PathEntry = PathEntry(path: seq<Type>, component: Component)

  /** The IComponentHierarchyParameter shared by one resolution episode; it keeps what was recorded under which path. */
  class ComponentHierarchyParameter {
    var recorded: seq<PathEntry>

    constructor ()
      ensures recorded == []
    {
      recorded := [];
    }

    method AddComponentAtPath(path: seq<Type>, component: Component)
      modifies this
      ensures recorded == old(recorded) + [PathEntry(path, component)]
    {
      recorded := recorded + [PathEntry(path, component)];
    }

    /** The AddComponentAtPath calls that nested handlers make, in order, while the kernel resolves a child request. */
    method AddComponentsRecordedWhileResolving(entries: seq<PathEntry>)
      modifies this
      ensures recorded == old(recorded) + entries
    {
      recorded := recorded + entries;
    }
  }

  /** A parameter carried by a request. */
  datatype Parameter = HierarchyParameter(store: ComponentHierarchyParameter) | OtherParameter(name: string)

  /** A resolution request: the service asked for, the request that caused it, its injection target and its parameters. */
  datatype Request = Request(service: Type, parentRequest: Option<Request>, target: nat, parameters: seq<Parameter>)

  /** The kernel's service bindings made by Load for the four component interfaces. */
  datatype ComponentService =
    | IInstantiateComponent
    | IRequireComponent
    | IRequireComponentInDescendants
    | IRequireComponentInHierarchy

  /** What a bound component service resolves through. */
  datatype Handler = InstantiateHandler | RequireHandler(mode: DescendantMode)

  /** The wrapper classes the handlers obtain from the kernel: DefaultInstantiateComponent<T> and DefaultRequireComponent<T>. */
  datatype WrapperType = DefaultInstantiateComponent(componentType: Type) | DefaultRequireComponent(componentType: Type)

  /** An IInternalHasComponent wrapper, whose Component is set after the kernel has created it. */
  class ComponentWrapper {
    const wrapperType: WrapperType
    var component: Option<Component>

    constructor (wrapperType: WrapperType)
      ensures this.wrapperType == wrapperType && component == None
    {
      this.wrapperType := wrapperType;
      component := None;
    }
  }

  /**
    What Kernel.Resolve of a child request yields: the components resolved,
    and the entries that the handlers run during that resolution (an
    InstantiateComponent for a dependency of the component, say) added to the
    shared hierarchy parameter, in order; `error` is the exception one of
    those handlers threw (a RequireComponent that found nothing, say), which
    ends the resolution with the entries recorded before it kept.
  */
  datatype Resolution = Resolution(components: seq<Component>, recordedWhileResolving: seq<PathEntry>, error: Option<ResolutionError>)

  /** Kernel.Resolve, given the child request and what the shared hierarchy parameter holds when it starts. */
  type Resolver = (Request, seq<PathEntry>) -> Resolution

  datatype ResolutionError =
    | NoGenericArgument                                  // GetGenericArguments()[0] of a non-generic service
    | NoHierarchyParameter                               // OfType<IComponentHierarchyParameter>().First() finds none
    | NothingResolved                                    // Kernel.Resolve(child).First() finds none
    | NeedsComponentInHierarchyToContinue(required: Type)

  // ---------------------------------------------------------------------------
  // Load

  /** Load: which handler each component service is bound to. */
  function BindingFor(service: ComponentService): (h: Handler)
    ensures h.InstantiateHandler? <==> service == IInstantiateComponent
    ensures h == RequireHandler(Immediate) <==> service == IRequireComponent
    ensures h == RequireHandler(Full) <==> service in {IRequireComponentInDescendants, IRequireComponentInHierarchy}
  {
    match service
    case IInstantiateComponent => InstantiateHandler
    case IRequireComponent => RequireHandler(Immediate)
    case IRequireComponentInDescendants => RequireHandler(Full)
    case IRequireComponentInHierarchy => RequireHandler(Full)
  }

  // ---------------------------------------------------------------------------
  // Context paths

  /** The requests from `start` up to the root request, nearest first. */
  function Chain(start: Option<Request>): seq<Request>
    decreases start
  {
    match start
    case None => []
    case Some(r) => [r] + Chain(r.parentRequest)
  }

  /** The ancestors of a request: its parent request, that request's parent, and so on up to the root. */
  function Ancestors(r: Request): seq<Request> {
    Chain(r.parentRequest)
  }

  /** The requested services of a list of requests. */
  function ServicesOf(rs: seq<Request>): (s: seq<Type>)
    ensures |s| == |rs| && forall i :: 0 <= i < |rs| ==> s[i] == rs[i].service
  {
    seq(|rs|, i requires 0 <= i < |rs| => rs[i].service)
  }

  /** `s` without its first `k` elements (all of it when `k` is not positive). */
  function Drop<T>(s: seq<T>, k: int): (r: seq<T>)
    ensures |r| == if k <= 0 then |s| else if k >= |s| then 0 else |s| - k
  {
    if k <= 0 then s else if k >= |s| then [] else s[k..]
  }

  /** `s` back to front. */
  function Reverse<T>(s: seq<T>): (r: seq<T>)
    ensures |r| == |s| && forall i :: 0 <= i < |s| ==> r[i] == s[|s| - 1 - i]
  {
    if s == [] then [] else Reverse(s[1..]) + [s[0]]
  }

  function Max(a: int, b: int): int {
    if a < b then b else a
  }

  /** The context path of a request: its ancestors' services, skipping the nearest `skip`, root first. */
  function ContextPath(r: Request, skip: int): (path: seq<Type>)
    ensures |path| <= |Ancestors(r)|
  {
    Reverse(Drop(ServicesOf(Ancestors(r)), skip))
  }

  lemma {:induction false} ChainEndsAtRoot(start: Option<Request>)
    ensures Chain(start) != [] ==> Chain(start)[|Chain(start)| - 1].parentRequest.None?
    ensures forall i :: 0 <= i < |Chain(start)| - 1 ==> Chain(start)[i].parentRequest == Some(Chain(start)[i + 1])
    decreases start
  {
    match start
    case None =>
    case Some(r) =>
      ChainEndsAtRoot(r.parentRequest);
      assert Chain(start) == [r] + Chain(r.parentRequest);
      if r.parentRequest.Some? {
        assert Chain(r.parentRequest)[0] == r.parentRequest.value;
      }
  }

  /** Reversing what is left after dropping a prefix reads the sequence from its end. */
  lemma ReverseDropIndex<T>(s: seq<T>, k: int, j: int)
    requires 0 <= j < |Drop(s, k)|
    ensures |Reverse(Drop(s, k))| == |Drop(s, k)|
    ensures Reverse(Drop(s, k))[j] == s[|s| - 1 - j]
  {
    var d := Drop(s, k);
    assert Reverse(d)[j] == d[|d| - 1 - j];
    if k > 0 {
      assert d == s[k..];
    }
  }

  /**
    The context path holds one service per ancestor beyond the nearest `skip`,
    and it reads root first.
  */
  lemma ContextPathShape(r: Request, skip: int)
    ensures var depth := |Ancestors(r)|;
      && |ContextPath(r, skip)| == Max(0, depth - Max(0, skip))
      && (forall j :: 0 <= j < |ContextPath(r, skip)| ==> ContextPath(r, skip)[j] == Ancestors(r)[depth - 1 - j].service)
  {
    var ancestors := Ancestors(r);
    var services := ServicesOf(ancestors);
    var path := ContextPath(r, skip);
    forall j | 0 <= j < |path|
      ensures path[j] == ancestors[|ancestors| - 1 - j].service
    {
      ReverseDropIndex(services, skip, j);
    }
  }

  /** A nonempty context path starts at the service of the root request, which has no parent. */
  lemma ContextPathStartsAtRoot(r: Request, skip: int)
    requires ContextPath(r, skip) != []
    ensures var depth := |Ancestors(r)|;
      depth > 0 && Ancestors(r)[depth - 1].parentRequest.None? && ContextPath(r, skip)[0] == Ancestors(r)[depth - 1].service
  {
    ContextPathShape(r, skip);
    ChainEndsAtRoot(r.parentRequest);
  }

  /** Skipping the nearest `k` ancestors drops the last `k` elements of the full path. */
  lemma ContextPathIsPrefix(r: Request, k: int)
    requires k >= 0
    ensures |ContextPath(r, 0)| == |Ancestors(r)|
    ensures ContextPath(r, k) == ContextPath(r, 0)[..Max(0, |Ancestors(r)| - k)]
  {
    var full := ContextPath(r, 0);
    var part := ContextPath(r, k);
    ContextPathShape(r, k);
    ContextPathShape(r, 0);
    var m := Max(0, |Ancestors(r)| - k);
    assert |part| == m <= |full|;
    forall j | 0 <= j < m
      ensures part[j] == full[j]
    {
    }
    assert part == full[..m];
  }

  /** The path sees only services: requests whose ancestors ask for the same services have the same paths, whatever their targets. */
  lemma ContextPathSeesOnlyServices(a: Request, b: Request, skip: int)
    requires ServicesOf(Ancestors(a)) == ServicesOf(Ancestors(b))
    ensures ContextPath(a, skip) == ContextPath(b, skip)
  {
  }

  /**
    The limitation the path key keeps: two sibling requests for the same
    service at different injection targets are different requests, yet every
    request made under either one has the same context path.
  */
  lemma SiblingRequestsShareContextPaths(a: Request, b: Request, service: Type, skip: int)
    requires a.parentRequest == b.parentRequest && a.service == b.service && a.target != b.target
    ensures a != b
    ensures var ca := Request(service, Some(a), a.target, a.parameters);
      var cb := Request(service, Some(b), b.target, b.parameters);
      ca != cb && ContextPath(ca, skip) == ContextPath(cb, skip)
  {
    var ca := Request(service, Some(a), a.target, a.parameters);
    var cb := Request(service, Some(b), b.target, b.parameters);
    assert Ancestors(ca) == [a] + Ancestors(a);
    assert Ancestors(cb) == [b] + Ancestors(b);
    assert ServicesOf(Ancestors(ca)) == [a.service] + ServicesOf(Ancestors(a));
    assert ServicesOf(Ancestors(cb)) == [b.service] + ServicesOf(Ancestors(b));
  }

  lemma DropAppend<T>(s: seq<T>, x: T, k: int)
    ensures Drop(s + [x], k) == if |s| >= k then Drop(s, k) + [x] else Drop(s, k)
  {
    if k <= 0 {
    } else if |s| >= k {
      assert (s + [x])[k..] == s[k..] + [x];
    }
  }

  /** One step of the walk up the parent requests moves one request from the chain to the visited list. */
  lemma WalkStep(context: Request, visited: seq<Request>, p: Request)
    requires Ancestors(context) == visited + Chain(Some(p))
    ensures Ancestors(context) == (visited + [p]) + Chain(p.parentRequest)
    ensures |Chain(p.parentRequest)| < |Chain(Some(p))|
  {
    assert Chain(Some(p)) == [p] + Chain(p.parentRequest);
  }

  /** One step of the walk adds the visited service exactly when `skip` requests have already been visited. */
  lemma CollectStep(visited: seq<Request>, p: Request, hierarchy: seq<Type>, skip: int)
    requires hierarchy == Drop(ServicesOf(visited), skip)
    ensures (if |visited| >= skip then hierarchy + [p.service] else hierarchy) == Drop(ServicesOf(visited + [p]), skip)
  {
    assert ServicesOf(visited + [p]) == ServicesOf(visited) + [p.service];
    DropAppend(ServicesOf(visited), p.service, skip);
  }

  /** GetContextPath: walks the parent requests, collects their services past the first `skip`, and reverses them. */
  method GetContextPath(context: Request, skip: int) returns (path: seq<Type>)
    ensures path == ContextPath(context, skip)
    ensures |path| == Max(0, |Ancestors(context)| - Max(0, skip))
    ensures forall j :: 0 <= j < |path| ==> path[j] == Ancestors(context)[|Ancestors(context)| - 1 - j].service
  {
    var hierarchy: seq<Type> := [];
    var parent := context.parentRequest;
    var i := 0;
    ghost var visited: seq<Request> := [];
    while parent.Some?
      invariant Ancestors(context) == visited + Chain(parent)
      invariant i == |visited|
      invariant hierarchy == Drop(ServicesOf(visited), skip)
      decreases |Chain(parent)|
    {
      var p := parent.value;
      WalkStep(context, visited, p);
      CollectStep(visited, p, hierarchy, skip);
      if i >= skip {
        hierarchy := hierarchy + [p.service];
      }
      i := i + 1;
      visited := visited + [p];
      parent := p.parentRequest;
    }
    assert visited == Ancestors(context);
    path := Reverse(hierarchy);
    ContextPathShape(context, skip);
  }

  // ---------------------------------------------------------------------------
  // Instantiating and requiring components

  /** The first IComponentHierarchyParameter among the parameters, which `.First()` returns; None where `.First()` throws. */
  function FirstHierarchyParameter(ps: seq<Parameter>): (r: Option<ComponentHierarchyParameter>)
    ensures r.None? <==> forall i :: 0 <= i < |ps| ==> !ps[i].HierarchyParameter?
    ensures r.Some? ==> exists i :: 0 <= i < |ps| && ps[i] == HierarchyParameter(r.value) &&
                          forall j :: 0 <= j < i ==> !ps[j].HierarchyParameter?
  {
    if ps == [] then None
    else if ps[0].HierarchyParameter? then Some(ps[0].store)
    else
      var r := FirstHierarchyParameter(ps[1..]);
      assert r.Some? ==> (exists i :: 1 <= i < |ps| && ps[i] == HierarchyParameter(r.value) &&
                                       forall j :: 1 <= j < i ==> !ps[j].HierarchyParameter?);
      r
  }

  /** The objects a request's hierarchy parameter may change. */
  function HierarchyFrame(r: Request): set<object> {
    match FirstHierarchyParameter(r.parameters)
    case Some(p) => {p}
    case None => {}
  }

  /** The child request that asks for the component itself, below `r` and at the same target. */
  function ChildRequest(r: Request, componentType: Type): (child: Request)
    ensures child.parentRequest == Some(r) && child.service == componentType
    ensures Ancestors(child) == [r] + Ancestors(r)
  {
    Request(componentType, Some(r), r.target, r.parameters)
  }

  /** The first component that is an instance of `t`, as `FirstOrDefault` with an IsInstanceOfType test returns; None for its null. */
  function FirstInstanceOf(components: seq<Component>, t: Type): (r: Option<Component>)
    ensures r.None? <==> forall i :: 0 <= i < |components| ==> t !in components[i].instanceOf
    ensures r.Some? ==> exists i :: 0 <= i < |components| && components[i] == r.value && t in r.value.instanceOf &&
                          forall j :: 0 <= j < i ==> t !in components[j].instanceOf
  {
    if components == [] then None
    else if t in components[0].instanceOf then Some(components[0])
    else
      var r := FirstInstanceOf(components[1..], t);
      assert r.Some? ==> (exists i :: 1 <= i < |components| && components[i] == r.value &&
                                       t in r.value.instanceOf && forall j :: 1 <= j < i ==> t !in components[j].instanceOf);
      r
  }

  /**
    InstantiateComponent: resolves the component type as a child request,
    records the component under the request's unskipped context path, after
    whatever the resolution itself recorded, and returns a new
    DefaultInstantiateComponent wrapper holding it; an exception thrown while
    resolving passes through, with what was recorded before it kept.
  */
  method InstantiateComponent(arg: Request, resolve: Resolver) returns (r: Result<ComponentWrapper, ResolutionError>)
    modifies HierarchyFrame(arg)
    ensures arg.service.genericArguments == [] ==> r == Failure(NoGenericArgument) && unchanged(HierarchyFrame(arg))
    ensures arg.service.genericArguments != [] && FirstHierarchyParameter(arg.parameters).None? ==>
      r == Failure(NoHierarchyParameter) && unchanged(HierarchyFrame(arg))
    ensures arg.service.genericArguments != [] && FirstHierarchyParameter(arg.parameters).Some? ==>
      var svc := arg.service.genericArguments[0];
      var parameter := FirstHierarchyParameter(arg.parameters).value;
      var resolution := resolve(ChildRequest(arg, svc), old(parameter.recorded));
      var resolved := resolution.components;
      if resolution.error.Some? then
        && r == Failure(resolution.error.value)
        && parameter.recorded == old(parameter.recorded) + resolution.recordedWhileResolving
      else if resolved == [] then
        && r == Failure(NothingResolved)
        && parameter.recorded == old(parameter.recorded) + resolution.recordedWhileResolving
      else
        && r.Success? && fresh(r.value)
        && r.value.wrapperType == DefaultInstantiateComponent(svc)
        && r.value.component == Some(resolved[0])
        && parameter.recorded == old(parameter.recorded) + resolution.recordedWhileResolving
                                 + [PathEntry(ContextPath(arg, 0), resolved[0])]
  {
    if arg.service.genericArguments == [] {
      return Failure(NoGenericArgument);
    }
    var svc := arg.service.genericArguments[0];
    var found := FirstHierarchyParameter(arg.parameters);
    if found.None? {
      return Failure(NoHierarchyParameter);
    }
    var parameter := found.value;
    var child := ChildRequest(arg, svc);
    var concrete := new ComponentWrapper(DefaultInstantiateComponent(svc));
    var resolution := resolve(child, parameter.recorded);
    parameter.AddComponentsRecordedWhileResolving(resolution.recordedWhileResolving);
    if resolution.error.Some? {
      return Failure(resolution.error.value);
    }
    var resolved := resolution.components;
    if resolved == [] {
      return Failure(NothingResolved);
    }
    concrete.component := Some(resolved[0]);
    var path := GetContextPath(arg, 0);
    parameter.AddComponentAtPath(path, resolved[0]);
    r := Success(concrete);
  }

  /**
    RequireComponent: looks up the components recorded under the request's
    context path with the nearest ancestor skipped, in the given mode, and
    returns a new DefaultRequireComponent wrapper holding the first that is an
    instance of the requested type, or throws naming that type.
  */
  method RequireComponent(arg: Request, mode: DescendantMode, underPath: (seq<PathEntry>, seq<Type>, DescendantMode) -> seq<Component>)
    returns (r: Result<ComponentWrapper, ResolutionError>)
    ensures arg.service.genericArguments == [] ==> r == Failure(NoGenericArgument)
    ensures arg.service.genericArguments != [] && FirstHierarchyParameter(arg.parameters).None? ==>
      r == Failure(NoHierarchyParameter) && unchanged(HierarchyFrame(arg))
    ensures arg.service.genericArguments != [] && FirstHierarchyParameter(arg.parameters).Some? ==>
      var svc := arg.service.genericArguments[0];
      var components := underPath(FirstHierarchyParameter(arg.parameters).value.recorded, ContextPath(arg, 1), mode);
      match FirstInstanceOf(components, svc)
      case None => r == Failure(NeedsComponentInHierarchyToContinue(svc))
      case Some(c) =>
        && r.Success? && fresh(r.value)
        && r.value.wrapperType == DefaultRequireComponent(svc)
        && r.value.component == Some(c)
  {
    if arg.service.genericArguments == [] {
      return Failure(NoGenericArgument);
    }
    var svc := arg.service.genericArguments[0];
    var found := FirstHierarchyParameter(arg.parameters);
    if found.None? {
      return Failure(NoHierarchyParameter);
    }
    var parameter := found.value;
    var path := GetContextPath(arg, 1);
    var components := underPath(parameter.recorded, path, mode);
    var requiredComponent := FirstInstanceOf(components, svc);
    if requiredComponent.None? {
      return Failure(NeedsComponentInHierarchyToContinue(svc));
    }
    var concrete := new ComponentWrapper(DefaultRequireComponent(svc));
    concrete.component := requiredComponent;
    r := Success(concrete);
  }
}
