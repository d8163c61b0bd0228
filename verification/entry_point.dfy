/**
  Startup and run of a Protogame process on a desktop platform: discovering the
  game and server configurations, handing the kernel to each of them in turn,
  keeping the first game and the first server they construct, and then running
  exactly one of the two.

  Reflection is replaced by explicit inputs: an assembly is the list of classes
  named by its ConfigurationAttribute attributes plus the list of its types,
  and a type is the four facts the startup code asks of it. The kernel is
  abstracted as the ordered record of the calls made on it and on the
  configurations, and a configuration's ConstructGame/ConstructServer as a
  function of the configuration and that record.
*/
module EntryPoint {
  import opened Wrappers

  /** A type as the startup code sees it. */
  datatype TypeDescriptor = TypeDescriptor(
    name: string,
    isGameConfiguration: bool,    // IGameConfiguration is assignable from it
    isServerConfiguration: bool,  // IServerConfiguration is assignable from it
    isInterface: bool,
    isAbstract: bool)

  /** A loaded assembly: the classes named by its ConfigurationAttribute's, and its types (None when GetTypes throws). */
  datatype Assembly = Assembly(configurationClasses: seq<TypeDescriptor>, types: Option<seq<TypeDescriptor>>)

  /** Which of the two configuration interfaces a loop works through. */
  datatype Role = GameRole | ServerRole

  /** A constructed Game or ICoreServer. */
  datatype Instance = Instance(id: nat)

  /** One call made on the kernel or on a configuration during startup. */
  datatype StartupEvent =
    | LaunchArgumentsBound(args: seq<string>)
    | ConfigureKernel(role: Role, config: TypeDescriptor)
    | InitializeAssetManagerProvider(role: Role, config: TypeDescriptor)
    | Construct(role: Role, config: TypeDescriptor, result: Option<Instance>)
  {
    /** The call was made on a configuration of role `r`. */
    predicate IsFor(r: Role) {
      !LaunchArgumentsBound? && role == r
    }
  }

  /** ConstructGame or ConstructServer: what a configuration builds from the kernel as configured so far. */
  type Factory = (TypeDescriptor, seq<StartupEvent>) -> Option<Instance>

  /** One ConstructGame/ConstructServer call and what it returned. */
  datatype Attempt = Attempt(config: TypeDescriptor, result: Option<Instance>)

  datatype StartupError = NoConfigurationImplementation

  /** The static fields that startup leaves for the run. */
  datatype Started = Started(kernel: seq<StartupEvent>, game: Option<Instance>, server: Option<Instance>)

  /** What the run starts. */
  datatype RunEvent = RanGame(game: Instance) | RanServer(server: Instance)

  datatype RunError = NoGameOrServerConstructed | BothGameAndServerConstructed

  // ---------------------------------------------------------------------------
  // Selecting the type source

  /** The exception-swallowing TryGetTypes: an assembly whose types cannot be read contributes none. */
  function TryGetTypes(a: Assembly): (r: seq<TypeDescriptor>)
    ensures a.types.None? ==> r == []
    ensures a.types.Some? ==> multiset(r) == multiset(a.types.value)
  {
    match a.types
    case Some(ts) => ts
    case None => []
  }

  /** The classes named by ConfigurationAttribute's, assembly by assembly. */
  function AttributedTypes(assemblies: seq<Assembly>): seq<TypeDescriptor>
    decreases |assemblies|
  {
    if assemblies == [] then []
    else AttributedTypes(assemblies[..|assemblies| - 1]) + assemblies[|assemblies| - 1].configurationClasses
  }

  /** Every readable type of every assembly, assembly by assembly. */
  function ScannedTypes(assemblies: seq<Assembly>): seq<TypeDescriptor>
    decreases |assemblies|
  {
    if assemblies == [] then []
    else ScannedTypes(assemblies[..|assemblies| - 1]) + TryGetTypes(assemblies[|assemblies| - 1])
  }

  /** The types startup searches for configurations. */
  function TypeSource(assemblies: seq<Assembly>): (r: seq<TypeDescriptor>)
    ensures r == AttributedTypes(assemblies) || r == ScannedTypes(assemblies)
    ensures r == [] ==> AttributedTypes(assemblies) == [] && ScannedTypes(assemblies) == []
  {
    var attributed := AttributedTypes(assemblies);
    if |attributed| == 0 then ScannedTypes(assemblies) else attributed
  }

  lemma {:induction false} AttributedTypesEmpty(assemblies: seq<Assembly>)
    ensures AttributedTypes(assemblies) == [] <==>
              forall i :: 0 <= i < |assemblies| ==> assemblies[i].configurationClasses == []
    decreases |assemblies|
  {
    if assemblies != [] {
      var n := |assemblies| - 1;
      AttributedTypesEmpty(assemblies[..n]);
      assert forall i :: 0 <= i < n ==> assemblies[..n][i] == assemblies[i];
    }
  }

  /** Attribute-named classes are used exclusively; all types are scanned only when no assembly names any. */
  lemma TypeSourceSelection(assemblies: seq<Assembly>)
    ensures (exists i :: 0 <= i < |assemblies| && assemblies[i].configurationClasses != []) ==>
              TypeSource(assemblies) == AttributedTypes(assemblies)
    ensures (forall i :: 0 <= i < |assemblies| ==> assemblies[i].configurationClasses == []) ==>
              TypeSource(assemblies) == ScannedTypes(assemblies)
  {
    AttributedTypesEmpty(assemblies);
  }

  // ---------------------------------------------------------------------------
  // Filtering configurations

  predicate IsConcreteConfiguration(role: Role, t: TypeDescriptor) {
    (if role == GameRole then t.isGameConfiguration else t.isServerConfiguration)
    && !t.isInterface && !t.isAbstract
  }

  /** The configurations instantiated from `types`, in type-source order. */
  function ConcreteConfigurations(role: Role, types: seq<TypeDescriptor>): (r: seq<TypeDescriptor>)
    ensures |r| <= |types|
    ensures forall i :: 0 <= i < |r| ==> IsConcreteConfiguration(role, r[i])
    decreases |types|
  {
    if types == [] then []
    else
      var earlier := ConcreteConfigurations(role, types[..|types| - 1]);
      if IsConcreteConfiguration(role, types[|types| - 1]) then earlier + [types[|types| - 1]] else earlier
  }

  /** `a` can be obtained from `b` by deleting elements. */
  predicate IsSubsequence<T(==)>(a: seq<T>, b: seq<T>)
    decreases |b|
  {
    a == [] ||
    (b != [] &&
     if a[|a| - 1] == b[|b| - 1] then IsSubsequence(a[..|a| - 1], b[..|b| - 1])
     else IsSubsequence(a, b[..|b| - 1]))
  }

  /** Every concrete configuration type is instantiated once per occurrence, and nothing else is. */
  lemma {:induction false} ConcreteConfigurationsExact(role: Role, types: seq<TypeDescriptor>)
    ensures forall t :: multiset(ConcreteConfigurations(role, types))[t] ==
                          if IsConcreteConfiguration(role, t) then multiset(types)[t] else 0
    ensures forall t :: t in ConcreteConfigurations(role, types) <==> t in types && IsConcreteConfiguration(role, t)
    decreases |types|
  {
    if types != [] {
      var n := |types| - 1;
      ConcreteConfigurationsExact(role, types[..n]);
      assert types == types[..n] + [types[n]];
      assert multiset(types) == multiset(types[..n]) + multiset{types[n]};
    }
  }

  /** Configurations are instantiated in type-source order. */
  lemma {:induction false} ConcreteConfigurationsInOrder(role: Role, types: seq<TypeDescriptor>)
    ensures IsSubsequence(ConcreteConfigurations(role, types), types)
    decreases |types|
  {
    if types != [] {
      var n := |types| - 1;
      var earlier := ConcreteConfigurations(role, types[..n]);
      ConcreteConfigurationsInOrder(role, types[..n]);
      if IsConcreteConfiguration(role, types[n]) {
        assert (earlier + [types[n]])[..|earlier|] == earlier;
      } else {
        ConcreteConfigurationsExact(role, types[..n]);
        if earlier != [] {
          assert earlier[|earlier| - 1] in earlier;
        }
      }
    }
  }

  // ---------------------------------------------------------------------------
  // Configuring the kernel

  /** The state of a configuration loop: the kernel so far, and the instance kept. */
  datatype Progress = Progress(kernel: seq<StartupEvent>, built: Option<Instance>)

  /**
    One iteration of the foreach over the configurations of one role: the
    configuration configures the kernel and initialises the asset manager
    provider and, while nothing has been built, is asked to construct.
  */
  function Step(role: Role, p: Progress, c: TypeDescriptor, construct: Factory): (q: Progress)
    ensures |p.kernel| + 2 <= |q.kernel| <= |p.kernel| + 3 && q.kernel[..|p.kernel|] == p.kernel
    ensures p.built.Some? ==> q.built == p.built
  {
    var configured := p.kernel + [ConfigureKernel(role, c), InitializeAssetManagerProvider(role, c)];
    if p.built.None? then
      var made := construct(c, configured);
      Progress(configured + [Construct(role, c, made)], made)
    else
      Progress(configured, p.built)
  }

  /** The whole foreach over `configs`, starting from the kernel record `kernel`; it only appends to the record. */
  function ConfigureEach(role: Role, configs: seq<TypeDescriptor>, kernel: seq<StartupEvent>, construct: Factory): (p: Progress)
    ensures |kernel| <= |p.kernel| && p.kernel[..|kernel|] == kernel
    decreases |configs|
  {
    if configs == [] then Progress(kernel, None)
    else Step(role, ConfigureEach(role, configs[..|configs| - 1], kernel, construct), configs[|configs| - 1], construct)
  }

  /** The configurations that configured the kernel for `role`, in call order. */
  function Configured(role: Role, events: seq<StartupEvent>): seq<TypeDescriptor>
    decreases |events|
  {
    if events == [] then []
    else
      var e := events[|events| - 1];
      Configured(role, events[..|events| - 1]) + if e.ConfigureKernel? && e.role == role then [e.config] else []
  }

  /** The construct calls made for `role`, in call order. */
  function Attempts(role: Role, events: seq<StartupEvent>): seq<Attempt>
    decreases |events|
  {
    if events == [] then []
    else
      var e := events[|events| - 1];
      Attempts(role, events[..|events| - 1]) + if e.Construct? && e.role == role then [Attempt(e.config, e.result)] else []
  }

  /**
    Every ConfigureKernel call is immediately followed by the same
    configuration's InitializeAssetManagerProvider, and every
    InitializeAssetManagerProvider call immediately follows that
    configuration's ConfigureKernel: the two come in pairs and only in pairs.
  */
  predicate ConfiguresThenInitializes(events: seq<StartupEvent>) {
    && (forall i :: 0 <= i < |events| && events[i].ConfigureKernel? ==>
          i + 1 < |events| && events[i + 1] == InitializeAssetManagerProvider(events[i].role, events[i].config))
    && (forall i :: 0 <= i < |events| && events[i].InitializeAssetManagerProvider? ==>
          0 < i && events[i - 1] == ConfigureKernel(events[i].role, events[i].config))
  }

  lemma {:induction false} ConfiguredDistributes(role: Role, a: seq<StartupEvent>, b: seq<StartupEvent>)
    ensures Configured(role, a + b) == Configured(role, a) + Configured(role, b)
    decreases |b|
  {
    if b == [] {
      assert a + b == a;
    } else {
      assert (a + b)[..|a + b| - 1] == a + b[..|b| - 1];
      assert (a + b)[|a + b| - 1] == b[|b| - 1];
      ConfiguredDistributes(role, a, b[..|b| - 1]);
    }
  }

  lemma {:induction false} AttemptsDistribute(role: Role, a: seq<StartupEvent>, b: seq<StartupEvent>)
    ensures Attempts(role, a + b) == Attempts(role, a) + Attempts(role, b)
    decreases |b|
  {
    if b == [] {
      assert a + b == a;
    } else {
      assert (a + b)[..|a + b| - 1] == a + b[..|b| - 1];
      assert (a + b)[|a + b| - 1] == b[|b| - 1];
      AttemptsDistribute(role, a, b[..|b| - 1]);
    }
  }

  lemma {:induction false} ProjectionsOfOtherRole(role: Role, events: seq<StartupEvent>)
    requires forall i :: 0 <= i < |events| ==> !events[i].IsFor(role)
    ensures Configured(role, events) == [] && Attempts(role, events) == []
    decreases |events|
  {
    if events != [] {
      ProjectionsOfOtherRole(role, events[..|events| - 1]);
    }
  }

  lemma ConfiguresThenInitializesAppend(a: seq<StartupEvent>, b: seq<StartupEvent>)
    requires ConfiguresThenInitializes(a) && ConfiguresThenInitializes(b)
    ensures ConfiguresThenInitializes(a + b)
  {
    forall i | 0 <= i < |a + b| && (a + b)[i].ConfigureKernel?
      ensures i + 1 < |a + b| && (a + b)[i + 1] == InitializeAssetManagerProvider((a + b)[i].role, (a + b)[i].config)
    {
      if i >= |a| {
        assert (a + b)[i] == b[i - |a|];
      }
    }
    forall i | 0 <= i < |a + b| && (a + b)[i].InitializeAssetManagerProvider?
      ensures 0 < i && (a + b)[i - 1] == ConfigureKernel((a + b)[i].role, (a + b)[i].config)
    {
      if i >= |a| {
        assert (a + b)[i] == b[i - |a|];
        assert 0 < i - |a|;
        assert (a + b)[i - 1] == b[i - |a| - 1];
      }
    }
  }

  /** Every call in `events` was made on a configuration of role `role`. */
  predicate AllFor(role: Role, events: seq<StartupEvent>) {
    forall i :: 0 <= i < |events| ==> events[i].IsFor(role)
  }

  lemma AllForAppend(role: Role, a: seq<StartupEvent>, b: seq<StartupEvent>)
    requires AllFor(role, a) && AllFor(role, b)
    ensures AllFor(role, a + b)
  {
  }

  /** What one iteration appends: calls of its own role, among them exactly one ConfigureKernel, for `c`, directly followed by its InitializeAssetManagerProvider. */
  lemma StepAppends(role: Role, p: Progress, c: TypeDescriptor, construct: Factory)
    ensures var q := Step(role, p, c, construct);
      && |p.kernel| <= |q.kernel| && q.kernel == p.kernel + q.kernel[|p.kernel|..]
      && AllFor(role, q.kernel[|p.kernel|..])
      && Configured(role, q.kernel[|p.kernel|..]) == [c]
      && ConfiguresThenInitializes(q.kernel[|p.kernel|..])
  {
    var q := Step(role, p, c, construct);
    var added := q.kernel[|p.kernel|..];
    var two := [ConfigureKernel(role, c), InitializeAssetManagerProvider(role, c)];
    assert two[..1] == [ConfigureKernel(role, c)];
    assert two[..1][..0] == [];
    assert Configured(role, two[..1]) == [c];
    assert Configured(role, two) == [c];
    if p.built.None? {
      assert added == two + [Construct(role, c, q.built)];
      assert added[..2] == two;
    } else {
      assert added == two;
    }
  }

  lemma SliceOfAppend<T>(a: seq<T>, b: seq<T>, i: nat)
    requires i <= |a|
    ensures (a + b)[i..] == a[i..] + b
  {
  }

  /** What one iteration appends to the construct calls: one call for `c` while nothing is built, and none after. */
  lemma StepAttempts(role: Role, p: Progress, c: TypeDescriptor, construct: Factory)
    ensures var q := Step(role, p, c, construct);
      && |p.kernel| <= |q.kernel| && q.kernel == p.kernel + q.kernel[|p.kernel|..]
      && Attempts(role, q.kernel[|p.kernel|..]) == (if p.built.None? then [Attempt(c, q.built)] else [])
      && (p.built.None? ==> q.built == construct(c, p.kernel + [ConfigureKernel(role, c), InitializeAssetManagerProvider(role, c)]))
      && (p.built.Some? ==> q.built == p.built)
  {
    var q := Step(role, p, c, construct);
    var added := q.kernel[|p.kernel|..];
    var two := [ConfigureKernel(role, c), InitializeAssetManagerProvider(role, c)];
    assert two[..1][..0] == [];
    assert Attempts(role, two[..1]) == [];
    assert Attempts(role, two) == [];
    if p.built.None? {
      assert added == two + [Construct(role, c, q.built)];
      assert added[..2] == two;
    } else {
      assert added == two;
    }
  }

  /**
    Every construct call for `role` recorded from position `from` on comes
    right after that configuration's ConfigureKernel and
    InitializeAssetManagerProvider, and records what the configuration's
    ConstructGame/ConstructServer answers for the kernel as configured up to
    that call.
  */
  predicate AnswersFromFactory(role: Role, k: seq<StartupEvent>, from: nat, construct: Factory) {
    forall i :: from <= i < |k| && k[i].Construct? && k[i].role == role ==>
      && from + 2 <= i
      && k[i - 2] == ConfigureKernel(role, k[i].config)
      && k[i - 1] == InitializeAssetManagerProvider(role, k[i].config)
      && k[i].result == construct(k[i].config, k[..i])
  }

  /** One iteration keeps AnswersFromFactory: its own construct call, if any, asks the factory after configuring. */
  lemma StepAnswers(role: Role, p: Progress, c: TypeDescriptor, construct: Factory, from: nat)
    requires from <= |p.kernel| && AnswersFromFactory(role, p.kernel, from, construct)
    ensures AnswersFromFactory(role, Step(role, p, c, construct).kernel, from, construct)
  {
    var q := Step(role, p, c, construct);
    var configured := p.kernel + [ConfigureKernel(role, c), InitializeAssetManagerProvider(role, c)];
    assert q.kernel[..|configured|] == configured;
    forall i | from <= i < |q.kernel| && q.kernel[i].Construct? && q.kernel[i].role == role
      ensures && from + 2 <= i
              && q.kernel[i - 2] == ConfigureKernel(role, q.kernel[i].config)
              && q.kernel[i - 1] == InitializeAssetManagerProvider(role, q.kernel[i].config)
              && q.kernel[i].result == construct(q.kernel[i].config, q.kernel[..i])
    {
      if i < |p.kernel| {
        assert q.kernel[i] == p.kernel[i];
        assert q.kernel[..i] == p.kernel[..i];
      } else {
        assert q.kernel[..i] == configured;
      }
    }
  }

  /** The foreach's construct calls each ask the factory, right after configuring, for the record made so far. */
  lemma {:induction false} ConfigureEachAnswers(role: Role, configs: seq<TypeDescriptor>, kernel: seq<StartupEvent>, construct: Factory)
    ensures AnswersFromFactory(role, ConfigureEach(role, configs, kernel, construct).kernel, |kernel|, construct)
    decreases |configs|
  {
    if configs != [] {
      var n := |configs| - 1;
      ConfigureEachAnswers(role, configs[..n], kernel, construct);
      StepAnswers(role, ConfigureEach(role, configs[..n], kernel, construct), configs[n], construct, |kernel|);
    }
  }

  /** Calls made on configurations of another role leave AnswersFromFactory as it was. */
  lemma AnswersExtend(role: Role, k: seq<StartupEvent>, ext: seq<StartupEvent>, from: nat, construct: Factory)
    requires AnswersFromFactory(role, k, from, construct)
    requires forall i :: 0 <= i < |ext| ==> !ext[i].IsFor(role)
    ensures AnswersFromFactory(role, k + ext, from, construct)
  {
    var all := k + ext;
    forall i | |k| <= i < |all|
      ensures !all[i].IsFor(role)
    {
      assert all[i] == ext[i - |k|];
    }
    forall i | from <= i < |all| && all[i].Construct? && all[i].role == role
      ensures && from + 2 <= i
              && all[i - 2] == ConfigureKernel(role, all[i].config)
              && all[i - 1] == InitializeAssetManagerProvider(role, all[i].config)
              && all[i].result == construct(all[i].config, all[..i])
    {
      if i < |k| {
        assert all[..i] == k[..i];
      }
    }
  }

  /** AnswersFromFactory holds from the start of the record when no call before `from` was made for `role`. */
  lemma AnswersFromStart(role: Role, k: seq<StartupEvent>, from: nat, construct: Factory)
    requires AnswersFromFactory(role, k, from, construct)
    requires forall i :: 0 <= i < from && i < |k| ==> !k[i].IsFor(role)
    ensures AnswersFromFactory(role, k, 0, construct)
  {
    forall i | 0 <= i < |k| && k[i].Construct? && k[i].role == role
      ensures from <= i
    {
      assert k[i].IsFor(role);
    }
  }

  /** The foreach only appends calls made on configurations of its own role. */
  lemma {:induction false} ConfigureEachStaysInRole(role: Role, configs: seq<TypeDescriptor>, kernel: seq<StartupEvent>, construct: Factory)
    ensures var p := ConfigureEach(role, configs, kernel, construct);
      AllFor(role, p.kernel[|kernel|..])
    decreases |configs|
  {
    var p := ConfigureEach(role, configs, kernel, construct);
    if configs == [] {
      assert p.kernel[|kernel|..] == [];
    } else {
      var n := |configs| - 1;
      var before := ConfigureEach(role, configs[..n], kernel, construct);
      ConfigureEachStaysInRole(role, configs[..n], kernel, construct);
      StepAppends(role, before, configs[n], construct);
      var earlier := before.kernel[|kernel|..];
      var added := p.kernel[|before.kernel|..];
      SliceOfAppend(before.kernel, added, |kernel|);
      AllForAppend(role, earlier, added);
    }
  }

  /**
    The foreach hands the kernel to each configuration in list order, and each
    ConfigureKernel call is immediately followed by that configuration's
    InitializeAssetManagerProvider, whether or not something has been built.
  */
  lemma {:induction false} ConfigureEachConfiguresAll(role: Role, configs: seq<TypeDescriptor>, kernel: seq<StartupEvent>, construct: Factory)
    ensures var p := ConfigureEach(role, configs, kernel, construct);
      && Configured(role, p.kernel[|kernel|..]) == configs
      && ConfiguresThenInitializes(p.kernel[|kernel|..])
    decreases |configs|
  {
    var p := ConfigureEach(role, configs, kernel, construct);
    if configs == [] {
      assert p.kernel[|kernel|..] == [];
    } else {
      var n := |configs| - 1;
      assert configs == configs[..n] + [configs[n]];
      var before := ConfigureEach(role, configs[..n], kernel, construct);
      ConfigureEachConfiguresAll(role, configs[..n], kernel, construct);
      StepAppends(role, before, configs[n], construct);
      var earlier := before.kernel[|kernel|..];
      var added := p.kernel[|before.kernel|..];
      SliceOfAppend(before.kernel, added, |kernel|);
      ConfiguredDistributes(role, earlier, added);
      ConfiguresThenInitializesAppend(earlier, added);
    }
  }

  /**
    What "construct only while nothing is built" means for the construct calls
    `a` made while working through `configs`: the configurations asked form a
    prefix of the list, every answer but the last is null, the instance kept is
    the last answer, and when nothing was built every configuration was asked.
  */
  predicate FirstInstanceKept(a: seq<Attempt>, configs: seq<TypeDescriptor>, built: Option<Instance>) {
    && |a| <= |configs|
    && (forall j :: 0 <= j < |a| ==> a[j].config == configs[j])
    && (forall j :: 0 <= j < |a| - 1 ==> a[j].result.None?)
    && built == (if a == [] then None else a[|a| - 1].result)
    && (built.None? ==> |a| == |configs|)
  }

  lemma FirstInstanceKeptStep(a: seq<Attempt>, configs: seq<TypeDescriptor>, built: Option<Instance>, c: TypeDescriptor, made: Option<Instance>)
    requires FirstInstanceKept(a, configs, built)
    ensures built.None? ==> FirstInstanceKept(a + [Attempt(c, made)], configs + [c], made)
    ensures built.Some? ==> FirstInstanceKept(a, configs + [c], built)
  {
  }

  /** One iteration keeps FirstInstanceKept for the construct calls made since the loop began at `kernel`. */
  lemma KeepsFirstInstanceStep(role: Role, before: Progress, c: TypeDescriptor, construct: Factory,
                               kernel: seq<StartupEvent>, done: seq<TypeDescriptor>)
    requires |kernel| <= |before.kernel|
    requires FirstInstanceKept(Attempts(role, before.kernel[|kernel|..]), done, before.built)
    ensures var q := Step(role, before, c, construct);
      |kernel| <= |q.kernel| && FirstInstanceKept(Attempts(role, q.kernel[|kernel|..]), done + [c], q.built)
  {
    var q := Step(role, before, c, construct);
    StepAttempts(role, before, c, construct);
    var earlier := before.kernel[|kernel|..];
    var added := q.kernel[|before.kernel|..];
    assert q.kernel == before.kernel + added;
    SliceOfAppend(before.kernel, added, |kernel|);
    assert q.kernel[|kernel|..] == earlier + added;
    AttemptsDistribute(role, earlier, added);
    FirstInstanceKeptStep(Attempts(role, earlier), done, before.built, c, q.built);
  }

  /** The foreach asks for construction only while nothing has been built, and keeps the first instance built. */
  lemma {:induction false} ConfigureEachKeepsFirstInstance(role: Role, configs: seq<TypeDescriptor>, kernel: seq<StartupEvent>, construct: Factory)
    ensures var p := ConfigureEach(role, configs, kernel, construct);
      FirstInstanceKept(Attempts(role, p.kernel[|kernel|..]), configs, p.built)
    decreases |configs|
  {
    var p := ConfigureEach(role, configs, kernel, construct);
    if configs == [] {
      assert p.kernel[|kernel|..] == [];
    } else {
      var n := |configs| - 1;
      assert configs == configs[..n] + [configs[n]];
      ConfigureEachKeepsFirstInstance(role, configs[..n], kernel, construct);
      KeepsFirstInstanceStep(role, ConfigureEach(role, configs[..n], kernel, construct), configs[n], construct, kernel, configs[..n]);
    }
  }

  // ---------------------------------------------------------------------------
  // Startup as a whole

  /** ProtectedStartup: the static fields it leaves, or the exception it throws. */
  function Startup(assemblies: seq<Assembly>, args: seq<string>, constructGame: Factory, constructServer: Factory): (r: Result<Started, StartupError>)
    ensures r.Success? ==> r.value.kernel != [] && r.value.kernel[0] == LaunchArgumentsBound(args)
  {
    var types := TypeSource(assemblies);
    var games := ConcreteConfigurations(GameRole, types);
    var servers := ConcreteConfigurations(ServerRole, types);
    if |games| == 0 && |servers| == 0 then Failure(NoConfigurationImplementation)
    else
      var g := ConfigureEach(GameRole, games, [LaunchArgumentsBound(args)], constructGame);
      var s := ConfigureEach(ServerRole, servers, g.kernel, constructServer);
      Success(Started(s.kernel, g.built, s.built))
  }

  /** Startup throws exactly when the type source holds no concrete game and no concrete server configuration. */
  lemma StartupFailsIffNoConfiguration(assemblies: seq<Assembly>, args: seq<string>, constructGame: Factory, constructServer: Factory)
    ensures Startup(assemblies, args, constructGame, constructServer).Failure? <==>
              forall t :: t in TypeSource(assemblies) ==>
                !IsConcreteConfiguration(GameRole, t) && !IsConcreteConfiguration(ServerRole, t)
  {
    ConcreteConfigurationsExact(GameRole, TypeSource(assemblies));
    ConcreteConfigurationsExact(ServerRole, TypeSource(assemblies));
  }

  /** No call made on a game configuration comes after one made on a server configuration. */
  predicate GamesBeforeServers(k: seq<StartupEvent>) {
    forall i, j :: 0 <= i < j < |k| && k[i].IsFor(ServerRole) ==> k[j].IsFor(ServerRole)
  }

  lemma GamesBeforeServersIntro(start: seq<StartupEvent>, gameEvents: seq<StartupEvent>, serverEvents: seq<StartupEvent>)
    requires forall i :: 0 <= i < |start| ==> !start[i].IsFor(ServerRole)
    requires AllFor(GameRole, gameEvents) && AllFor(ServerRole, serverEvents)
    ensures GamesBeforeServers(start + gameEvents + serverEvents)
  {
    var k := start + gameEvents + serverEvents;
    var m := |start| + |gameEvents|;
    forall p | 0 <= p < |k|
      ensures k[p].IsFor(ServerRole) <==> p >= m
    {
      if p < |start| {
        assert k[p] == start[p];
      } else if p < m {
        assert k[p] == gameEvents[p - |start|];
      } else {
        assert k[p] == serverEvents[p - m];
      }
    }
  }

  lemma RecordStartsWithLaunch(args: seq<string>, gameEvents: seq<StartupEvent>, serverEvents: seq<StartupEvent>)
    requires AllFor(GameRole, gameEvents) && AllFor(ServerRole, serverEvents)
    ensures var k := [LaunchArgumentsBound(args)] + gameEvents + serverEvents;
      k[0] == LaunchArgumentsBound(args) && GamesBeforeServers(k)
  {
    GamesBeforeServersIntro([LaunchArgumentsBound(args)], gameEvents, serverEvents);
  }

  lemma RecordConfigures(args: seq<string>, gameEvents: seq<StartupEvent>, serverEvents: seq<StartupEvent>)
    requires AllFor(GameRole, gameEvents) && AllFor(ServerRole, serverEvents)
    requires ConfiguresThenInitializes(gameEvents) && ConfiguresThenInitializes(serverEvents)
    ensures var k := [LaunchArgumentsBound(args)] + gameEvents + serverEvents;
      && Configured(GameRole, k) == Configured(GameRole, gameEvents)
      && Configured(ServerRole, k) == Configured(ServerRole, serverEvents)
      && ConfiguresThenInitializes(k)
  {
    var start := [LaunchArgumentsBound(args)];
    ConfiguresThenInitializesAppend(start, gameEvents);
    ConfiguresThenInitializesAppend(start + gameEvents, serverEvents);
    ProjectionsOfOtherRole(GameRole, start);
    ProjectionsOfOtherRole(ServerRole, start);
    ProjectionsOfOtherRole(GameRole, serverEvents);
    ProjectionsOfOtherRole(ServerRole, gameEvents);
    ConfiguredDistributes(GameRole, start, gameEvents);
    ConfiguredDistributes(ServerRole, start, gameEvents);
    ConfiguredDistributes(GameRole, start + gameEvents, serverEvents);
    ConfiguredDistributes(ServerRole, start + gameEvents, serverEvents);
  }

  lemma RecordAttempts(args: seq<string>, gameEvents: seq<StartupEvent>, serverEvents: seq<StartupEvent>)
    requires AllFor(GameRole, gameEvents) && AllFor(ServerRole, serverEvents)
    ensures var k := [LaunchArgumentsBound(args)] + gameEvents + serverEvents;
      && Attempts(GameRole, k) == Attempts(GameRole, gameEvents)
      && Attempts(ServerRole, k) == Attempts(ServerRole, serverEvents)
  {
    var start := [LaunchArgumentsBound(args)];
    ProjectionsOfOtherRole(GameRole, start);
    ProjectionsOfOtherRole(ServerRole, start);
    ProjectionsOfOtherRole(GameRole, serverEvents);
    ProjectionsOfOtherRole(ServerRole, gameEvents);
    AttemptsDistribute(GameRole, start, gameEvents);
    AttemptsDistribute(ServerRole, start, gameEvents);
    AttemptsDistribute(GameRole, start + gameEvents, serverEvents);
    AttemptsDistribute(ServerRole, start + gameEvents, serverEvents);
  }

  /**
    The two foreach loops run one after the other from the launch-argument
    binding: the record lists every game configuration's calls before any
    server configuration's, each loop configures all of its configurations in
    order, and each keeps its first instance.
  */
  lemma {:induction false} GameLoopThenServerLoop(args: seq<string>, games: seq<TypeDescriptor>, servers: seq<TypeDescriptor>, constructGame: Factory, constructServer: Factory)
    ensures var g := ConfigureEach(GameRole, games, [LaunchArgumentsBound(args)], constructGame);
      var s := ConfigureEach(ServerRole, servers, g.kernel, constructServer);
      && s.kernel[0] == LaunchArgumentsBound(args)
      && GamesBeforeServers(s.kernel)
      && Configured(GameRole, s.kernel) == games
      && Configured(ServerRole, s.kernel) == servers
      && ConfiguresThenInitializes(s.kernel)
      && FirstInstanceKept(Attempts(GameRole, s.kernel), games, g.built)
      && FirstInstanceKept(Attempts(ServerRole, s.kernel), servers, s.built)
  {
    var start := [LaunchArgumentsBound(args)];
    var g := ConfigureEach(GameRole, games, start, constructGame);
    var s := ConfigureEach(ServerRole, servers, g.kernel, constructServer);
    var gameEvents := g.kernel[1..];
    var serverEvents := s.kernel[|g.kernel|..];
    assert g.kernel == start + gameEvents;
    assert s.kernel == start + gameEvents + serverEvents;
    ConfigureEachStaysInRole(GameRole, games, start, constructGame);
    ConfigureEachStaysInRole(ServerRole, servers, g.kernel, constructServer);
    ConfigureEachConfiguresAll(GameRole, games, start, constructGame);
    ConfigureEachConfiguresAll(ServerRole, servers, g.kernel, constructServer);
    ConfigureEachKeepsFirstInstance(GameRole, games, start, constructGame);
    ConfigureEachKeepsFirstInstance(ServerRole, servers, g.kernel, constructServer);
    RecordStartsWithLaunch(args, gameEvents, serverEvents);
    RecordConfigures(args, gameEvents, serverEvents);
    RecordAttempts(args, gameEvents, serverEvents);
  }

  /** In the record of both loops, every ConstructGame answer comes from the game factory. */
  lemma {:induction false} GameLoopAsksGameFactory(args: seq<string>, games: seq<TypeDescriptor>, servers: seq<TypeDescriptor>, constructGame: Factory, constructServer: Factory)
    ensures var g := ConfigureEach(GameRole, games, [LaunchArgumentsBound(args)], constructGame);
      AnswersFromFactory(GameRole, ConfigureEach(ServerRole, servers, g.kernel, constructServer).kernel, 0, constructGame)
  {
    var start := [LaunchArgumentsBound(args)];
    var g := ConfigureEach(GameRole, games, start, constructGame);
    var s := ConfigureEach(ServerRole, servers, g.kernel, constructServer);
    var serverEvents := s.kernel[|g.kernel|..];
    assert s.kernel == g.kernel + serverEvents;
    ConfigureEachStaysInRole(ServerRole, servers, g.kernel, constructServer);
    ConfigureEachAnswers(GameRole, games, start, constructGame);
    AnswersExtend(GameRole, g.kernel, serverEvents, 1, constructGame);
    AnswersFromStart(GameRole, s.kernel, 1, constructGame);
  }

  /** In the record of both loops, every ConstructServer answer comes from the server factory. */
  lemma {:induction false} ServerLoopAsksServerFactory(args: seq<string>, games: seq<TypeDescriptor>, servers: seq<TypeDescriptor>, constructGame: Factory, constructServer: Factory)
    ensures var g := ConfigureEach(GameRole, games, [LaunchArgumentsBound(args)], constructGame);
      AnswersFromFactory(ServerRole, ConfigureEach(ServerRole, servers, g.kernel, constructServer).kernel, 0, constructServer)
  {
    var start := [LaunchArgumentsBound(args)];
    var g := ConfigureEach(GameRole, games, start, constructGame);
    var s := ConfigureEach(ServerRole, servers, g.kernel, constructServer);
    var gameEvents := g.kernel[1..];
    var serverEvents := s.kernel[|g.kernel|..];
    assert g.kernel == start + gameEvents;
    assert s.kernel == start + gameEvents + serverEvents;
    ConfigureEachStaysInRole(GameRole, games, start, constructGame);
    ConfigureEachAnswers(ServerRole, servers, g.kernel, constructServer);
    NoServerCallsBefore(start, gameEvents, serverEvents);
    AnswersFromStart(ServerRole, s.kernel, |g.kernel|, constructServer);
  }

  lemma NoServerCallsBefore(start: seq<StartupEvent>, gameEvents: seq<StartupEvent>, serverEvents: seq<StartupEvent>)
    requires forall i :: 0 <= i < |start| ==> !start[i].IsFor(ServerRole)
    requires AllFor(GameRole, gameEvents)
    ensures var k := start + gameEvents + serverEvents;
      forall i :: 0 <= i < |start + gameEvents| && i < |k| ==> !k[i].IsFor(ServerRole)
  {
    var k := start + gameEvents + serverEvents;
    forall i | 0 <= i < |start + gameEvents|
      ensures !k[i].IsFor(ServerRole)
    {
      if i < |start| {
        assert k[i] == start[i];
      } else {
        assert k[i] == gameEvents[i - |start|];
      }
    }
  }

  /**
    On success, the kernel record starts with the launch-argument binding;
    every game configuration found configures the kernel, in type-source
    order, before any server configuration does; each ConfigureKernel is
    followed by that configuration's InitializeAssetManagerProvider; and the
    game and the server kept are the first non-null ConstructGame and
    ConstructServer answers, with no configuration asked after them.
  */
  lemma StartupConfiguresThenConstructs(assemblies: seq<Assembly>, args: seq<string>, constructGame: Factory, constructServer: Factory)
    requires Startup(assemblies, args, constructGame, constructServer).Success?
    ensures var st := Startup(assemblies, args, constructGame, constructServer).value;
      var games := ConcreteConfigurations(GameRole, TypeSource(assemblies));
      var servers := ConcreteConfigurations(ServerRole, TypeSource(assemblies));
      && st.kernel[0] == LaunchArgumentsBound(args)
      && GamesBeforeServers(st.kernel)
      && Configured(GameRole, st.kernel) == games
      && Configured(ServerRole, st.kernel) == servers
      && ConfiguresThenInitializes(st.kernel)
      && FirstInstanceKept(Attempts(GameRole, st.kernel), games, st.game)
      && FirstInstanceKept(Attempts(ServerRole, st.kernel), servers, st.server)
      && AnswersFromFactory(GameRole, st.kernel, 0, constructGame)
      && AnswersFromFactory(ServerRole, st.kernel, 0, constructServer)
  {
    var types := TypeSource(assemblies);
    GameLoopThenServerLoop(args, ConcreteConfigurations(GameRole, types), ConcreteConfigurations(ServerRole, types), constructGame, constructServer);
    GameLoopAsksGameFactory(args, ConcreteConfigurations(GameRole, types), ConcreteConfigurations(ServerRole, types), constructGame, constructServer);
    ServerLoopAsksServerFactory(args, ConcreteConfigurations(GameRole, types), ConcreteConfigurations(ServerRole, types), constructGame, constructServer);
  }

  // ---------------------------------------------------------------------------
  // The program

  /** The type source: the attribute-named classes of every assembly or, when there are none, every readable type. */
  method CollectTypeSource(assemblies: seq<Assembly>) returns (typeSource: seq<TypeDescriptor>)
    ensures typeSource == TypeSource(assemblies)
    ensures (exists i :: 0 <= i < |assemblies| && assemblies[i].configurationClasses != []) ==>
              typeSource == AttributedTypes(assemblies)
  {
    typeSource := [];
    for i := 0 to |assemblies|
      invariant typeSource == AttributedTypes(assemblies[..i])
    {
      assert assemblies[..i + 1][..i] == assemblies[..i];
      typeSource := typeSource + assemblies[i].configurationClasses;
    }
    assert assemblies[..|assemblies|] == assemblies;
    if |typeSource| == 0 {
      typeSource := typeSource + ScannedTypes(assemblies);
    }
    TypeSourceSelection(assemblies);
  }

  /** An instance of every concrete configuration type of `role` in the type source, in type-source order. */
  method InstantiateConfigurations(role: Role, typeSource: seq<TypeDescriptor>) returns (configurations: seq<TypeDescriptor>)
    ensures configurations == ConcreteConfigurations(role, typeSource)
    ensures forall t :: t in configurations <==> t in typeSource && IsConcreteConfiguration(role, t)
  {
    configurations := [];
    for i := 0 to |typeSource|
      invariant configurations == ConcreteConfigurations(role, typeSource[..i])
    {
      assert typeSource[..i + 1][..i] == typeSource[..i];
      if IsConcreteConfiguration(role, typeSource[i]) {
        configurations := configurations + [typeSource[i]];
      }
    }
    assert typeSource[..|typeSource|] == typeSource;
    ConcreteConfigurationsExact(role, typeSource);
  }

  /**
    The foreach over the configurations of one role: each configures the
    kernel and initialises the asset manager provider, and is asked to
    construct while nothing has been built.
  */
  method ConfigureKernelWith(role: Role, configurations: seq<TypeDescriptor>, kernel: seq<StartupEvent>, construct: Factory)
    returns (k: seq<StartupEvent>, built: Option<Instance>)
    ensures Progress(k, built) == ConfigureEach(role, configurations, kernel, construct)
    ensures FirstInstanceKept(Attempts(role, k[|kernel|..]), configurations, built)
    ensures AnswersFromFactory(role, k, |kernel|, construct)
  {
    k, built := kernel, None;
    for i := 0 to |configurations|
      invariant Progress(k, built) == ConfigureEach(role, configurations[..i], kernel, construct)
    {
      var c := configurations[i];
      ghost var before := k;
      assert configurations[..i + 1][..i] == configurations[..i];
      k := k + [ConfigureKernel(role, c)];
      k := k + [InitializeAssetManagerProvider(role, c)];
      assert k == before + [ConfigureKernel(role, c), InitializeAssetManagerProvider(role, c)];
      if built.None? {
        built := construct(c, k);
        k := k + [Construct(role, c, built)];
      }
    }
    assert configurations[..|configurations|] == configurations;
    ConfigureEachKeepsFirstInstance(role, configurations, kernel, construct);
    ConfigureEachAnswers(role, configurations, kernel, construct);
  }

  /** The static class Program: the kernel, game and server that startup leaves for the run. */
  class Program {
    var kernel: Option<seq<StartupEvent>>
    var game: Option<Instance>
    var server: Option<Instance>

    constructor ()
      ensures kernel == None && game == None && server == None
    {
      kernel, game, server := None, None, None;
    }

    /** ProtectedStartup: discovers configurations, configures the kernel and constructs the game and server. */
    method ProtectedStartup(assemblies: seq<Assembly>, args: seq<string>, constructGame: Factory, constructServer: Factory)
      returns (outcome: Outcome<StartupError>)
      modifies this
      ensures var s := Startup(assemblies, args, constructGame, constructServer);
        && (s.Failure? ==> outcome == Fail(s.error) && kernel == old(kernel) && game == old(game) && server == old(server))
        && (s.Success? ==> outcome == Pass && kernel == Some(s.value.kernel) && game == s.value.game && server == s.value.server)
    {
      var k := [LaunchArgumentsBound(args)];
      var typeSource := CollectTypeSource(assemblies);
      assert typeSource == TypeSource(assemblies);
      var gameConfigurations := InstantiateConfigurations(GameRole, typeSource);
      var serverConfigurations := InstantiateConfigurations(ServerRole, typeSource);
      if |gameConfigurations| == 0 && |serverConfigurations| == 0 {
        return Fail(NoConfigurationImplementation);
      }
      var g, s;
      k, g := ConfigureKernelWith(GameRole, gameConfigurations, k, constructGame);
      k, s := ConfigureKernelWith(ServerRole, serverConfigurations, k, constructServer);
      kernel := Some(k);
      game := g;
      server := s;
      outcome := Pass;
    }

    /** ProtectedRun: refuses neither and both, and otherwise runs the one that was constructed. */
    method ProtectedRun() returns (r: Result<RunEvent, RunError>)
      ensures r == Failure(NoGameOrServerConstructed) <==> game.None? && server.None?
      ensures r == Failure(BothGameAndServerConstructed) <==> game.Some? && server.Some?
      ensures r.Success? && r.value.RanGame? <==> game.Some? && server.None?
      ensures r.Success? && r.value.RanServer? <==> game.None? && server.Some?
      ensures r.Success? && r.value.RanGame? ==> r.value.game == game.value
      ensures r.Success? && r.value.RanServer? ==> r.value.server == server.value
    {
      if game.None? && server.None? {
        return Failure(NoGameOrServerConstructed);
      }
      if game.Some? && server.Some? {
        return Failure(BothGameAndServerConstructed);
      }
      if game.Some? {
        r := Success(RanGame(game.value));
      } else {
        r := Success(RanServer(server.value));
      }
    }
  }
}
