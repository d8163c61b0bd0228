# Protogame startup, component hierarchy and plane rendering, in Dafny

This project models three pieces of the Protogame engine and proves properties about them.

- **Desktop entry point** (`entry_point.dfy`, module `EntryPoint`).
  - `ProtectedStartup` chooses the type source. It uses the classes named by `ConfigurationAttribute` when any assembly names one. Otherwise it uses every type it can read.
  - It instantiates the concrete `IGameConfiguration` and `IServerConfiguration` implementations, in type-source order.
  - It throws when there are none.
  - It hands the kernel to every game configuration and then to every server configuration. It keeps the first game and the first server that any configuration constructs.
  - `ProtectedRun` refuses to run when it has neither a game nor a server, and when it has both. Otherwise it runs the one it has.
  - The kernel is modelled as the ordered record of the calls made on it and on the configurations (`StartupEvent`).
  - `ConstructGame`/`ConstructServer` are functions of the configuration and of that record.
  - The static fields `_kernel`, `_game` and `_server` are the fields of class `Program`.
- **Component hierarchy planner** (`component_module.dfy`, module `ProtogameComponentModule`).
  - `Load` binds the four component services.
  - `GetContextPath` walks up the parent requests. It collects their services past the first `skip` and reverses them, so the path reads root first.
  - `InstantiateComponent` records the resolved component under the request's path in the shared `IComponentHierarchyParameter`.
  - `RequireComponent` looks components up under the path with one level skipped. It returns the first lookup result that is an instance of the requested type, or throws `NeedsComponentInHierarchyToContinueException`.
  - Requests are immutable records linked to their parent request.
  - `Kernel.Resolve` and `GetComponentsUnderPath` are function parameters. `Resolve` also yields the entries that the handlers it runs record in the shared hierarchy parameter, and the exception one of them throws, if any.
- **Render3DPlaneComponent** (`render_plane.dfy`, module `Render3DPlane`).
  - The constructor makes the component enabled and loads the `effect.Color` asset.
  - `Render` draws nothing when the component is disabled or the pass is not an `I3DRenderPass`.
  - Otherwise `Render` issues exactly one `RenderPlane` call. Its matrix is the identity multiplied by the absolute matrix of the immediate parent node's transform, when that parent holds one.
  - Matrices are symbolic (`Identity`, `Absolute`, `Product`).
  - The render utilities keep the list of planes they were asked to draw.

`wrappers.dfy` holds the shared `Option`, `Result` and `Outcome` datatypes. A thrown exception is a `Failure`/`Fail` value.

Two facts about the code that the model keeps:

- The plane's transform comes from the immediate parent only (`Render3DPlaneComponent.cs:37`). The component does not walk further up the hierarchy.
- `ProtogameComponentModule.cs` lies inside `#if FALSE` (lines 6 and 70). It is modelled as written.

## Model

| member | source | states |
|---|---|---|
| EntryPoint.TryGetTypes | Protogame.EntryPoint/Program.cs:151-161 | an assembly whose GetTypes throws contributes no types; otherwise all its types, as a multiset |
| EntryPoint.TypeSource | Protogame.EntryPoint/Program.cs:165-178 | the type source is either the attribute-named classes or the scanned types, and is empty only when both are (exact choice: TypeSourceSelection) |
| EntryPoint.ConcreteConfigurations | Protogame.EntryPoint/Program.cs:182-208 | the filter keeps at most the types it is given, and only concrete configurations of the role (exact membership and order: ConcreteConfigurationsExact, ConcreteConfigurationsInOrder) |
| EntryPoint.AttributedTypesEmpty | Protogame.EntryPoint/Program.cs:165-172 | the attribute-named type list is empty exactly when no assembly names a configuration class |
| EntryPoint.TypeSourceSelection | Protogame.EntryPoint/Program.cs:165-178 | when any assembly names a class, the type source is exactly the attribute-named classes; the full scan of readable types happens only when none does |
| EntryPoint.CollectTypeSource | Protogame.EntryPoint/Program.cs:165-178 | the foreach over assemblies and the fallback scan build the type source, and the attribute-named classes are used exclusively when there are any |
| EntryPoint.ConcreteConfigurationsExact | Protogame.EntryPoint/Program.cs:182-208 | a type is instantiated (once per occurrence) exactly when it is assignable to the role's configuration interface and is neither interface nor abstract |
| EntryPoint.ConcreteConfigurationsInOrder | Protogame.EntryPoint/Program.cs:182-208 | the instantiated configurations are a subsequence of the type source, so type-source order is kept |
| EntryPoint.InstantiateConfigurations | Protogame.EntryPoint/Program.cs:182-208 | the filtering loop yields the concrete configurations of the role in order, and a type is among them exactly when it is in the type source and concrete |
| EntryPoint.StartupFailsIffNoConfiguration | Protogame.EntryPoint/Program.cs:212-217 | startup throws exactly when the type source has neither a concrete game nor a concrete server configuration |
| EntryPoint.ConfigureEach | Protogame.EntryPoint/Program.cs:234-255 | a configuration loop only appends to the kernel record |
| EntryPoint.Step | Protogame.EntryPoint/Program.cs:234-255 | one iteration only appends two or three calls to the record and never replaces an instance already built |
| EntryPoint.StepAppends | Protogame.EntryPoint/Program.cs:236-254 | one iteration appends calls of its own role only, among them exactly one ConfigureKernel, for its configuration, directly followed by its InitializeAssetManagerProvider, and no InitializeAssetManagerProvider that does not directly follow its ConfigureKernel |
| EntryPoint.StepAttempts | Protogame.EntryPoint/Program.cs:249-254 | one iteration asks to construct only while nothing is built; the instance it then keeps is the factory's answer for that configuration on the record after ConfigureKernel and InitializeAssetManagerProvider, and an instance already built is kept |
| EntryPoint.StepAnswers | Protogame.EntryPoint/Program.cs:236-254 | one iteration keeps the property that every construct call of the role comes right after that configuration's ConfigureKernel and InitializeAssetManagerProvider and records the factory's answer on the record before it |
| EntryPoint.ConfigureEachAnswers | Protogame.EntryPoint/Program.cs:234-255 | in the part a loop appends, every construct call of the role follows its configuration's two setup calls and records the factory's answer |
| EntryPoint.ConfigureEachStaysInRole | Protogame.EntryPoint/Program.cs:234-284 | a loop calls only configurations of its own role |
| EntryPoint.ConfigureEachConfiguresAll | Protogame.EntryPoint/Program.cs:234-243 | every configuration, in list order, configures the kernel, each immediately followed by its InitializeAssetManagerProvider, whether or not something was already built, and every InitializeAssetManagerProvider call is the one right after its ConfigureKernel |
| EntryPoint.ConfigureEachKeepsFirstInstance | Protogame.EntryPoint/Program.cs:249-254 | construct is asked of a prefix of the configurations, every answer but the last is null, the kept instance is the first non-null answer, and no configuration is asked after it (that each answer is the factory's: ConfigureEachAnswers) |
| EntryPoint.ConfigureKernelWith | Protogame.EntryPoint/Program.cs:234-284 | the foreach with its `game == null`/`server == null` guard computes the loop's record, keeps the first instance constructed, and every construct call in the record follows its configuration's setup calls and records the factory's answer |
| EntryPoint.GamesBeforeServersIntro | Protogame.EntryPoint/Program.cs:234-286 | no call on a game configuration follows a call on a server configuration |
| EntryPoint.GameLoopThenServerLoop | Protogame.EntryPoint/Program.cs:227-286 | the server loop runs on the kernel left by the game loop, and the combined record keeps all per-loop properties |
| EntryPoint.GameLoopAsksGameFactory | Protogame.EntryPoint/Program.cs:234-255 | in the whole startup record, every ConstructGame call follows its configuration's setup calls and records ConstructGame's answer on the record before it |
| EntryPoint.ServerLoopAsksServerFactory | Protogame.EntryPoint/Program.cs:263-284 | in the whole startup record, every ConstructServer call follows its configuration's setup calls and records ConstructServer's answer on the record before it |
| EntryPoint.Startup | Protogame.EntryPoint/Program.cs:144-291 | a successful startup's record begins with binding the launch arguments (its full shape: StartupConfiguresThenConstructs) |
| EntryPoint.StartupConfiguresThenConstructs | Protogame.EntryPoint/Program.cs:144-291 | a successful startup binds the launch arguments first, configures all game configurations before any server configuration, configures each in order with exactly one InitializeAssetManagerProvider per ConfigureKernel right after it, asks each factory only after configuring, records the factories' own answers, and keeps the first game and the first server built |
| EntryPoint.Program.constructor | Protogame.EntryPoint/Program.cs:126-130 | the static kernel, game and server start unset |
| EntryPoint.Program.ProtectedStartup | Protogame.EntryPoint/Program.cs:144-291 | on failure the static fields are unchanged; on success they hold the kernel record, the game and the server of the startup function |
| EntryPoint.Program.ProtectedRun | Protogame.EntryPoint/Program.cs:293-353 | fails when neither or both of game and server exist, and otherwise runs exactly the one that exists |
| ProtogameComponentModule.BindingFor | Protogame/Component/ProtogameComponentModule.cs:16-19 | IInstantiateComponent goes to InstantiateComponent; IRequireComponent is the only service using Immediate; InDescendants and InHierarchy both use Full |
| ProtogameComponentModule.ChainEndsAtRoot | Protogame/Component/ProtogameComponentModule.cs:51-64 | the walk visits each request's parent in turn and ends at a request without a parent |
| ProtogameComponentModule.ContextPath | Protogame/Component/ProtogameComponentModule.cs:48-67 | the path is never longer than the chain of ancestors (exact shape: ContextPathShape) |
| ProtogameComponentModule.ContextPathShape | Protogame/Component/ProtogameComponentModule.cs:48-66 | the path has max(0, depth - max(0, skip)) elements, and element j is the service of the (depth-1-j)-th ancestor, so it reads root first |
| ProtogameComponentModule.ContextPathStartsAtRoot | Protogame/Component/ProtogameComponentModule.cs:51-65 | a nonempty path starts with the service of the root request |
| ProtogameComponentModule.ContextPathIsPrefix | Protogame/Component/ProtogameComponentModule.cs:59-65 | the path with skip k is the unskipped path with its last k elements dropped |
| ProtogameComponentModule.ContextPathSeesOnlyServices | Protogame/Component/ProtogameComponentModule.cs:59-62 | requests whose ancestors ask for the same services have the same path |
| ProtogameComponentModule.SiblingRequestsShareContextPaths | Protogame/Component/ProtogameComponentModule.cs:55-61 | sibling requests for the same service at different targets are distinct, yet requests made under either get the same path |
| ProtogameComponentModule.GetContextPath | Protogame/Component/ProtogameComponentModule.cs:48-67 | the while loop with its counter and the final reverse yields the context path, with its length and its root-first order |
| ProtogameComponentModule.FirstHierarchyParameter | Protogame/Component/ProtogameComponentModule.cs:25 | the first IComponentHierarchyParameter among the request's parameters, or none exactly when there is none |
| ProtogameComponentModule.ChildRequest | Protogame/Component/ProtogameComponentModule.cs:26 | the child request asks for the component type, and its ancestors are the request followed by the request's own ancestors |
| ProtogameComponentModule.FirstInstanceOf | Protogame/Component/ProtogameComponentModule.cs:38 | the first component that is an instance of the type, or none exactly when no component is |
| ProtogameComponentModule.ComponentHierarchyParameter.AddComponentAtPath | Protogame/Component/ProtogameComponentModule.cs:29 | one path-to-component entry is appended to the parameter's record |
| ProtogameComponentModule.ComponentHierarchyParameter.AddComponentsRecordedWhileResolving | Protogame/Component/ProtogameComponentModule.cs:28 | the entries recorded by the handlers that resolving the child runs are appended to the parameter's record, in order |
| ProtogameComponentModule.InstantiateComponent | Protogame/Component/ProtogameComponentModule.cs:22-31 | fails with the store unchanged on a non-generic service or a missing parameter; fails with the exception thrown while resolving (a nested RequireComponent that finds nothing), keeping what resolving recorded and adding no entry of its own; fails after resolution on an empty resolution, keeping what resolving recorded; otherwise keeps what resolving recorded, then records the resolved component under the unskipped path, and returns a new wrapper holding that component |
| ProtogameComponentModule.RequireComponent | Protogame/Component/ProtogameComponentModule.cs:33-46 | looks up under the path with skip 1 in the given mode; returns a new wrapper holding the first match, or the NeedsComponentInHierarchyToContinue error naming the requested type |
| Render3DPlane.Render3DPlaneComponent.constructor | Protogame/Component/Builtin/Render3DPlaneComponent.cs:12-19 | a new component is enabled, transparent black, and holds the effect asset named "effect.Color" |
| Render3DPlane.RenderUtilities.RenderPlane | Protogame/Component/Builtin/Render3DPlaneComponent.cs:42 | one draw call with the given context, effect, matrix and colour is added |
| Render3DPlane.PlaneTransform | Protogame/Component/Builtin/Render3DPlaneComponent.cs:36-41 | the matrix multiplies the parent's absolute matrix factors when the parent holds a transform, and no factor otherwise |
| Render3DPlane.Evaluate | Protogame/Component/Builtin/Render3DPlaneComponent.cs:36-40 | multiplying out identity factors keeps the same absolute matrices in the same order, leaves the identity or an identity-free matrix, and changes nothing in an identity-free one |
| Render3DPlane.IdentityIsUnit | Protogame/Component/Builtin/Render3DPlaneComponent.cs:36-40 | the identity is a unit of the product on both sides |
| Render3DPlane.PlaneTransformPlacement | Protogame/Component/Builtin/Render3DPlaneComponent.cs:36-41 | the matrix denotes the immediate parent's absolute matrix, whatever it is, when the parent holds a transform, and the identity when there is no parent or it holds no transform |
| Render3DPlane.PlaneDraws | Protogame/Component/Builtin/Render3DPlaneComponent.cs:29-42 | one Render call draws at most one plane (exactly when, and how: PlaneDrawsCount) |
| Render3DPlane.PlaneDrawsCount | Protogame/Component/Builtin/Render3DPlaneComponent.cs:29-42 | a Render call draws at most one plane, draws one exactly when enabled in a 3D pass, and draws it with the context, effect, computed matrix and colour |
| Render3DPlane.FrameDrawsPer3DPass | Protogame/Component/Builtin/Render3DPlaneComponent.cs:29-34 | over a sequence of passes, a disabled component draws nothing, and an enabled one draws one plane per 3D pass, in pass order |
| Render3DPlane.Render3DPlaneComponent.Render | Protogame/Component/Builtin/Render3DPlaneComponent.cs:27-44 | the render utilities' record gains exactly the planes of one Render call, and nothing else changes |

## Left out

- Reflection is replaced by explicit inputs: `AppDomain`, `GetCustomAttributes`, `GetTypes`, `IsAssignableFrom` and `Activator.CreateInstance`. An assembly is given as its attribute-named classes plus its readable types, where `None` stands for a `GetTypes` that throws. A type is given as the four facts the filter asks of it. `GetAssemblies()` is read twice in the code (Program.cs lines 165 and 175); the model uses one assembly list for both reads, so an assembly loaded between them is not modelled.
- Platform entry points, `Main`, `ErrorProtection.RunEarly/RunMain`, `FastTrace` and `Debug.WriteLine` are left out. They are process plumbing and logging.
- Only the desktop variant (`PLATFORM_WINDOWS || PLATFORM_MACOS || PLATFORM_LINUX`) is modelled. The `#if` opened at Program.cs line 259 is closed only at line 327, inside `ProtectedRun`. In any other build, `_kernel`/`_game`/`_server` are never assigned and `ProtectedRun` is never declared, so that variant has no coherent behaviour to model.
- `Game.Run`, `ICoreServer.Run` and the `using` disposal are left out. Their code is not part of this model; running is the `RanGame`/`RanServer` result.
- Protoinject kernel internals are left out: `Bind`, `Get`, `Resolve` and `CreateChild`. The kernel is the record of calls made during startup. `Resolve` of a child request is a function parameter of `InstantiateComponent`. A child request is assumed to carry its parent's parameters.
- `IComponentHierarchyParameter.GetComponentsUnderPath` is not part of this model. It is a function parameter of the recorded entries, the path and the mode.
- The `IBuiltinComponentFactory` and `IEntityFactory` bindings in `Load` are left out. They name factories whose code is not part of this model.
- XNA `Matrix` arithmetic is floating point and is left out. Matrices are symbolic.
- `Effect.CreateParameterSet()` is left out. The asset manager's `Get<EffectAsset>` is a function parameter of the constructor.
- `Render`'s `entity` and `gameContext` parameters are left out. The code never reads them.
- `Render3DPlane.Render3DPlaneComponent.Render`: the render context is a plain value here, so asking it for the current pass changes nothing and the contract does not distinguish the order of the enabled check and the 3D-pass check. The method body keeps the code's order: the enabled check first, then the pass check.
- `IRawAsset.cs` and `I2DBatchedRenderPass.cs` are interface declarations with no behaviour, and are not part of this model.
- `EntryPoint.Program.ProtectedStartup`: a configuration's `ConfigureKernel`, `InitializeAssetManagerProvider`, `ConstructGame` and `ConstructServer` are assumed to return. In the code an exception from any of them aborts startup before `_kernel`, `_game` and `_server` are assigned; the model does not capture that path.
- `Render3DPlane.Render3DPlaneComponent.constructor`: the asset manager's `Get<EffectAsset>("effect.Color")` is assumed to return an asset; a lookup that throws is not modelled.
- `ProtogameComponentModule.InstantiateComponent`: the entries that the handlers run by `Resolve` record in the shared hierarchy parameter are given by the `Resolver` parameter as a list, and so is the exception one of them throws. Their paths, components and errors are not derived from a model of those nested handlers.
- `ProtogameComponentModule.InstantiateComponent`: a non-generic service, a missing hierarchy parameter and an empty resolution are error values. In the code they are the exceptions thrown by `GetGenericArguments()[0]` and `First()`.
