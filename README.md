# Brisk command dispatcher, modelled in Dafny

This project models the command dispatcher of Brisk (`src/net.old/Brisk/Commander.cs`).
`Commander` offers `Create`, `Update` and `Delete` for any entity type. Each one runs the same
fixed sequence:

1. It asks `EntityServiceFactory` for the entity service of the type.
2. It asks the service to `Validate` the entity. A rejection returns an unsuccessful
   `CommandResult` with a null command at once.
3. It calls the service's `Create` hook.
4. It builds the command.
5. It raises the persistence event (`Created`, `Updated` or `Deleted`) through `Eventer`.
6. It calls `Persister.Add`, `Update` or `Delete`.
7. It returns a successful result that holds the command.

`EntityServiceFactory.Create<T>` returns the service the container has registered for the type.
If there is none, it builds a new default `EntityService<T>` whose `EventService` comes from the
container.

## How the model is built

- `commands.dfy` (module `Commands`): `Command` has one constructor per subclass
  (`Create`, `Update`, `Delete`). `CommandResult` pairs `isSuccess` with an `Option` command.
  `Consistent()` says success holds exactly when a command is present.
- `outcomes.dfy` (module `Outcomes`): an operation either returns normally or lets an
  exception through (`Threw`). The core catches nothing.
- `entity_services.dfy` (module `EntityServices`): a `TypeTag` stands for the generic argument
  `TEntity`. The container is a map from type tags to registered services, plus the event
  service it may hold. An entity service is its `Validate` rule and its `EventService` property.
  The default service's `Validate` code is not part of this model, so the factory takes it as a
  parameter (`defaultValidate`). The model does not assume that it accepts everything.
- `trace.dfy` (module `Trace`): `Eventer`, `Persister` and the hook calls on entity services are
  modelled as one trace of `Effect`s, oldest first. `Count` counts the recorded calls on one
  channel: the create hook, `Eventer` or `Persister` (`Validate` calls are not recorded). `WellSequenced` says every call in a trace is where a dispatch puts it.
- `commander.dfy` (module `Dispatch`): `Run` describes one dispatch as a value: how it ends, and
  the calls it issued. Class `Commander` holds the factory and the trace. Its methods perform
  the steps in source order, appending to `trace`, and are proved to agree with `Run`.
  The lemmas about `Run` state the ordering and short-circuit rules. `WidgetScenarios` is a
  client that walks through an accepted create, a rejected create, a persister fault and a
  resolution fault.

What `Eventer` and `Persister` do on a given call is a parameter, `CollaboratorFaults`: each one
either returns or throws. The trace records every call that was issued, including the one that
threw.

### Behaviour of the code worth noting

- **Hook reuse.** `Update` and `Delete` call the entity service's `Create` hook (lines 72 and
  87). The model keeps this: the hook effect is always `ServiceHook(CreateOp, ...)`, and
  `OnlyCreateHook` states it. A variant with separate update and delete hooks is not modelled.
- **Resolution can fail.** The fallback calls `Resolve<IEventService>()` (line 121), which
  throws when the container has no event service. The model returns
  `Threw(ComponentNotRegistered)` in that case. Resolution is total only when an event service
  is registered.
- **The command wraps the same entity.** The command, the event and the persister call all
  receive the very entity reference passed in. The model treats an entity as its identity
  (a value of the type parameter `E`).
- **Default validation is not shown.** The code of the default `EntityService<T>.Validate` is
  not part of this model, and the model does not assume it accepts everything.

## Model

| member | source | states |
|---|---|---|
| `Commands.CommandFor` | src/net.old/Brisk/Commander.cs:23-36 | the command built for a mutation records that mutation's kind and the entity it was given |
| `Commands.CommandForInjective` | src/net.old/Brisk/Commander.cs:23-36 | two commands are equal exactly when they share both the mutation kind and the entity |
| `Commands.FailedResult` | src/net.old/Brisk/Commander.cs:54 | the rejected result is unsuccessful and holds no command |
| `Commands.SucceededResult` | src/net.old/Brisk/Commander.cs:61 | the accepted result is successful and holds exactly the command built |
| `EntityServices.EntityServiceFactory.Create` | src/net.old/Brisk/Commander.cs:113-126 | returns the registered service when the type has one; otherwise succeeds exactly when the container holds an event service, and then returns a default service with the default Validate rule of the type and its EventService set to the container's event service (line 121); the only failure is a missing event service |
| `EntityServices.RegistrationOverridesDefault` | src/net.old/Brisk/Commander.cs:118-124 | registering a service for a type makes the factory return it for that type and changes nothing for other types |
| `EntityServices.DefaultsAgree` | src/net.old/Brisk/Commander.cs:119-122 | two resolutions of the same unregistered type over the same event service give services with the same validation outcome and event service |
| `Trace.EventFor` | src/net.old/Brisk/Commander.cs:58-89 | the event raised for a mutation has that mutation's kind and carries the entity and its type |
| `Trace.PersisterCallFor` | Brisk/Repository/IPersister.cs:5-7 | the persister call for a mutation is the operation of that kind applied to the entity |
| `Trace.CountAppend` | src/net.old/Brisk/Commander.cs:56-59 | the recorded calls on each channel (create hook, Eventer, Persister) in two traces one after the other add up |
| `Trace.WellSequencedAppend` | src/net.old/Brisk/Commander.cs:56-59 | appending one dispatch's calls to a well-sequenced trace keeps it well sequenced |
| `Trace.PersisterCallsAreAnnounced` | src/net.old/Brisk/Commander.cs:56-59 | in a well-sequenced trace every persister call comes right after the event of the same mutation on the same entity, itself right after the create hook |
| `Dispatch.Run` | src/net.old/Brisk/Commander.cs:50-94 | a dispatch issues a prefix of hook, event and persister call; a normal result has success exactly when it has a command; an unsuccessful result issues nothing |
| `Dispatch.RejectedHasNoEffect` | src/net.old/Brisk/Commander.cs:52-54 | when the resolved service rejects the entity the result is unsuccessful with no command, and no hook, event or persister call happens (lines 68-70 and 83-85 likewise) |
| `Dispatch.SuccessIffAccepted` | src/net.old/Brisk/Commander.cs:53-61 | success holds exactly when the service accepts the entity and neither collaborator throws; the command then has the requested kind and the very entity passed in |
| `Dispatch.SuccessEffects` | src/net.old/Brisk/Commander.cs:56-59 | a successful dispatch issues exactly the create hook, then the matching event, then the matching persister call, all on the entity |
| `Dispatch.SuccessCallsEachOnce` | src/net.old/Brisk/Commander.cs:56-59 | on success the create hook, Eventer and Persister each receive exactly one call |
| `Dispatch.EventBeforePersisterCall` | src/net.old/Brisk/Commander.cs:58-59 | in every dispatch the event is raised strictly before the persister call |
| `Dispatch.OnlyCreateHook` | src/net.old/Brisk/Commander.cs:72 | the hook every operation calls is the create hook, for Update and Delete too (lines 56 and 87 likewise) |
| `Dispatch.FaultsPropagate` | src/net.old/Brisk/Commander.cs:58-59 | a throwing Eventer ends the dispatch after the hook and the event, with no persister call; a throwing Persister ends it after the event has gone out, with nothing compensating |
| `Dispatch.ResolutionFaultHasNoEffect` | src/net.old/Brisk/Commander.cs:121 | when the factory throws, the dispatch throws the same fault before calling anything |
| `Dispatch.AppendedCounts` | src/net.old/Brisk/Commander.cs:52-61 | a successful dispatch adds exactly one create-hook call, one event and one persister call to any trace; a rejected or unresolved one adds nothing |
| `Dispatch.Commander.constructor` | src/net.old/Brisk/Commander.cs:45-49 | a new commander has the given factory and an empty trace |
| `Dispatch.Commander.GetEntityService` | src/net.old/Brisk/Commander.cs:96-100 | asks the factory afresh on each call, with no cache |
| `Dispatch.Commander.Dispatch` | src/net.old/Brisk/Commander.cs:50-94 | performs the steps in order; the result and the appended calls are those of `Run`; on success the create-hook, Eventer and Persister counts each grow by one; without acceptance the trace is unchanged; the factory is never changed |
| `Dispatch.Commander.Create` | src/net.old/Brisk/Commander.cs:50-64 | returns a successful result holding `Create(entity)` exactly when the entity is accepted and nothing throws; on success appends the create hook, `Created`, then `Persister.Add`; on rejection appends nothing |
| `Dispatch.Commander.Update` | src/net.old/Brisk/Commander.cs:66-79 | as for Create, with `Update(entity)`, `Updated` and `Persister.Update`; the hook is still the create hook |
| `Dispatch.Commander.Delete` | src/net.old/Brisk/Commander.cs:81-94 | as for Create, with `Delete(entity)`, `Deleted` and `Persister.Delete`; the hook is still the create hook |

## Left out

- The Autofac container's internals (`TryResolve`, `Resolve`): the container is a map from type tags to services, plus an optional event service. Errors while activating a registered service are not modelled.
- Calls of `Validate` and of the factory are not recorded in the trace: a dispatch calls the resolved entity service twice (`Validate` at line 53, then the `Create` hook at line 56), but only the hook call is a trace entry. `Validate` is modelled as a pure decision (the `validate` rule) whose outcome selects the branch.
- `Resolve<IEventService>()` (line 121) is assumed to return the same `IEventService` instance on every resolution, as a single-instance registration would: the container holds one fixed `EventService`, so every default service is wired to the same one, and `DefaultsAgree`'s claim that two fallbacks share the event service rests on that assumption. A registration handing out a new instance per resolution is not modelled.
- Instance identity of default services: each resolution recomputes the default service as a value. The model cannot tell two fresh instances apart, or say that they are distinct.
- What the entity service's `Create` hook does to the entity, and any side effect of `Validate`: both belong to the entity service, and their code is not part of this model. The hook is recorded as a call. `Validate` and the hook are modelled as returning normally; their exceptions are not modelled.
- Event delivery behind `Eventer.Raise` and the durability of `Persister`: external collaborators, modelled only as the calls they receive and whether they throw.
- `Brisk/Repository/MongoRepository.cs`: read-only access to MongoDB, outside the dispatcher.
- `IPersister`: an interface with no logic, modelled only as the `PersisterCall` entries in the trace.
- The settable properties of `Commander` (`Eventer`, `Persister`, `EntityServiceFactory`), `Command.Entity`, and `CommandResult`: the model fixes the factory at construction and treats commands and results as immutable values.
- Static result types: C# returns `CommandResult<Create<TEntity>>` and its siblings; the model returns a `Command` of any kind and proves its kind.
- Direct construction of the base class `Command<TEntity>`, and the commented-out `Retrieve` command: the dispatcher uses neither.
- Generics, reflection, concurrency and thread safety: type identity is a `TypeTag`; all calls are sequential.
- A variant with separate update and delete hooks: the code reuses the create hook (lines 72 and 87), and the model follows the code.
