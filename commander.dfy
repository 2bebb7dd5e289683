/** The dispatcher: Commander.Create, Update and Delete resolve an entity service,
    validate, call the service's create hook, build the command, raise the
    persistence event, call the persister and return the result. `Run` states
    one dispatch as a value; class `Commander` performs it step by step on its
    trace and is proved to agree with `Run`. */
module Dispatch {
  import opened Commands
  import opened Outcomes
  import opened EntityServices
  import opened Trace

  /** What the external Eventer and Persister do on one call: return, or throw. */
  datatype CollaboratorFaults = CollaboratorFaults(eventerThrows: bool, persisterThrows: bool)

  /** Both collaborators return normally. */
  const NoFaults := CollaboratorFaults(false, false)

  /** One dispatch: how it ends and the calls it issued, in order. */
  datatype Step<E> = Step(outcome: Outcome<CommandResult<Command<E>>>, effects: seq<Effect<E>>)

  /** The service resolved for `t` exists and accepts `e`. */
  ghost predicate Accepts<E>(factory: EntityServiceFactory<E>, t: TypeTag, e: E)
  {
    factory.Create(t).Normal? && factory.Create(t).value.validate(e)
  }

  /** The step ended with a successful result. */
  ghost predicate Succeeded<E>(s: Step<E>)
  {
    s.outcome.Normal? && s.outcome.value.isSuccess
  }

  /** The calls of a dispatch of mutation `op` that gets past validation: the
      create hook (for every mutation), the event, the persister operation. */
  function AcceptedEffects<E>(op: Kind, t: TypeTag, e: E): seq<Effect<E>>
  {
    [ServiceHook(CreateOp, t, e), EventRaised(EventFor(op, t, e)), PersisterInvoked(PersisterCallFor(op, e))]
  }

  /** Mutation `op` of entity `e` of type `t` through `factory`, the collaborators
      behaving as `faults` says. */
  function Run<E>(op: Kind, factory: EntityServiceFactory<E>, t: TypeTag, e: E, faults: CollaboratorFaults): (s: Step<E>)
    ensures WellSequenced(s.effects)
    ensures s.outcome.Normal? ==> s.outcome.value.Consistent()
    ensures s.outcome.Normal? && !s.outcome.value.isSuccess ==> s.effects == []
    ensures |s.effects| <= 3
    ensures s.effects != [] ==> s.effects == AcceptedEffects(op, t, e)[..|s.effects|]
  {
    match factory.Create(t)
    case Threw(fault) => Step(Threw(fault), [])
    case Normal(entityService) =>
      if !entityService.validate(e) then
        Step(Normal(FailedResult()), [])
      else
        var effects := AcceptedEffects(op, t, e);
        if faults.eventerThrows then
          Step(Threw(EventerFault), effects[..2])
        else if faults.persisterThrows then
          Step(Threw(PersisterFault), effects)
        else
          Step(Normal(SucceededResult(CommandFor(op, e))), effects)
  }

  /** A rejected entity leaves no trace: no hook, no event, no persister call,
      and the result is unsuccessful without a command, whatever the collaborators do. */
  lemma RejectedHasNoEffect<E>(op: Kind, factory: EntityServiceFactory<E>, t: TypeTag, e: E, faults: CollaboratorFaults)
    requires factory.Create(t).Normal? && !factory.Create(t).value.validate(e)
    ensures Run(op, factory, t, e, faults) == Step(Normal(CommandResult(false, None)), [])
  {
  }

  /** A dispatch succeeds exactly when the resolved service accepts the entity and
      neither collaborator throws; then the result holds the command of the
      requested kind for the very entity passed in. */
  lemma SuccessIffAccepted<E>(op: Kind, factory: EntityServiceFactory<E>, t: TypeTag, e: E, faults: CollaboratorFaults)
    ensures Succeeded(Run(op, factory, t, e, faults)) <==>
              Accepts(factory, t, e) && !faults.eventerThrows && !faults.persisterThrows
    ensures Succeeded(Run(op, factory, t, e, faults)) ==>
              var c := Run(op, factory, t, e, faults).outcome.value.command;
              c.Some? && c.value.Op() == op && c.value.entity == e
  {
  }

  /** A successful dispatch issues exactly three recorded calls: the create hook, then the event of the requested kind, then the persister
      operation of the requested kind, each carrying the entity. */
  lemma SuccessEffects<E>(op: Kind, factory: EntityServiceFactory<E>, t: TypeTag, e: E, faults: CollaboratorFaults)
    requires Succeeded(Run(op, factory, t, e, faults))
    ensures var s := Run(op, factory, t, e, faults).effects;
            |s| == 3 &&
            s[0] == ServiceHook(CreateOp, t, e) &&
            s[1].EventRaised? && s[1].event.Op() == op && s[1].event.tag == t && s[1].event.entity == e &&
            s[2].PersisterInvoked? && s[2].call.Op() == op && s[2].call.entity == e
  {
  }

  /** On success the create hook, Eventer and Persister each receive exactly one call. */
  lemma SuccessCallsEachOnce<E>(op: Kind, factory: EntityServiceFactory<E>, t: TypeTag, e: E, faults: CollaboratorFaults, ch: Channel)
    requires Succeeded(Run(op, factory, t, e, faults))
    ensures Count(Run(op, factory, t, e, faults).effects, ch) == 1
  {
    var s := Run(op, factory, t, e, faults).effects;
    assert s == [s[0]] + [s[1]] + [s[2]];
    CountAppend([s[0]] + [s[1]], [s[2]], ch);
    CountAppend([s[0]], [s[1]], ch);
  }

  /** In any dispatch, whatever happens, the event comes before the persister call. */
  lemma EventBeforePersisterCall<E>(op: Kind, factory: EntityServiceFactory<E>, t: TypeTag, e: E, faults: CollaboratorFaults, i: nat, j: nat)
    requires var s := Run(op, factory, t, e, faults).effects;
             i < |s| && j < |s| && s[i].EventRaised? && s[j].PersisterInvoked?
    ensures i < j
  {
  }

  /** Every operation calls the create hook of the resolved service (legacy reuse). */
  lemma OnlyCreateHook<E>(op: Kind, factory: EntityServiceFactory<E>, t: TypeTag, e: E, faults: CollaboratorFaults, i: nat)
    requires var s := Run(op, factory, t, e, faults).effects;
             i < |s| && s[i].ServiceHook?
    ensures Run(op, factory, t, e, faults).effects[i] == ServiceHook(CreateOp, t, e)
  {
  }

  /** Collaborator faults are not caught and nothing is compensated: when Eventer
      throws the hook has run and the event was issued but the persister is never
      called; when Persister throws the event has already gone out, and the trace
      ends with the failed persister call. */
  lemma FaultsPropagate<E>(op: Kind, factory: EntityServiceFactory<E>, t: TypeTag, e: E, faults: CollaboratorFaults)
    requires Accepts(factory, t, e)
    ensures faults.eventerThrows ==>
              Run(op, factory, t, e, faults) ==
              Step(Threw(EventerFault), [ServiceHook(CreateOp, t, e), EventRaised(EventFor(op, t, e))])
    ensures !faults.eventerThrows && faults.persisterThrows ==>
              Run(op, factory, t, e, faults) == Step(Threw(PersisterFault), AcceptedEffects(op, t, e))
  {
  }

  /** When the factory throws (no event service for a default), the exception
      leaves the dispatcher before anything is called. */
  lemma ResolutionFaultHasNoEffect<E>(op: Kind, factory: EntityServiceFactory<E>, t: TypeTag, e: E, faults: CollaboratorFaults)
    requires factory.Create(t).Threw?
    ensures Run(op, factory, t, e, faults) == Step(Threw(ComponentNotRegistered), [])
  {
  }

  /** What one dispatch adds to a trace: on success exactly one create-hook call,
      one event and one persister call, on a rejection or a resolution fault nothing. */
  lemma AppendedCounts<E>(h: seq<Effect<E>>, op: Kind, factory: EntityServiceFactory<E>, t: TypeTag, e: E, faults: CollaboratorFaults, ch: Channel)
    ensures var s := Run(op, factory, t, e, faults);
            Count(h + s.effects, ch) == Count(h, ch) + (if Succeeded(s) then 1 else Count(s.effects, ch))
    ensures var s := Run(op, factory, t, e, faults);
            !Accepts(factory, t, e) ==> Count(h + s.effects, ch) == Count(h, ch)
  {
    var s := Run(op, factory, t, e, faults);
    CountAppend(h, s.effects, ch);
    if Succeeded(s) {
      SuccessCallsEachOnce(op, factory, t, e, faults, ch);
    }
  }

  /** The Commander: its entity-service factory and, as one trace, the calls it
      has issued to entity services, to Eventer and to Persister, oldest first. */
  class Commander<E> {
    var factory: EntityServiceFactory<E>
    var trace: seq<Effect<E>>

    /** Every call in the trace is where a dispatch puts it. */
    ghost predicate Valid()
      reads this
    {
      WellSequenced(trace)
    }

    constructor(factory: EntityServiceFactory<E>)
      ensures Valid()
      ensures this.factory == factory && trace == []
    {
      this.factory := factory;
      trace := [];
    }

    /** GetEntityService<TEntity>: asks the factory afresh on every call. */
    method GetEntityService(t: TypeTag) returns (o: Outcome<EntityService<E>>)
      ensures o == factory.Create(t)
    {
      o := factory.Create(t);
    }

    /** The sequence the three public operations share, for mutation `op`. */
    method Dispatch(op: Kind, t: TypeTag, entity: E, faults: CollaboratorFaults)
      returns (r: Outcome<CommandResult<Command<E>>>)
      requires Valid()
      modifies this`trace
      ensures Valid()
      ensures r == Run(op, factory, t, entity, faults).outcome
      ensures trace == old(trace) + Run(op, factory, t, entity, faults).effects
      ensures r.Normal? && r.value.isSuccess ==> forall ch: Channel :: Count(trace, ch) == Count(old(trace), ch) + 1
      ensures !Accepts(factory, t, entity) ==> trace == old(trace)
    {
      ghost var before := trace;
      ghost var step := Run(op, factory, t, entity, faults);
      var resolved := GetEntityService(t);
      if resolved.Threw? {
        r := Threw(resolved.fault);
      } else {
        var entityService := resolved.value;
        if !entityService.validate(entity) {
          r := Normal(FailedResult());
        } else {
          // The legacy code calls the create hook for every mutation.
          trace := trace + [ServiceHook(CreateOp, t, entity)];
          var command := CommandFor(op, entity);
          trace := trace + [EventRaised(EventFor(op, t, entity))];
          if faults.eventerThrows {
            r := Threw(EventerFault);
          } else {
            trace := trace + [PersisterInvoked(PersisterCallFor(op, entity))];
            if faults.persisterThrows {
              r := Threw(PersisterFault);
            } else {
              r := Normal(SucceededResult(command));
            }
          }
        }
      }
      assert trace == before + step.effects;
      WellSequencedAppend(before, step.effects);
      forall ch: Channel | r.Normal? && r.value.isSuccess
        ensures Count(trace, ch) == Count(before, ch) + 1
      {
        AppendedCounts(before, op, factory, t, entity, faults, ch);
      }
    }

    /** Commander.Create: on success, a Create command for the entity, one Created
        event, then one Persister.Add. */
    method Create(t: TypeTag, entity: E, faults: CollaboratorFaults)
      returns (r: Outcome<CommandResult<Command<E>>>)
      requires Valid()
      modifies this`trace
      ensures Valid()
      ensures r == Run(CreateOp, factory, t, entity, faults).outcome
      ensures trace == old(trace) + Run(CreateOp, factory, t, entity, faults).effects
      ensures r == Normal(SucceededResult(Command.Create(entity))) <==>
                Accepts(factory, t, entity) && faults == NoFaults
      ensures r.Normal? && r.value.isSuccess ==>
                trace == old(trace) + [ServiceHook(CreateOp, t, entity), EventRaised(Created(t, entity)),
                                       PersisterInvoked(Add(entity))]
      ensures r.Normal? && !r.value.isSuccess ==> r.value.command == None && trace == old(trace)
    {
      r := Dispatch(CreateOp, t, entity, faults);
    }

    /** Commander.Update: on success, an Update command for the entity, one Updated
        event, then one Persister.Update; the hook called is still the create hook. */
    method Update(t: TypeTag, entity: E, faults: CollaboratorFaults)
      returns (r: Outcome<CommandResult<Command<E>>>)
      requires Valid()
      modifies this`trace
      ensures Valid()
      ensures r == Run(UpdateOp, factory, t, entity, faults).outcome
      ensures trace == old(trace) + Run(UpdateOp, factory, t, entity, faults).effects
      ensures r == Normal(SucceededResult(Command.Update(entity))) <==>
                Accepts(factory, t, entity) && faults == NoFaults
      ensures r.Normal? && r.value.isSuccess ==>
                trace == old(trace) + [ServiceHook(CreateOp, t, entity), EventRaised(Updated(t, entity)),
                                       PersisterInvoked(PersisterCall.Update(entity))]
      ensures r.Normal? && !r.value.isSuccess ==> r.value.command == None && trace == old(trace)
    {
      r := Dispatch(UpdateOp, t, entity, faults);
    }

    /** Commander.Delete: on success, a Delete command for the entity, one Deleted
        event, then one Persister.Delete; the hook called is still the create hook. */
    method Delete(t: TypeTag, entity: E, faults: CollaboratorFaults)
      returns (r: Outcome<CommandResult<Command<E>>>)
      requires Valid()
      modifies this`trace
      ensures Valid()
      ensures r == Run(DeleteOp, factory, t, entity, faults).outcome
      ensures trace == old(trace) + Run(DeleteOp, factory, t, entity, faults).effects
      ensures r == Normal(SucceededResult(Command.Delete(entity))) <==>
                Accepts(factory, t, entity) && faults == NoFaults
      ensures r.Normal? && r.value.isSuccess ==>
                trace == old(trace) + [ServiceHook(CreateOp, t, entity), EventRaised(Deleted(t, entity)),
                                       PersisterInvoked(PersisterCall.Delete(entity))]
      ensures r.Normal? && !r.value.isSuccess ==> r.value.command == None && trace == old(trace)
    {
      r := Dispatch(DeleteOp, t, entity, faults);
    }
  }

  /** The Widget scenarios: a registered service that rejects id 0, a successful
      Create, a rejected Create, and a Create whose persister call throws after
      the event has gone out. */
  method WidgetScenarios()
  {
    var widget := TypeTag("Widget");
    var rules: EntityService<nat> := EntityService((id: nat) => id != 0, None);
    var factory: EntityServiceFactory<nat> := EntityServiceFactory(Container(map[widget := rules], None), (_: TypeTag) => (_: nat) => true);
    var commander := new Commander<nat>(factory);

    var r := commander.Create(widget, 1, NoFaults);
    assert r == Normal(CommandResult(true, Some(Command.Create(1))));
    assert commander.trace == [ServiceHook(CreateOp, widget, 1), EventRaised(Created(widget, 1)), PersisterInvoked(Add(1))];

    r := commander.Create(widget, 0, NoFaults);
    assert r == Normal(CommandResult(false, None));
    assert |commander.trace| == 3;

    r := commander.Create(widget, 2, CollaboratorFaults(false, true));
    assert r == Threw(PersisterFault);
    assert commander.trace[4] == EventRaised(Created(widget, 2));
    assert |commander.trace| == 6;

    var other := TypeTag("Gadget");
    r := commander.Update(other, 3, NoFaults);
    assert r == Threw(ComponentNotRegistered);
    assert |commander.trace| == 6;
  }
}
