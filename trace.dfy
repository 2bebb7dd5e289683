/** The calls the dispatcher issues to its collaborators, as one trace: hooks on
    the resolved entity service, persistence events raised through Eventer, and
    operations on Persister. Counting and ordering facts about such traces. */
module Trace {
  import opened Commands
  import opened EntityServices

  /** The persistence events Created<TEntity>, Updated<TEntity> and Deleted<TEntity>. */
  datatype PersistenceEvent<E> =
    | Created(tag: TypeTag, entity: E)
    | Updated(tag: TypeTag, entity: E)
    | Deleted(tag: TypeTag, entity: E)
  {
    function Op(): Kind
    {
      match this
      case Created(_, _) => CreateOp
      case Updated(_, _) => UpdateOp
      case Deleted(_, _) => DeleteOp
    }
  }

  /** The event raised for mutation `op` of entity `e` of type `t`. */
  function EventFor<E>(op: Kind, t: TypeTag, e: E): (ev: PersistenceEvent<E>)
    ensures ev.Op() == op && ev.tag == t && ev.entity == e
  {
    match op
    case CreateOp => Created(t, e)
    case UpdateOp => Updated(t, e)
    case DeleteOp => Deleted(t, e)
  }

  /** The operations of IPersister; they take the entity without its type. */
  datatype PersisterCall<E> = Add(entity: E) | Update(entity: E) | Delete(entity: E)
  {
    function Op(): Kind
    {
      match this
      case Add(_) => CreateOp
      case Update(_) => UpdateOp
      case Delete(_) => DeleteOp
    }
  }

  /** The persister operation that carries out mutation `op` of `e`. */
  function PersisterCallFor<E>(op: Kind, e: E): (c: PersisterCall<E>)
    ensures c.Op() == op && c.entity == e
  {
    match op
    case CreateOp => Add(e)
    case UpdateOp => PersisterCall.Update(e)
    case DeleteOp => PersisterCall.Delete(e)
  }

  /** The collaborator a recorded call goes to: the create hook of the resolved
      entity service, Eventer, or Persister. Validate calls are not recorded. */
  datatype Channel = HookChannel | EventerChannel | PersisterChannel

  /** One call issued by the dispatcher. `ServiceHook(h, t, e)` is a call of the
      hook for mutation `h` on the entity service resolved for `t`. */
  datatype Effect<E> =
    | ServiceHook(hook: Kind, tag: TypeTag, entity: E)
    | EventRaised(event: PersistenceEvent<E>)
    | PersisterInvoked(call: PersisterCall<E>)
  {
    function Channel(): Channel
    {
      match this
      case ServiceHook(_, _, _) => HookChannel
      case EventRaised(_) => EventerChannel
      case PersisterInvoked(_) => PersisterChannel
    }
  }

  /** The number of calls in `s` that went to collaborator `ch`. */
  function Count<E>(s: seq<Effect<E>>, ch: Channel): (n: nat)
    ensures n <= |s|
    ensures n == 0 <==> forall i | 0 <= i < |s| :: s[i].Channel() != ch
  {
    if s == [] then 0 else (if s[0].Channel() == ch then 1 else 0) + Count(s[1..], ch)
  }

  /** Counting distributes over appending traces. */
  lemma {:induction false} CountAppend<E>(a: seq<Effect<E>>, b: seq<Effect<E>>, ch: Channel)
    ensures Count(a + b, ch) == Count(a, ch) + Count(b, ch)
  {
    if a == [] {
      assert a + b == b;
    } else {
      assert (a + b)[1..] == a[1..] + b;
      CountAppend(a[1..], b, ch);
    }
  }

  /** The one call of `s` at position `j` is where the dispatcher puts it: an event
      comes right after the create hook on the same entity and type, a hook call is
      followed by the event for its entity, and a persister call comes right after
      the event of the same mutation on the same entity. */
  ghost predicate SequencedAt<E>(s: seq<Effect<E>>, j: int)
    requires 0 <= j < |s|
  {
    match s[j]
    case ServiceHook(_, t, e) =>
      j + 1 < |s| && s[j + 1].EventRaised? && s[j + 1].event.tag == t && s[j + 1].event.entity == e
    case EventRaised(ev) =>
      1 <= j && s[j - 1] == ServiceHook(CreateOp, ev.tag, ev.entity)
    case PersisterInvoked(c) =>
      1 <= j && s[j - 1].EventRaised? && s[j - 1].event.Op() == c.Op() && s[j - 1].event.entity == c.entity
  }

  /** Every call of `s` is where the dispatcher puts it. */
  ghost predicate WellSequenced<E>(s: seq<Effect<E>>)
  {
    forall j | 0 <= j < |s| :: SequencedAt(s, j)
  }

  /** Two well-sequenced traces one after the other form a well-sequenced trace. */
  lemma WellSequencedAppend<E>(a: seq<Effect<E>>, b: seq<Effect<E>>)
    requires WellSequenced(a) && WellSequenced(b)
    ensures WellSequenced(a + b)
  {
    var s := a + b;
    forall j | 0 <= j < |s|
      ensures SequencedAt(s, j)
    {
      if j < |a| {
        assert SequencedAt(a, j);
        assert s[j] == a[j];
        if j + 1 < |a| { assert s[j + 1] == a[j + 1]; }
        if 1 <= j { assert s[j - 1] == a[j - 1]; }
      } else {
        var k := j - |a|;
        assert SequencedAt(b, k);
        assert s[j] == b[k];
        if k + 1 < |b| { assert s[j + 1] == b[k + 1]; }
        if 1 <= k { assert s[j - 1] == b[k - 1]; }
      }
    }
  }

  /** In a well-sequenced trace every persister call has the matching event
      immediately before it, so no store operation ever goes out unannounced. */
  lemma PersisterCallsAreAnnounced<E>(s: seq<Effect<E>>, j: int)
    requires WellSequenced(s) && 0 <= j < |s| && s[j].PersisterInvoked?
    ensures 2 <= j && s[j - 1].EventRaised?
    ensures s[j - 1] == EventRaised(EventFor(s[j].call.Op(), s[j - 1].event.tag, s[j].call.entity))
    ensures s[j - 2] == ServiceHook(CreateOp, s[j - 1].event.tag, s[j].call.entity)
  {
    assert SequencedAt(s, j);
    assert SequencedAt(s, j - 1);
    var ev := s[j - 1].event;
    assert ev == EventFor(ev.Op(), ev.tag, ev.entity) by {
      match ev
      case Created(_, _) =>
      case Updated(_, _) =>
      case Deleted(_, _) =>
    }
  }
}
