/** The value types the dispatcher hands back to its callers: a command that wraps
    the entity it was built for (one constructor per subclass Create, Update and
    Delete of Command<TEntity>) and the CommandResult that pairs IsSuccess with
    an optional command. */
module Commands {

  /** A value that may be absent; stands for a C# reference that may be null. */
  datatype Option<+T> = None | Some(value: T)

  /** The three mutations the dispatcher offers. */
  datatype Kind = CreateOp | UpdateOp | DeleteOp

  /** Command<TEntity>: the constructor names the subclass, the field is Entity. */
  datatype Command<E> = Create(entity: E) | Update(entity: E) | Delete(entity: E)
  {
    /** The mutation this command records. */
    function Op(): Kind
    {
      match this
      case Create(_) => CreateOp
      case Update(_) => UpdateOp
      case Delete(_) => DeleteOp
    }
  }

  /** The command built for mutation `op` of entity `e`: `new Create<TEntity>(entity)`
      and its two siblings. Its kind and its entity give the inputs back. */
  function CommandFor<E>(op: Kind, e: E): (c: Command<E>)
    ensures c.Op() == op && c.entity == e
  {
    match op
    case CreateOp => Create(e)
    case UpdateOp => Update(e)
    case DeleteOp => Delete(e)
  }

  /** Two commands built for different mutations or different entities differ. */
  lemma CommandForInjective<E>(op1: Kind, e1: E, op2: Kind, e2: E)
    ensures CommandFor(op1, e1) == CommandFor(op2, e2) <==> op1 == op2 && e1 == e2
  {
  }

  /** CommandResult<TCommand>: IsSuccess and a Command that may be null. */
  datatype CommandResult<C> = CommandResult(isSuccess: bool, command: Option<C>)
  {
    /** The results the dispatcher builds report success exactly when they hold a command. */
    predicate Consistent()
    {
      isSuccess <==> command.Some?
    }
  }

  /** `new CommandResult<...>(null) { IsSuccess = false }`: the rejected outcome. */
  function FailedResult<C>(): (r: CommandResult<C>)
    ensures r.Consistent() && !r.isSuccess
  {
    CommandResult(false, None)
  }

  /** `new CommandResult<...>(command) { IsSuccess = true }`: the accepted outcome. */
  function SucceededResult<C>(c: C): (r: CommandResult<C>)
    ensures r.Consistent() && r.isSuccess && r.command == Some(c)
  {
    CommandResult(true, Some(c))
  }
}
