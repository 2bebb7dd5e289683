/** How an operation of the core ends: it returns a value, or an exception raised
    by a collaborator propagates out of it unchanged (the core catches nothing). */
module Outcomes {

  /** The exceptions that can leave the core. */
  datatype Fault =
    | ComponentNotRegistered  // the container has no IEventService to wire into a default service
    | EventerFault            // Eventer.Raise threw
    | PersisterFault          // Persister.Add, Update or Delete threw

  datatype Outcome<+T> = Normal(value: T) | Threw(fault: Fault)
}
