/** Per-type business rules and their resolution: EntityServiceFactory.Create<T>
    looks a service up in the container and falls back to a fresh default
    EntityService<T> wired to the container's event service. */
module EntityServices {
  import opened Commands
  import opened Outcomes

  /** The identity of an entity type, standing for the generic argument TEntity. */
  datatype TypeTag = TypeTag(name: string)

  /** The identity of the IEventService instance the container hands out. */
  datatype EventService = EventService(id: nat)

  /** An entity service: its Validate rule and its EventService property. What
      its Create hook does is external; the dispatcher records each call to it. */
  datatype EntityService<!E> = EntityService(validate: E -> bool, eventService: Option<EventService>)

  /** The part of the container the factory uses: the services registered as
      EntityService<T> per type (TryResolve) and the registered IEventService
      (Resolve<IEventService>), if any. */
  datatype Container<!E> = Container(registered: map<TypeTag, EntityService<E>>, eventService: Option<EventService>)

  /** The factory over its container. `defaultValidate(t)` is the Validate rule of
      a default EntityService<T>, whose code is not part of this model. */
  datatype EntityServiceFactory<!E> = EntityServiceFactory(container: Container<E>, defaultValidate: TypeTag -> E -> bool)
  {
    /** EntityServiceFactory.Create<T>: the registered service when there is one;
        otherwise a new default service wired with the container's event service,
        which throws when no event service is registered. */
    function Create(t: TypeTag): (r: Outcome<EntityService<E>>)
      ensures t in container.registered ==> r == Normal(container.registered[t])
      ensures r.Normal? <==> t in container.registered || container.eventService.Some?
      ensures r.Threw? ==> r.fault == ComponentNotRegistered
      ensures r.Normal? && t !in container.registered ==>
                r.value.eventService == container.eventService && r.value.validate == defaultValidate(t)
    {
      if t in container.registered then
        Normal(container.registered[t])
      else if container.eventService.None? then
        Threw(ComponentNotRegistered)
      else
        Normal(EntityService(defaultValidate(t), container.eventService))
    }
  }

  /** Registering a service for one type makes the factory return it for that type
      and leaves the resolution of every other type as it was. */
  lemma RegistrationOverridesDefault<E>(f: EntityServiceFactory<E>, t: TypeTag, s: EntityService<E>, u: TypeTag)
    ensures var g := f.(container := f.container.(registered := f.container.registered[t := s]));
            g.Create(t) == Normal(s) && (u != t ==> g.Create(u) == f.Create(u))
  {
  }

  /** Resolving the same unregistered type through two factories over the same
      event service and default rules gives services that behave alike. */
  lemma DefaultsAgree<E>(f: EntityServiceFactory<E>, g: EntityServiceFactory<E>, t: TypeTag, e: E)
    requires t !in f.container.registered && t !in g.container.registered
    requires f.container.eventService == g.container.eventService && f.container.eventService.Some?
    requires f.defaultValidate(t) == g.defaultValidate(t)
    ensures f.Create(t).Normal? && g.Create(t).Normal?
    ensures f.Create(t).value.validate(e) == g.Create(t).value.validate(e)
    ensures f.Create(t).value.eventService == g.Create(t).value.eventService
  {
  }
}
