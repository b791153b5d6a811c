/** The application layer: sequences of port calls, proved equal to the functions of DispatchModel. */
module UseCases {
  import opened Wrappers
  import opened Domain
  import opened ValueObjects
  import opened AssignmentModel
  import opened Aggregate
  import opened PoolModel
  import opened DriverPool
  import opened RepositoryModel
  import D = DispatchModel
  import opened Adapters

  lemma KeptByStep(t: Tables, m: map<OrderId, AssignmentProps>, next: AttemptId, o: OrderId, op: Operation)
    requires Represents(t, m) && D.WellKept(m, next)
    requires MayWrite(m, Step(o, op)) && (op.Offer? ==> op.id < next)
    ensures var q := m[o].After(op);
      && Represents(RepositoryModel.Save(t, q), m[o := q])
      && Contents(RepositoryModel.Save(t, q)) == m[o := q]
      && D.WellKept(m[o := q], next)
  {
    hide Represents, RepositoryModel.Save, Contents, AllDistinctIds;
    SavedStep(t, m, o, op);
    IdsAfter(m[o], op);
  }

  lemma KeptByCreate(t: Tables, m: map<OrderId, AssignmentProps>, next: AttemptId, p: AssignmentProps)
    requires Represents(t, m) && D.WellKept(m, next) && MayWrite(m, Create(p))
    ensures Represents(RepositoryModel.Save(t, p), m[p.orderId := p])
    ensures Contents(RepositoryModel.Save(t, p)) == m[p.orderId := p]
    ensures D.WellKept(m[p.orderId := p], next)
  {
    hide Represents, RepositoryModel.Save, Contents, AllDistinctIds, Storable;
    CreateIsStorable(m, p);
    SaveRefines(t, m, p);
    ContentsIsRepresented(RepositoryModel.Save(t, p), m[p.orderId := p]);
  }

  lemma NewMayBeWritten(m: map<OrderId, AssignmentProps>, p: AssignmentProps)
    requires IsNew(p) && (p.orderId in m ==> m[p.orderId].attempts == [])
    ensures MayWrite(m, Create(p))
  {
  }

  lemma KeptByRewrite(t: Tables, m: map<OrderId, AssignmentProps>, next: AttemptId, o: OrderId)
    requires Represents(t, m) && D.WellKept(m, next) && o in m
    ensures Represents(RepositoryModel.Save(t, m[o]), m) && Contents(RepositoryModel.Save(t, m[o])) == m
  {
    hide Represents, RepositoryModel.Save, Contents;
    SaveRefines(t, m, m[o]);
    assert m[o := m[o]] == m;
    ContentsIsRepresented(RepositoryModel.Save(t, m[o]), m);
  }

  /** Nothing stored is malformed, so the query for parked orders answers with the page the model lists. */
  lemma ListedParked(t: Tables, m: map<OrderId, AssignmentProps>, limit: nat, r: Result<seq<Assignment>, DomainError>)
    requires Represents(t, m)
    requires match r
             case Success(list) => OldestPage(t.assignments, limit, OrderIds(list))
             case Failure(e) =>
               exists page, o :: OldestPage(t.assignments, limit, page) && o in page && ById(t, o) == Failure(e)
    ensures r.Success? && OrderIds(r.value) == AwaitingOldestFirst(Parked(m), limit)
  {
    hide RepositoryModel.ById;
    AwaitingRowsAreParked(t, m);
    if r.Success? {
      OldestPageIsUnique(t, limit, OrderIds(r.value));
    }
  }

  lemma NextIdIsFresh(m: map<OrderId, AssignmentProps>, next: AttemptId)
    requires D.WellKept(m, next)
    ensures FreshId(m, next) && D.WellKept(m, next + 1)
  {
  }

  /** The composition root: one of each adapter, shared by every use case. */
  class Ports {
    const env: D.Env
    const assignments: PrismaAssignmentRepository
    const pool: RedisDriverPool
    const processed: PrismaProcessedEventRepository
    const scheduler: RabbitMqOfferScheduler
    const publisher: RabbitMqEventPublisher
    const clock: SystemClock
    const ids: AttemptIds

    ghost function Repr(): set<object> {
      {assignments, pool, processed, scheduler, publisher, clock, ids}
    }

    function State(): D.State
      reads Repr()
    {
      D.State(Contents(assignments.Stored()), pool.Contents(), processed.seen, scheduler.holding,
              publisher.published, clock.ticks, ids.next)
    }

    ghost predicate Valid()
      reads Repr()
    {
      && clock.readings == env.clock
      && Represents(assignments.Stored(), State().orders)
      && D.WellKept(State().orders, ids.next)
    }

    constructor (env: D.Env)
      ensures Valid() && State() == D.START && this.env == env && fresh(Repr())
    {
      this.env := env;
      assignments := new PrismaAssignmentRepository();
      pool := new RedisDriverPool();
      processed := new PrismaProcessedEventRepository();
      scheduler := new RabbitMqOfferScheduler();
      publisher := new RabbitMqEventPublisher();
      clock := new SystemClock(env.clock);
      ids := new AttemptIds();
    }

    method Now() returns (t: Time)
      requires Valid()
      modifies Repr()
      ensures Valid() && t == old(State()).Now(env) && State() == old(State()).Ticked()
    {
      t := clock.Now();
    }

    method NewAttemptId() returns (id: AttemptId)
      requires Valid()
      modifies Repr()
      ensures Valid() && FreshId(State().orders, id) && id < ids.next
      ensures id == old(State()).nextAttemptId && State() == old(State()).(nextAttemptId := id + 1)
    {
      NextIdIsFresh(State().orders, ids.next);
      id := ids.NewId();
    }

    /** What a new offer is made with: the time, and an id nobody has. */
    method Stamp() returns (now: Time, id: AttemptId)
      requires Valid()
      modifies Repr()
      ensures Valid() && FreshId(State().orders, id) && id < ids.next
      ensures var s := old(State());
        now == s.Now(env) && id == s.nextAttemptId && State() == s.Ticked().(nextAttemptId := id + 1)
    {
      now := Now();
      id := NewAttemptId();
    }

    method RecordIfNew(e: EventId) returns (isNew: bool)
      requires Valid()
      modifies Repr()
      ensures Valid() && (isNew <==> e !in old(State()).processed)
      ensures State() == if isNew then old(State()).(processed := old(State()).processed + {e}) else old(State())
    {
      isNew := processed.RecordIfNew(e);
      assert !isNew ==> processed.seen == old(processed.seen);
    }

    method MarkBusy(d: DriverId)
      requires Valid()
      modifies Repr()
      ensures Valid() && State() == old(State()).(pool := old(State()).pool.MarkBusy(d))
    {
      pool.MarkBusy(d);
    }

    method Schedule(o: OrderId, attemptNo: nat)
      requires Valid()
      modifies Repr()
      ensures Valid() && State() == old(State()).(timers := old(State()).timers + multiset{D.Timer(o, attemptNo)})
    {
      scheduler.ScheduleExpiry(o, attemptNo);
    }

    /** Drain the aggregate's buffer into the publisher. */
    method PublishPulled(a: Assignment)
      requires Valid() && a !in Repr()
      modifies a`events, Repr()
      ensures Valid() && State() == old(State()).(log := old(State()).log + old(a.events))
    {
      var events := a.PullEvents();
      publisher.PublishAll(events);
    }

    /** The pool stamps a freed driver with its own reading of the time. */
    method FreeNow(d: DriverId)
      requires Valid()
      modifies Repr()
      ensures Valid() && State() == old(State()).Freed(env, d)
    {
      var t := clock.Now();
      pool.FreeDriver(d, t);
    }

    /** Load an order: what the tables hold for it, as a new object. */
    method Load(o: OrderId) returns (a: Assignment?)
      requires Valid()
      ensures a == null <==> o !in State().orders
      ensures a != null ==>
        fresh(a) && a !in Repr() && a.orderId == o && a.Props() == State().orders[o] && a.events == []
    {
      hide RepositoryModel.ById, D.WellKept;
      var found := assignments.ById(o);
      assert o in State().orders ==> RepositoryModel.ById(assignments.Stored(), o) == Success(Some(State().orders[o]));
      assert found.Success?;
      if found.value == None {
        return null;
      }
      a := found.value.value;
    }

    /** Save a fresh assignment, over whatever the tables hold for its order. */
    method SaveNew(p: AssignmentProps)
      requires Valid() && IsNew(p)
      modifies assignments
      ensures assignments.Stored() == RepositoryModel.Save(old(assignments.Stored()), p)
      ensures (p.orderId in old(State()).orders ==> old(State()).orders[p.orderId].attempts == []) ==>
        Valid() && State() == old(State()).Put(p.orderId, p)
    {
      hide Represents, Contents, RepositoryModel.Save, D.WellKept;
      if p.orderId in State().orders ==> State().orders[p.orderId].attempts == [] {
        NewMayBeWritten(State().orders, p);
        KeptByCreate(assignments.Stored(), State().orders, ids.next, p);
      }
      var a := new Assignment.FromPersistence(p);
      assignments.Save(a);
    }

    /** Save an order that was loaded and then given one operation, whether or not it took effect. */
    method SaveStep(a: Assignment, ghost op: Operation)
      requires Valid() && a !in Repr() && a.orderId in State().orders
      requires IsStep(State().orders[a.orderId], op, a.Props())
      requires op.Offer? ==>
        && op.driverId !in State().orders[a.orderId].TriedDriverIds()
        && FreshId(State().orders, op.id) && op.id < ids.next
      modifies Repr()
      ensures Valid() && State() == old(State()).Put(a.orderId, a.Props())
    {
      hide Represents, Contents, RepositoryModel.Save, D.WellKept, AssignmentProps.After, AssignmentProps.Allows;
      if State().orders[a.orderId].Allows(op) {
        KeptByStep(assignments.Stored(), State().orders, ids.next, a.orderId, op);
      } else {
        KeptByRewrite(assignments.Stored(), State().orders, ids.next, a.orderId);
      }
      assignments.Save(a);
    }
  }

  class DispatchOrderUseCase {
    const ports: Ports

    constructor (ports: Ports)
      ensures this.ports == ports
    {
      this.ports := ports;
    }

    method Attempt(o: OrderId)
      requires ports.Valid()
      modifies ports.Repr()
      ensures ports.Valid() && ports.State() == D.Attempt(ports.env, old(ports.State()), o)
    {
      hide Represents, Contents, D.WellKept, D.MakeOffer;
      var a := ports.Load(o);
      if a == null || a.status != AwaitingDriver {
        return;
      }
      var claimed := ports.pool.ClaimNext(a.Props().TriedDriverIds());
      ClaimedIsEligible(old(ports.State()).pool, a.Props().TriedDriverIds());
      if claimed == None {
        return;
      }
      MakeOffer(a, claimed.value);
    }

    method MakeOffer(a: Assignment, d: DriverId)
      requires ports.Valid() && a !in ports.Repr() && ports.State().IsParked(a.orderId)
      requires a.Props() == ports.State().orders[a.orderId] && d !in a.Props().TriedDriverIds()
      modifies ports.Repr(), a
      ensures ports.Valid() && ports.State() == D.MakeOffer(ports.env, old(ports.State()), a.orderId, d)
    {
      hide Ports.Valid, Ports.State, AssignmentProps.After, AssignmentProps.EventsOf, FreshId,
        AssignmentProps.TriedDriverIds;
      ghost var p := a.Props();
      assert p.status == AwaitingDriver;
      hide D.State.IsParked;
      ghost var s := ports.State();
      var now, id := ports.Stamp();
      var expiresAt := now + ports.env.ttlSeconds * 1000;
      ghost var op := Offer(id, d, now, expiresAt);
      Offering(a, id, d, now, expiresAt);
      assert ports.State().orders == s.orders;
      hide AssignmentProps.Allows;
      SaveOffer(a, op);
    }

    /** The aggregate accepts the offer, because it is parked. */
    method Offering(a: Assignment, id: AttemptId, d: DriverId, now: Time, expiresAt: Time)
      requires a.status == AwaitingDriver
      modifies a
      ensures var p, op := old(a.Props()), Offer(id, d, now, expiresAt);
        p.Allows(op) && a.Props() == p.After(op) && a.offerAttempts == p.offerAttempts + 1
    {
      var r := a.OfferTo(id, d, now, expiresAt);
    }

    /** Store the offer just made, then schedule its expiry. */
    method SaveOffer(a: Assignment, ghost op: Operation)
      requires ports.Valid() && a !in ports.Repr() && a.orderId in ports.State().orders && op.Offer?
      requires var p := ports.State().orders[a.orderId];
        p.Allows(op) && op.driverId !in p.TriedDriverIds() && a.Props() == p.After(op)
      requires FreshId(ports.State().orders, op.id) && op.id < ports.ids.next
      modifies ports.Repr()
      ensures ports.Valid()
      ensures var s := old(ports.State());
        ports.State()
          == s.Put(a.orderId, a.Props()).(timers := s.timers + multiset{D.Timer(a.orderId, a.offerAttempts)})
    {
      hide Ports.Valid, Ports.State, FreshId, AssignmentProps.TriedDriverIds;
      ports.SaveStep(a, op);
      ports.Schedule(a.orderId, a.attempts[|a.attempts| - 1].attemptNo);
    }

    /** Called after an offer is declined: fail if exhausted, else try the next driver. */
    method FailOrRetry(o: OrderId)
      requires ports.Valid()
      modifies ports.Repr()
      ensures ports.Valid() && ports.State() == D.FailOrRetry(ports.env, old(ports.State()), o)
    {
      hide Ports.Valid, Ports.State, D.Attempt, AssignmentProps.After;
      var a := ports.Load(o);
      if a == null || a.status != AwaitingDriver {
        return;
      }
      if a.offerAttempts >= ports.env.maxAttempts {
        Fail(a);
      } else {
        Attempt(o);
      }
    }

    method Fail(a: Assignment)
      requires ports.Valid() && a !in ports.Repr() && ports.State().IsParked(a.orderId)
      requires a.Props() == ports.State().orders[a.orderId] && a.events == []
      requires a.offerAttempts >= ports.env.maxAttempts
      modifies ports.Repr(), a
      ensures ports.Valid() && ports.State() == D.FailOrRetry(ports.env, old(ports.State()), a.orderId)
    {
      hide Ports.Valid, Ports.State, AssignmentProps.After;
      var now := ports.Now();
      var r := a.MarkFailed(now);
      ports.SaveStep(a, Operation.Fail(now));
      ports.PublishPulled(a);
    }

    method RetryParked()
      requires ports.Valid()
      modifies ports.Repr()
      ensures ports.Valid() && ports.State() == D.RetryParked(ports.env, old(ports.State()))
    {
      hide Represents, Contents, D.WellKept, D.Attempt, OldestPage, RepositoryModel.ById;
      ghost var s := ports.State();
      var r := ports.assignments.AwaitingDriverOldestFirst(D.RETRY_LIMIT);
      ListedParked(ports.assignments.Stored(), s.orders, D.RETRY_LIMIT, r);
      var parked := r.value;
      ghost var list := OrderIds(parked);
      assert list == D.RetryList(s);
      for i := 0 to |parked|
        invariant ports.Valid()
        invariant D.RetryEach(ports.env, ports.State(), list[i..]) == D.RetryParked(ports.env, s)
      {
        Attempt(parked[i].orderId);
        assert list[i..][1..] == list[i + 1..];
      }
    }
  }

  class HandleOrderCreatedUseCase {
    const ports: Ports
    const dispatch: DispatchOrderUseCase

    constructor (ports: Ports, dispatch: DispatchOrderUseCase)
      ensures this.ports == ports && this.dispatch == dispatch
    {
      this.ports, this.dispatch := ports, dispatch;
    }

    /**
      The transaction, for any message: a new valid one is recorded and its fresh assignment saved over
      whatever is stored; a repeat or an invalid one leaves no trace.
     */
    method InTransaction(e: EventId, msg: D.OrderCreatedMessage, now: Time) returns (r: Result<bool, DomainError>)
      requires ports.Valid()
      modifies ports.Repr()
      ensures r == if e in old(ports.processed.seen) then Success(false) else
                   match D.Build(msg, now) case Failure(err) => Failure(err) case Success(_) => Success(true)
      ensures ports.State() == old(ports.State()).(orders := ports.State().orders, processed := ports.processed.seen)
      ensures r == Success(true) ==>
        && ports.processed.seen == old(ports.processed.seen) + {e}
        && ports.assignments.Stored()
             == RepositoryModel.Save(old(ports.assignments.Stored()), D.Build(msg, now).value)
      ensures r != Success(true) ==> ports.State() == old(ports.State()) && ports.Valid()
      ensures var s := old(ports.State());
        r == Success(true) && (msg.orderId in s.orders ==> s.orders[msg.orderId].attempts == []) ==>
          ports.Valid() && ports.State().orders == s.orders[msg.orderId := D.Build(msg, now).value]
    {
      hide Represents, Contents, D.WellKept, D.Build, RepositoryModel.Save;
      var snapshot := ports.processed.seen;
      var isNew := ports.processed.RecordIfNew(e);
      if !isNew {
        assert ports.processed.seen == snapshot;
        return Success(false);
      }
      var built := D.Build(msg, now);
      if built.Failure? {
        ports.processed.Rollback(snapshot);
        return Failure(built.error);
      }
      D.BuiltIsNew(msg, now);
      ports.SaveNew(built.value);
      return Success(true);
    }

    method Execute(e: EventId, msg: D.OrderCreatedMessage) returns (r: D.Reply)
      requires ports.Valid() && dispatch.ports == ports
      requires D.KeepsMap(ports.env, ports.State(), D.OrderCreated(e, msg))
      modifies ports.Repr()
      ensures ports.Valid()
      ensures D.Handled(ports.State(), r) == D.HandleOrderCreated(ports.env, old(ports.State()), e, msg)
    {
      hide Represents, Contents, D.WellKept, D.Attempt, D.Build, RepositoryModel.Save;
      var now := ports.Now();
      var created := InTransaction(e, msg, now);
      if created.Failure? {
        return Failure(created.error);
      }
      if created.value {
        dispatch.Attempt(msg.orderId);
      }
      return Success(());
    }
  }

  class AcceptOfferUseCase {
    const ports: Ports

    constructor (ports: Ports)
      ensures this.ports == ports
    {
      this.ports := ports;
    }

    method Execute(o: OrderId, d: DriverId) returns (r: D.Reply)
      requires ports.Valid()
      modifies ports.Repr()
      ensures ports.Valid()
      ensures D.Handled(ports.State(), r) == D.AcceptOffer(ports.env, old(ports.State()), o, d)
    {
      hide Ports.Valid, Ports.State, AssignmentProps.After;
      var a := ports.Load(o);
      if a == null {
        return Failure(AssignmentNotFound);
      }
      var now := ports.Now();
      r := a.Accept(d, now);
      if r.Failure? {
        return;
      }
      ports.SaveStep(a, Accept(d, now));
      ports.PublishPulled(a);
    }
  }

  class RejectOfferUseCase {
    const ports: Ports
    const dispatch: DispatchOrderUseCase

    constructor (ports: Ports, dispatch: DispatchOrderUseCase)
      ensures this.ports == ports && this.dispatch == dispatch
    {
      this.ports, this.dispatch := ports, dispatch;
    }

    method Execute(o: OrderId, d: DriverId) returns (r: D.Reply)
      requires ports.Valid() && dispatch.ports == ports
      modifies ports.Repr()
      ensures ports.Valid()
      ensures D.Handled(ports.State(), r) == D.RejectOffer(ports.env, old(ports.State()), o, d)
    {
      hide Ports.Valid, Ports.State, D.FailOrRetry, AssignmentProps.After;
      var a := ports.Load(o);
      if a == null {
        return Failure(AssignmentNotFound);
      }
      var now := ports.Now();
      r := a.RejectByDriver(d, now);
      if r.Failure? {
        return;
      }
      ports.SaveStep(a, Reject(d, now));
      ports.FreeNow(d);
      dispatch.FailOrRetry(o);
    }
  }

  class ExpireOfferUseCase {
    const ports: Ports
    const dispatch: DispatchOrderUseCase

    constructor (ports: Ports, dispatch: DispatchOrderUseCase)
      ensures this.ports == ports && this.dispatch == dispatch
    {
      this.ports, this.dispatch := ports, dispatch;
    }

    method Execute(o: OrderId, attemptNo: nat)
      requires ports.Valid() && dispatch.ports == ports
      modifies ports.Repr()
      ensures ports.Valid()
      ensures ports.State() == D.ExpireOffer(ports.env, old(ports.State()), o, attemptNo)
    {
      hide Ports.Valid, Ports.State, D.FailOrRetry, AssignmentProps.After;
      var a := ports.Load(o);
      if a == null {
        return;
      }
      var driver := a.Props().CurrentAttempt();
      var now := ports.Now();
      var expired := a.ExpireOffer(attemptNo, now);
      if !expired {
        return;
      }
      ports.SaveStep(a, Expire(attemptNo, now));
      if driver.Some? {
        ports.FreeNow(driver.value.driverId);
      }
      dispatch.FailOrRetry(o);
    }

    /** The consumer's side of an expiry message: run the use case, then acknowledge. */
    method Deliver(t: D.Timer, ack: bool)
      requires ports.Valid() && dispatch.ports == ports
      modifies ports.Repr()
      ensures ports.Valid()
      ensures ports.State() == D.DeliverExpiry(ports.env, old(ports.State()), t, ack)
    {
      hide Represents, Contents, D.WellKept, D.ExpireOffer;
      Execute(t.orderId, t.attemptNo);
      if ack {
        ports.scheduler.Acknowledge(t);
      }
    }
  }

  class CancelOrderUseCase {
    const ports: Ports
    const dispatch: DispatchOrderUseCase

    constructor (ports: Ports, dispatch: DispatchOrderUseCase)
      ensures this.ports == ports && this.dispatch == dispatch
    {
      this.ports, this.dispatch := ports, dispatch;
    }

    method InTransaction(e: EventId, o: OrderId) returns (freed: Option<DriverId>)
      requires ports.Valid()
      modifies ports.Repr()
      ensures ports.Valid()
      ensures (ports.State(), freed) == D.CancelInTransaction(ports.env, old(ports.State()), e, o)
    {
      hide Ports.Valid, Ports.State, AssignmentProps.After;
      var now := ports.Now();
      var isNew := ports.RecordIfNew(e);
      if !isNew {
        return None;
      }
      var a := ports.Load(o);
      if a == null {
        return None;
      }
      freed := CancelAndSave(a, now);
    }

    method CancelAndSave(a: Assignment, now: Time) returns (freed: Option<DriverId>)
      requires ports.Valid() && a !in ports.Repr() && a.orderId in ports.State().orders
      requires a.Props() == ports.State().orders[a.orderId]
      modifies a, ports.Repr()
      ensures ports.Valid()
      ensures var s, p, op := old(ports.State()), old(a.Props()), Operation.Cancel(now);
        if p.Allows(op) then ports.State() == s.Put(p.orderId, p.After(op)) && freed == p.Holder()
        else ports.State() == s && freed == None
    {
      hide Ports.Valid, Ports.State, AssignmentProps.After, AssignmentProps.EventsOf;
      ghost var m := ports.State().orders;
      assert m[a.orderId := m[a.orderId]] == m;
      freed := a.Cancel(now);
      ports.SaveStep(a, Operation.Cancel(now));
    }

    method Execute(e: EventId, o: OrderId)
      requires ports.Valid() && dispatch.ports == ports
      modifies ports.Repr()
      ensures ports.Valid()
      ensures ports.State() == D.CancelOrder(ports.env, old(ports.State()), e, o)
    {
      hide Represents, Contents, D.WellKept, D.CancelInTransaction, D.RetryParked;
      var freed := InTransaction(e, o);
      if freed.Some? {
        ports.FreeNow(freed.value);
      }
      dispatch.RetryParked();
    }
  }

  class CompleteDeliveryUseCase {
    const ports: Ports
    const dispatch: DispatchOrderUseCase

    constructor (ports: Ports, dispatch: DispatchOrderUseCase)
      ensures this.ports == ports && this.dispatch == dispatch
    {
      this.ports, this.dispatch := ports, dispatch;
    }

    method InTransaction(e: EventId, o: OrderId) returns (freed: Option<DriverId>)
      requires ports.Valid()
      modifies ports.Repr()
      ensures ports.Valid()
      ensures (ports.State(), freed) == D.CompleteInTransaction(ports.env, old(ports.State()), e, o)
    {
      hide Ports.Valid, Ports.State, AssignmentProps.After;
      var now := ports.Now();
      var isNew := ports.RecordIfNew(e);
      if !isNew {
        return None;
      }
      var a := ports.Load(o);
      if a == null {
        return None;
      }
      freed := CompleteAndSave(a, now);
    }

    method CompleteAndSave(a: Assignment, now: Time) returns (freed: Option<DriverId>)
      requires ports.Valid() && a !in ports.Repr() && a.orderId in ports.State().orders
      requires a.Props() == ports.State().orders[a.orderId]
      modifies a, ports.Repr()
      ensures ports.Valid()
      ensures var s, p, op := old(ports.State()), old(a.Props()), Complete(now);
        if p.Allows(op) then ports.State() == s.Put(p.orderId, p.After(op)) && freed == p.assignedDriverId
        else ports.State() == s && freed == None
    {
      hide Ports.Valid, Ports.State, AssignmentProps.After, AssignmentProps.EventsOf;
      var driver := a.assignedDriverId;
      var completed := a.MarkCompleted(now);
      if !completed {
        return None;
      }
      ports.SaveStep(a, Complete(now));
      return driver;
    }

    method Execute(e: EventId, o: OrderId)
      requires ports.Valid() && dispatch.ports == ports
      modifies ports.Repr()
      ensures ports.Valid()
      ensures ports.State() == D.CompleteDelivery(ports.env, old(ports.State()), e, o)
    {
      hide Represents, Contents, D.WellKept, D.CompleteInTransaction, D.RetryParked;
      var freed := InTransaction(e, o);
      if freed.Some? {
        ports.FreeNow(freed.value);
        dispatch.RetryParked();
      }
    }
  }

  class UpdateAvailabilityUseCase {
    const ports: Ports
    const dispatch: DispatchOrderUseCase

    constructor (ports: Ports, dispatch: DispatchOrderUseCase)
      ensures this.ports == ports && this.dispatch == dispatch
    {
      this.ports, this.dispatch := ports, dispatch;
    }

    method Execute(e: EventId, d: DriverId, isAvailable: bool, changedAt: Time)
      requires ports.Valid() && dispatch.ports == ports
      modifies ports.Repr()
      ensures ports.Valid()
      ensures ports.State() == D.UpdateAvailability(ports.env, old(ports.State()), e, d, isAvailable, changedAt)
    {
      hide Represents, Contents, D.WellKept, D.RetryParked;
      var isNew := ports.RecordIfNew(e);
      if !isNew {
        return;
      }
      if isAvailable {
        ports.pool.OnWilling(d, changedAt);
        dispatch.RetryParked();
      } else {
        ports.pool.OnUnwilling(d);
      }
    }
  }

  class ForceAssignUseCase {
    const ports: Ports

    constructor (ports: Ports)
      ensures this.ports == ports
    {
      this.ports := ports;
    }

    method Execute(o: OrderId, d: DriverId, known: bool) returns (r: D.Reply)
      requires ports.Valid()
      modifies ports.Repr()
      ensures ports.Valid()
      ensures D.Handled(ports.State(), r) == D.ForceAssign(ports.env, old(ports.State()), o, d, known)
    {
      hide Ports.Valid, Ports.State, AssignmentProps.After;
      if !known {
        return Failure(DriverNotAssignable);
      }
      var a := ports.Load(o);
      if a == null {
        return Failure(AssignmentNotFound);
      }
      var now := ports.Now();
      r := AssignAndSave(a, d, now);
      if r.Failure? {
        return;
      }
      hide AssignmentProps.Allows;
      ports.MarkBusy(d);
      ports.PublishPulled(a);
    }

    method AssignAndSave(a: Assignment, d: DriverId, now: Time) returns (r: D.Reply)
      requires ports.Valid() && a !in ports.Repr() && a.orderId in ports.State().orders
      requires a.Props() == ports.State().orders[a.orderId] && a.events == []
      modifies a, ports.Repr()
      ensures ports.Valid()
      ensures var s, p, op := old(ports.State()), old(a.Props()), Force(d, now);
        if p.Allows(op) then
          r == Success(()) && ports.State() == s.Put(p.orderId, p.After(op)) && a.events == p.EventsOf(op)
        else
          r == Failure(ForceAssignNotAllowed) && ports.State() == s
    {
      hide Ports.Valid, Ports.State, AssignmentProps.After;
      r := a.ForceAssign(d, now);
      if r.Success? {
        ports.SaveStep(a, Force(d, now));
      }
    }
  }

  /** The wired service: every message and request goes to its use case. */
  class DispatchService {
    const ports: Ports
    const dispatch: DispatchOrderUseCase
    const handleOrderCreated: HandleOrderCreatedUseCase
    const updateAvailability: UpdateAvailabilityUseCase
    const completeDelivery: CompleteDeliveryUseCase
    const cancelOrder: CancelOrderUseCase
    const expireOffer: ExpireOfferUseCase
    const acceptOffer: AcceptOfferUseCase
    const rejectOffer: RejectOfferUseCase
    const forceAssign: ForceAssignUseCase

    /** Every use case was given the same ports and the same engine. */
    ghost predicate Wired() {
      && dispatch.ports == ports
      && handleOrderCreated.ports == ports && handleOrderCreated.dispatch == dispatch
      && updateAvailability.ports == ports && updateAvailability.dispatch == dispatch
      && completeDelivery.ports == ports && completeDelivery.dispatch == dispatch
      && cancelOrder.ports == ports && cancelOrder.dispatch == dispatch
      && expireOffer.ports == ports && expireOffer.dispatch == dispatch
      && acceptOffer.ports == ports
      && rejectOffer.ports == ports && rejectOffer.dispatch == dispatch
      && forceAssign.ports == ports
    }

    constructor (env: D.Env)
      ensures Wired() && ports.Valid() && ports.State() == D.START && ports.env == env && fresh(ports.Repr())
    {
      var p := new Ports(env);
      var d := new DispatchOrderUseCase(p);
      ports, dispatch := p, d;
      handleOrderCreated := new HandleOrderCreatedUseCase(p, d);
      updateAvailability := new UpdateAvailabilityUseCase(p, d);
      completeDelivery := new CompleteDeliveryUseCase(p, d);
      cancelOrder := new CancelOrderUseCase(p, d);
      expireOffer := new ExpireOfferUseCase(p, d);
      acceptOffer := new AcceptOfferUseCase(p);
      rejectOffer := new RejectOfferUseCase(p, d);
      forceAssign := new ForceAssignUseCase(p);
    }

    method Handle(c: D.Command)
      requires Wired() && ports.Valid() && D.KeepsMap(ports.env, ports.State(), c)
      modifies ports.Repr()
      ensures ports.Valid() && ports.State() == D.Next(ports.env, old(ports.State()), c)
    {
      hide Represents, Contents, D.WellKept, D.HandleOrderCreated, D.UpdateAvailability, D.CompleteDelivery,
        D.CancelOrder, D.DeliverExpiry, D.AcceptOffer, D.RejectOffer, D.ForceAssign;
      match c {
        case OrderCreated(e, msg) => var r := handleOrderCreated.Execute(e, msg);
        case AvailabilityChanged(e, d, isAvailable, changedAt) =>
          updateAvailability.Execute(e, d, isAvailable, changedAt);
        case DeliveryCompleted(e, o) => completeDelivery.Execute(e, o);
        case OrderCancelled(e, o) => cancelOrder.Execute(e, o);
        case OfferExpired(t, ack) => expireOffer.Deliver(t, ack);
        case DriverAccepts(o, d) => var r := acceptOffer.Execute(o, d);
        case DriverRejects(o, d) => var r := rejectOffer.Execute(o, d);
        case AdminForces(o, d, known) => var r := forceAssign.Execute(o, d, known);
      }
    }

    /** The objects, tables and structures, driven by any run, end in the state the theorems speak of. */
    method Process(cs: seq<D.Command>)
      requires Wired() && ports.Valid() && D.MapRun(ports.env, ports.State(), cs)
      modifies ports.Repr()
      ensures ports.Valid() && ports.State() == D.Run(ports.env, old(ports.State()), cs)
    {
      hide Represents, Contents, D.WellKept, D.Next;
      for i := 0 to |cs|
        invariant ports.Valid() && D.MapRun(ports.env, ports.State(), cs[i..])
        invariant D.Run(ports.env, ports.State(), cs[i..]) == D.Run(ports.env, old(ports.State()), cs)
      {
        assert cs[i..][1..] == cs[i + 1..];
        Handle(cs[i]);
      }
    }
  }
}
