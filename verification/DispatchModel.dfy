/**
  The whole service as one value and each use case as a function on it. The use-case classes are
  proved to compute these functions; the theorems are about them.
 */
module DispatchModel {
  import opened Wrappers
  import opened Domain
  import opened ValueObjects
  import opened AssignmentModel
  import opened PoolModel
  import opened RepositoryModel

  type Positive = n: nat | n >= 1 witness 1

  /** Fixed for a run. The k-th reading of the clock is `clock(k)`, with no assumption on it. */
  datatype Env = Env(maxAttempts: Positive, ttlSeconds: nat, clock: nat -> Time)

  /** A message in the offer-expiry holding queue. */
  datatype Timer = Timer(orderId: OrderId, attemptNo: nat)

  datatype State = State(
    orders: map<OrderId, AssignmentProps>,
    pool: Pool,
    processed: set<EventId>,
    timers: multiset<Timer>,
    log: seq<DomainEvent>,
    ticks: nat,
    nextAttemptId: AttemptId)
  {
    function Now(env: Env): Time {
      env.clock(ticks)
    }

    function Ticked(): State {
      this.(ticks := ticks + 1)
    }

    function Put(o: OrderId, p: AssignmentProps): State {
      this.(orders := orders[o := p])
    }

    function Freed(env: Env, d: DriverId): State {
      this.(pool := pool.FreeDriver(d, Now(env)), ticks := ticks + 1)
    }

    predicate IsParked(o: OrderId) {
      o in orders && orders[o].status == AwaitingDriver
    }
  }

  const START := State(map[], EMPTY_POOL, {}, multiset{}, [], 0, 0)

  /** How many parked orders one retry pass looks at. */
  const RETRY_LIMIT: nat := 50

  /** What makes every save of the service land faithfully in the two tables. */
  ghost predicate WellKept(m: map<OrderId, AssignmentProps>, nextAttemptId: AttemptId) {
    && Healthy(m)
    && (forall o, i :: o in m && 0 <= i < |m[o].attempts| ==> m[o].attempts[i].id < nextAttemptId)
  }

  // ----- The dispatch engine -----

  /** After a claim: record the offer and schedule its expiry. */
  function MakeOffer(env: Env, s: State, o: OrderId, d: DriverId): State
    requires s.IsParked(o)
  {
    var now := s.Now(env);
    var q := s.orders[o].After(Offer(s.nextAttemptId, d, now, now + env.ttlSeconds * 1000));
    s.(orders := s.orders[o := q], timers := s.timers + multiset{Timer(o, s.orders[o].offerAttempts + 1)},
       ticks := s.ticks + 1, nextAttemptId := s.nextAttemptId + 1)
  }

  function Attempt(env: Env, s: State, o: OrderId): State {
    if !s.IsParked(o) then s else
    match s.pool.Claim(s.orders[o].TriedDriverIds())
    case None => s
    case Some(d) => MakeOffer(env, s.(pool := s.pool.Take(d)), o, d)
  }

  function FailOrRetry(env: Env, s: State, o: OrderId): State {
    if !s.IsParked(o) then s
    else if s.orders[o].offerAttempts >= env.maxAttempts then
      var p, op := s.orders[o], Fail(s.Now(env));
      s.(orders := s.orders[o := p.After(op)], log := s.log + p.EventsOf(op), ticks := s.ticks + 1)
    else Attempt(env, s, o)
  }

  function RetryEach(env: Env, s: State, list: seq<OrderId>): State
    decreases |list|
  {
    if list == [] then s else RetryEach(env, Attempt(env, s, list[0]), list[1..])
  }

  function RetryList(s: State): seq<OrderId> {
    AwaitingOldestFirst(Parked(s.orders), RETRY_LIMIT)
  }

  function RetryParked(env: Env, s: State): State {
    RetryEach(env, s, RetryList(s))
  }

  // ----- Use cases -----

  type Reply = Result<(), DomainError>

  datatype Handled = Handled(state: State, reply: Reply)

  datatype OrderCreatedMessage = OrderCreatedMessage(
    orderId: OrderId,
    customerId: CustomerId,
    pickup: AddressFields,
    dropoff: AddressFields,
    items: seq<ItemFields>,
    scheduledFor: Option<Time>)

  function Build(msg: OrderCreatedMessage, now: Time): Result<AssignmentProps, DomainError> {
    var pickup :- AddressSnapshot.Of(msg.pickup);
    var dropoff :- AddressSnapshot.Of(msg.dropoff);
    var items :- ItemsOf(msg.items);
    Success(FromOrderCreated(msg.orderId, msg.customerId, pickup, dropoff, items, msg.scheduledFor, now))
  }

  lemma BuiltIsNew(msg: OrderCreatedMessage, now: Time)
    requires Build(msg, now).Success?
    ensures Build(msg, now).value.orderId == msg.orderId && IsNew(Build(msg, now).value)
  {
    AddressOfIsNormal(msg.pickup);
    AddressOfIsNormal(msg.dropoff);
    ItemsOfAreNormal(msg.items);
  }

  /** After the transaction that creates order `o`, before its first attempt. */
  function Announced(s: State, e: EventId, o: OrderId, p: AssignmentProps): State {
    s.Ticked().(processed := s.processed + {e}).Put(o, p)
  }

  /** A rejected message rolls its transaction back, the event record included. */
  function HandleOrderCreated(env: Env, s: State, e: EventId, msg: OrderCreatedMessage): Handled {
    var s1 := s.Ticked();
    if e in s.processed then Handled(s1, Success(())) else
    match Build(msg, s.Now(env))
    case Failure(err) => Handled(s1, Failure(err))
    case Success(p) =>
      Handled(Attempt(env, Announced(s, e, msg.orderId, p), msg.orderId), Success(()))
  }

  function UpdateAvailability(
    env: Env, s: State, e: EventId, d: DriverId, isAvailable: bool, changedAt: Time): State
  {
    if e in s.processed then s else
    var s1 := s.(processed := s.processed + {e});
    if isAvailable then
      RetryParked(env, s1.(pool := s1.pool.OnWilling(d, changedAt)))
    else
      s1.(pool := s1.pool.OnUnwilling(d))
  }

  /** Record, load, complete, save: the state after the transaction and the driver to free. */
  function CompleteInTransaction(env: Env, s: State, e: EventId, o: OrderId): (State, Option<DriverId>) {
    var s1 := s.Ticked();
    if e in s.processed then (s1, None) else
    var s2 := s1.(processed := s1.processed + {e});
    var op := Complete(s.Now(env));
    if o !in s.orders || !s.orders[o].Allows(op) then (s2, None)
    else (s2.Put(o, s.orders[o].After(op)), s.orders[o].assignedDriverId)
  }

  function CompleteDelivery(env: Env, s: State, e: EventId, o: OrderId): State {
    var (s1, freed) := CompleteInTransaction(env, s, e, o);
    match freed
    case None => s1
    case Some(d) => RetryParked(env, s1.Freed(env, d))
  }

  function CancelInTransaction(env: Env, s: State, e: EventId, o: OrderId): (State, Option<DriverId>) {
    var s1 := s.Ticked();
    if e in s.processed then (s1, None) else
    var s2 := s1.(processed := s1.processed + {e});
    var op := Operation.Cancel(s.Now(env));
    if o !in s.orders || !s.orders[o].Allows(op) then (s2, None)
    else (s2.Put(o, s.orders[o].After(op)), s.orders[o].Holder())
  }

  function CancelOrder(env: Env, s: State, e: EventId, o: OrderId): State {
    var (s1, freed) := CancelInTransaction(env, s, e, o);
    match freed
    case None => RetryParked(env, s1)
    case Some(d) => RetryParked(env, s1.Freed(env, d))
  }

  function AcceptOffer(env: Env, s: State, o: OrderId, d: DriverId): Handled {
    if o !in s.orders then Handled(s, Failure(AssignmentNotFound)) else
    var p, op := s.orders[o], Operation.Accept(d, s.Now(env));
    if !p.Allows(op) then
      Handled(s.Ticked(), if p.status != Offered then Failure(NoActiveOffer) else Failure(NotOfferedDriver))
    else
      Handled(s.Ticked().Put(o, p.After(op)).(log := s.log + p.EventsOf(op)), Success(()))
  }

  /** Save the declined order, free its driver, then fail it or offer it on. */
  function Decline(env: Env, s: State, o: OrderId, op: Operation): State
    requires o in s.orders && s.orders[o].Allows(op) && (op.Reject? || op.Expire?)
  {
    var p := s.orders[o];
    FailOrRetry(env, s.Ticked().Put(o, p.After(op)).Freed(env, p.attempts[|p.attempts| - 1].driverId), o)
  }

  function RejectOffer(env: Env, s: State, o: OrderId, d: DriverId): Handled {
    if o !in s.orders then Handled(s, Failure(AssignmentNotFound)) else
    var p, op := s.orders[o], Reject(d, s.Now(env));
    if !p.Allows(op) then
      Handled(s.Ticked(), if p.status != Offered then Failure(NoActiveOffer) else Failure(NotOfferedDriver))
    else
      Handled(Decline(env, s, o, op), Success(()))
  }

  function ExpireOffer(env: Env, s: State, o: OrderId, attemptNo: nat): State {
    if o !in s.orders then s else
    var op := Expire(attemptNo, s.Now(env));
    if !s.orders[o].Allows(op) then s.Ticked() else Decline(env, s, o, op)
  }

  /** Delivery of an expiry message; unless acknowledged it will be delivered again. */
  function DeliverExpiry(env: Env, s: State, t: Timer, ack: bool): State {
    var s1 := ExpireOffer(env, s, t.orderId, t.attemptNo);
    if ack then s1.(timers := s1.timers - multiset{t}) else s1
  }

  /** `known` is the driver directory's answer. */
  function ForceAssign(env: Env, s: State, o: OrderId, d: DriverId, known: bool): Handled {
    if !known then Handled(s, Failure(DriverNotAssignable))
    else if o !in s.orders then Handled(s, Failure(AssignmentNotFound))
    else
      var p, op := s.orders[o], Force(d, s.Now(env));
      if !p.Allows(op) then Handled(s.Ticked(), Failure(ForceAssignNotAllowed))
      else
        Handled(s.Ticked().Put(o, p.After(op)).(pool := s.pool.MarkBusy(d), log := s.log + p.EventsOf(op)),
                Success(()))
  }

  // ----- Runs -----

  datatype Command =
    | OrderCreated(eventId: EventId, msg: OrderCreatedMessage)
    | AvailabilityChanged(eventId: EventId, driverId: DriverId, isAvailable: bool, changedAt: Time)
    | DeliveryCompleted(eventId: EventId, orderId: OrderId)
    | OrderCancelled(eventId: EventId, orderId: OrderId)
    | OfferExpired(timer: Timer, ack: bool)
    | DriverAccepts(orderId: OrderId, driverId: DriverId)
    | DriverRejects(orderId: OrderId, driverId: DriverId)
    | AdminForces(orderId: OrderId, driverId: DriverId, known: bool)

  /** One use case runs to its end. */
  function Next(env: Env, s: State, c: Command): State {
    match c
    case OrderCreated(e, msg) => HandleOrderCreated(env, s, e, msg).state
    case AvailabilityChanged(e, d, isAvailable, changedAt) => UpdateAvailability(env, s, e, d, isAvailable, changedAt)
    case DeliveryCompleted(e, o) => CompleteDelivery(env, s, e, o)
    case OrderCancelled(e, o) => CancelOrder(env, s, e, o)
    case OfferExpired(t, ack) => DeliverExpiry(env, s, t, ack)
    case DriverAccepts(o, d) => AcceptOffer(env, s, o, d).state
    case DriverRejects(o, d) => RejectOffer(env, s, o, d).state
    case AdminForces(o, d, known) => ForceAssign(env, s, o, d, known).state
  }

  function Run(env: Env, s: State, cs: seq<Command>): State
    decreases |cs|
  {
    if cs == [] then s else Run(env, Next(env, s, cs[0]), cs[1..])
  }

  /** The producer announces each order under one event id only. */
  predicate CreatedOnce(s: State, c: Command) {
    c.OrderCreated? && c.eventId !in s.processed ==> c.msg.orderId !in s.orders
  }

  /**
    What the two tables need to go on acting as a map: an order announced under a new event has no
    attempts stored.
   */
  predicate KeepsMap(env: Env, s: State, c: Command) {
    (c.OrderCreated? && c.eventId !in s.processed && c.msg.orderId in s.orders && Build(c.msg, s.Now(env)).Success?) ==>
      s.orders[c.msg.orderId].attempts == []
  }

  predicate MapRun(env: Env, s: State, cs: seq<Command>)
    decreases |cs|
  {
    cs == [] || (KeepsMap(env, s, cs[0]) && MapRun(env, Next(env, s, cs[0]), cs[1..]))
  }

  lemma {:induction false} LegalRunsKeepMap(env: Env, s: State, cs: seq<Command>)
    requires LegalRun(env, s, cs)
    ensures MapRun(env, s, cs)
    decreases |cs|
  {
    hide Next, Build;
    if cs != [] {
      LegalRunsKeepMap(env, Next(env, s, cs[0]), cs[1..]);
    }
  }

  /** The admin picks a driver who is not busy; the service itself does not check. */
  predicate ForcesFreeDriver(s: State, c: Command) {
    c.AdminForces? ==> c.driverId !in s.pool.busy
  }

  predicate LegalRun(env: Env, s: State, cs: seq<Command>)
    decreases |cs|
  {
    cs == [] || (CreatedOnce(s, cs[0]) && LegalRun(env, Next(env, s, cs[0]), cs[1..]))
  }

  predicate PoliteRun(env: Env, s: State, cs: seq<Command>)
    decreases |cs|
  {
    cs == [] || (ForcesFreeDriver(s, cs[0]) && PoliteRun(env, Next(env, s, cs[0]), cs[1..]))
  }

  lemma {:induction false} RunSplits(env: Env, s: State, cs: seq<Command>, ds: seq<Command>)
    ensures Run(env, s, cs + ds) == Run(env, Run(env, s, cs), ds)
    ensures LegalRun(env, s, cs + ds) <==> LegalRun(env, s, cs) && LegalRun(env, Run(env, s, cs), ds)
    decreases |cs|
  {
    if cs == [] {
      assert cs + ds == ds;
    } else {
      assert (cs + ds)[1..] == cs[1..] + ds;
      RunSplits(env, Next(env, s, cs[0]), cs[1..], ds);
    }
  }

  lemma RunOne(env: Env, s: State, c: Command)
    ensures Run(env, s, [c]) == Next(env, s, c)
    ensures LegalRun(env, s, [c]) <==> CreatedOnce(s, c)
  {
    assert [c][1..] == [];
  }
}
