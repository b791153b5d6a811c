/** What holds in every run of the service, one use case at a time. */
module Theorems {
  import opened Wrappers
  import opened Domain
  import opened AssignmentModel
  import opened RepositoryModel
  import opened DispatchModel
  import opened Invariants
  import opened Paths
  import opened Retry

  /** The state of the service after a run from scratch. */
  function Reached(env: Env, cs: seq<Command>): State {
    Run(env, START, cs)
  }

  lemma RunKeepsInv(env: Env, s: State, cs: seq<Command>)
    requires Inv(env, s) && LegalRun(env, s, cs)
    ensures Inv(env, Run(env, s, cs))
    ensures Evolves(env.maxAttempts, s, Run(env, s, cs))
  {
    hide Inv, Leads, Run, Evolves, LegalRun;
    RunLeads(env, false, s, cs);
    LeadsKeepsInv(env, false, s, Run(env, s, cs));
    LeadsEvolves(env, false, s, Run(env, s, cs));
  }

  lemma ReachedInv(env: Env, cs: seq<Command>)
    requires LegalRun(env, START, cs)
    ensures Inv(env, Reached(env, cs))
  {
    hide Inv, Run, Evolves, LegalRun;
    StartIsFine(env);
    RunKeepsInv(env, START, cs);
  }

  lemma ReachedOne(env: Env, cs: seq<Command>, c: Command)
    ensures Reached(env, cs + [c]) == Next(env, Reached(env, cs), c)
    ensures LegalRun(env, START, cs + [c]) <==> LegalRun(env, START, cs) && CreatedOnce(Reached(env, cs), c)
  {
    hide Run, LegalRun, Next;
    RunSplits(env, START, cs, [c]);
    RunOne(env, Reached(env, cs), c);
  }

  // ----- Drivers -----

  /** In every run, with no condition on what admins force, each busy driver has a live order. */
  lemma NoLeakedDriver(env: Env, cs: seq<Command>, d: DriverId) returns (o: OrderId)
    requires LegalRun(env, START, cs) && d in Reached(env, cs).pool.busy
    ensures o in Reached(env, cs).orders && Reached(env, cs).orders[o].Holder() == Some(d)
    ensures d !in Reached(env, cs).pool.available
  {
    hide Run, LegalRun;
    ReachedInv(env, cs);
    o :| Holds(Reached(env, cs).orders, o, d);
  }

  function LiveOrders(m: Orders): set<OrderId> {
    set o | o in m && (m[o].status == Offered || m[o].status == Assigned)
  }

  function Drivers(m: Orders, live: set<OrderId>): set<DriverId>
    requires live <= m.Keys && forall o :: o in live ==> m[o].Holder().Some?
  {
    set o | o in live :: m[o].Holder().value
  }

  lemma {:induction false} DistinctHoldersCount(m: Orders, live: set<OrderId>)
    requires live <= m.Keys && forall o :: o in live ==> m[o].Holder().Some?
    requires forall o, o', d :: Holds(m, o, d) && Holds(m, o', d) ==> o == o'
    ensures |Drivers(m, live)| == |live|
  {
    if live != {} {
      var o :| o in live;
      var rest := live - {o};
      DistinctHoldersCount(m, rest);
      var d := m[o].Holder().value;
      assert Holds(m, o, d);
      assert d !in Drivers(m, rest) by {
        assert forall o' :: o' in rest && m[o'].Holder() == Some(d) ==> Holds(m, o', d);
      }
      assert Drivers(m, live) == Drivers(m, rest) + {d};
    }
  }

  /**
    If admins only force drivers who are not busy, the busy set is exactly the drivers of the offered
    and assigned orders, one driver per order.
   */
  lemma ExactConservation(env: Env, cs: seq<Command>)
    requires LegalRun(env, START, cs) && PoliteRun(env, START, cs)
    ensures var s := Reached(env, cs);
      && Exclusive(s.orders, s.pool.busy)
      && |s.pool.busy| == |LiveOrders(s.orders)|
  {
    hide Run, LegalRun, PoliteRun, Leads, Inv, Exclusive;
    StartIsFine(env);
    RunLeads(env, true, START, cs);
    var s := Reached(env, cs);
    assert Exclusive(s.orders, s.pool.busy) by {
      PoliteLeadsKeepsExclusive(env, START, s);
    }
    ReachedInv(env, cs);
    ExclusiveCounts(env, s);
  }

  lemma PoliteLeadsKeepsExclusive(env: Env, s: State, s': State)
    requires Leads(env, true, s, s') && Inv(env, s) && Exclusive(s.orders, s.pool.busy)
    ensures Exclusive(s'.orders, s'.pool.busy)
  {
    hide Inv, Exclusive;
    var p :| Connects(env, p, true, s, s');
    PathKeepsExclusive(env, p, |p.micros|);
  }

  lemma ExclusiveCounts(env: Env, s: State)
    requires Inv(env, s) && Exclusive(s.orders, s.pool.busy)
    ensures |s.pool.busy| == |LiveOrders(s.orders)|
  {
    var m, live := s.orders, LiveOrders(s.orders);
    forall o | o in live ensures m[o].Holder().Some? {
      assert Proper(env.maxAttempts, m[o]);
    }
    DistinctHoldersCount(m, live);
    forall d ensures d in s.pool.busy <==> d in Drivers(m, live) {
      if d in s.pool.busy {
        var o :| Holds(m, o, d);
        assert o in live;
      } else if d in Drivers(m, live) {
        var o :| o in live && m[o].Holder().value == d;
        assert Holds(m, o, d);
      }
    }
    assert s.pool.busy == Drivers(m, live);
  }

  /**
    Without the condition on admins the one-to-one law is false: forcing a busy driver puts them on
    two orders.
   */
  lemma ForcingBusyDriverSharesThem(env: Env, s: State, o: OrderId, o': OrderId, d: DriverId)
    requires Holds(s.orders, o, d) && o' in s.orders && o' != o
    requires s.orders[o'].status == AwaitingDriver || s.orders[o'].status == Failed
    ensures var s' := Next(env, s, AdminForces(o', d, true));
      Holds(s'.orders, o, d) && Holds(s'.orders, o', d) && !Exclusive(s'.orders, s'.pool.busy)
  {
    var s' := Next(env, s, AdminForces(o', d, true));
    assert Holds(s'.orders, o, d) && Holds(s'.orders, o', d);
  }

  /** Exactly when the law survives an effective force-assign: the driver was not busy. */
  lemma ForceKeepsExclusiveIff(env: Env, s: State, o: OrderId, d: DriverId)
    requires Inv(env, s) && Exclusive(s.orders, s.pool.busy) && o in s.orders
    requires s.orders[o].status == AwaitingDriver || s.orders[o].status == Failed
    ensures var s' := Next(env, s, AdminForces(o, d, true));
      Exclusive(s'.orders, s'.pool.busy) <==> d !in s.pool.busy
  {
    hide Inv, Exclusive, ForceAssign;
    var s' := Next(env, s, AdminForces(o, d, true));
    if d in s.pool.busy {
      var o' := BusyIsHeld(s, d);
      ForcingBusyDriverSharesThem(env, s, o', o, d);
    } else {
      ForceLeads(env, true, s, o, d, true);
      PoliteLeadsKeepsExclusive(env, s, s');
    }
  }

  lemma BusyIsHeld(s: State, d: DriverId) returns (o: OrderId)
    requires Exclusive(s.orders, s.pool.busy) && d in s.pool.busy
    ensures Holds(s.orders, o, d)
  {
    o :| Holds(s.orders, o, d);
  }

  /** At most one order is on offer to a driver, so looking up "my offer" has one answer. */
  lemma OneOfferPerDriver(env: Env, cs: seq<Command>, t: Tables, d: DriverId, o: OrderId, o': OrderId)
    requires LegalRun(env, START, cs) && PoliteRun(env, START, cs)
    requires Represents(t, Reached(env, cs).orders)
    requires OfferRow(t, o, d) && OfferRow(t, o', d)
    ensures o == o'
  {
    hide Run, LegalRun, PoliteRun, ById;
    ExactConservation(env, cs);
    ReachedInv(env, cs);
    var m := Reached(env, cs).orders;
    OfferLookupAgrees(t, m, o, d);
    OfferLookupAgrees(t, m, o', d);
    assert Holds(m, o, d) && Holds(m, o', d);
  }

  // ----- Failure -----

  /** A failed order was declined by exactly maxAttempts different drivers; a parked one has a try left. */
  lemma FailsOnlyWhenExhausted(env: Env, cs: seq<Command>, o: OrderId)
    requires LegalRun(env, START, cs) && o in Reached(env, cs).orders
    ensures var p := Reached(env, cs).orders[o];
      && DistinctDrivers(p)
      && (p.status == AwaitingDriver ==> p.offerAttempts < env.maxAttempts)
      && (p.status == Failed ==>
            && |p.attempts| == env.maxAttempts && AllDeclined(p.attempts)
            && |DriversOffered(p.attempts)| == env.maxAttempts)
  {
    hide Run, LegalRun;
    ReachedInv(env, cs);
    var p := Reached(env, cs).orders[o];
    assert Proper(env.maxAttempts, p);
    if p.status == Failed {
      FailureNeedsExhaustion(env.maxAttempts, p);
    }
  }

  // ----- Expiry messages -----

  /** Every open offer has its own expiry message pending. */
  lemma NoHangingOffer(env: Env, cs: seq<Command>, o: OrderId)
    requires LegalRun(env, START, cs) && o in Reached(env, cs).orders
    requires Reached(env, cs).orders[o].status == Offered
    ensures Timer(o, Reached(env, cs).orders[o].offerAttempts) in Reached(env, cs).timers
  {
    hide Run, LegalRun, OrdersOk, IdsOk, NoLeak, Logged;
    ReachedInv(env, cs);
  }

  ghost predicate OpenAt(s: State, o: OrderId, n: nat) {
    o in s.orders && s.orders[o].status == Offered && s.orders[o].offerAttempts == n
  }

  lemma AnsweredStaysAnswered(env: Env, s: State, s': State, o: OrderId, n: nat)
    requires Inv(env, s) && Inv(env, s') && Evolves(env.maxAttempts, s, s')
    requires o in s.orders && 1 <= n <= s.orders[o].offerAttempts && !OpenAt(s, o, n)
    ensures !OpenAt(s', o, n)
  {
  }

  /**
    Delivering the message of attempt `n` ends that offer for good: whatever ran before and whatever
    runs after, attempt `n` is never open again.
   */
  lemma DeliveryEndsOfferForGood(env: Env, cs: seq<Command>, o: OrderId, n: nat, ack: bool, ds: seq<Command>)
    requires LegalRun(env, START, cs + [OfferExpired(Timer(o, n), ack)] + ds)
    requires o in Reached(env, cs).orders && 1 <= n <= Reached(env, cs).orders[o].offerAttempts
    ensures !OpenAt(Reached(env, cs + [OfferExpired(Timer(o, n), ack)] + ds), o, n)
  {
    hide Run, LegalRun, Inv, Evolves, Next;
    var c := OfferExpired(Timer(o, n), ack);
    var s := Reached(env, cs);
    RunSplits(env, START, cs + [c], ds);
    RunSplits(env, START, cs, [c]);
    RunOne(env, s, c);
    ReachedInv(env, cs);
    var t := Next(env, s, c);
    assert t == Reached(env, cs + [c]);
    ReachedInv(env, cs + [c]);
    RunKeepsInv(env, s, [c]);
    DeliveryEndsOffer(env, s, o, n);
    DeliverKeepsOrders(env, s, Timer(o, n), ack);
    StillCounted(env, s, t, o, n);
    RunKeepsInv(env, t, ds);
    AnsweredStaysAnswered(env, t, Run(env, t, ds), o, n);
  }

  /** Every message in the holding queue is the end of one offer, whenever it is delivered. */
  lemma PendingMessageEndsItsOffer(env: Env, cs: seq<Command>, t: Timer, ack: bool, ds: seq<Command>)
    requires LegalRun(env, START, cs + [OfferExpired(t, ack)] + ds) && t in Reached(env, cs).timers
    ensures !OpenAt(Reached(env, cs + [OfferExpired(t, ack)] + ds), t.orderId, t.attemptNo)
  {
    hide Run, LegalRun, OrdersOk, IdsOk, NoLeak, Logged, Reached, OpenAt;
    RunSplits(env, START, cs + [OfferExpired(t, ack)], ds);
    RunSplits(env, START, cs, [OfferExpired(t, ack)]);
    ReachedInv(env, cs);
    DeliveryEndsOfferForGood(env, cs, t.orderId, t.attemptNo, ack, ds);
  }

  lemma DeliverKeepsOrders(env: Env, s: State, t: Timer, ack: bool)
    ensures Next(env, s, OfferExpired(t, ack)).orders == ExpireOffer(env, s, t.orderId, t.attemptNo).orders
  {
  }

  lemma StillCounted(env: Env, s: State, t: State, o: OrderId, n: nat)
    requires Inv(env, s) && Inv(env, t) && Evolves(env.maxAttempts, s, t)
    requires o in s.orders && n <= s.orders[o].offerAttempts
    ensures o in t.orders && n <= t.orders[o].offerAttempts
  {
  }

  /** History over any two points of a run: attempts are kept, answers are final, identity never changes. */
  lemma HistoryIsAppendOnly(env: Env, cs: seq<Command>, ds: seq<Command>, o: OrderId)
    requires LegalRun(env, START, cs + ds) && o in Reached(env, cs).orders
    ensures o in Reached(env, cs + ds).orders
    ensures Continues(Reached(env, cs).orders[o], Reached(env, cs + ds).orders[o])
  {
    hide Run, LegalRun, Inv, Measure, Continues;
    RunSplits(env, START, cs, ds);
    ReachedInv(env, cs);
    RunKeepsInv(env, Reached(env, cs), ds);
  }

  /** A message for attempt `n` of an order alters no other attempt of any order. */
  lemma ExpiryTouchesOneAttempt(env: Env, s: State, t: Timer, ack: bool, o: OrderId, i: nat)
    requires Inv(env, s) && o in s.orders && i < |s.orders[o].attempts|
    ensures var s' := Next(env, s, OfferExpired(t, ack));
      && o in s'.orders && i < |s'.orders[o].attempts|
      && (s'.orders[o].attempts[i] != s.orders[o].attempts[i] ==>
            && o == t.orderId && i + 1 == t.attemptNo
            && s.orders[o].attempts[i].outcome == Pending && s'.orders[o].attempts[i].outcome == Expired)
  {
    hide Inv, Decline, Sound, AssignmentProps.After;
    OrderIsProper(env, s, o);
    DeliverKeepsOrders(env, s, t, ack);
    var op := Expire(t.attemptNo, s.Now(env));
    if t.orderId in s.orders && s.orders[t.orderId].Allows(op) {
      DeclineShape(env, s, t.orderId, op);
      if o == t.orderId {
        ExpireChangesCurrent(s.orders[o], op, i);
      }
    }
  }

  lemma ExpireChangesCurrent(p: AssignmentProps, op: Operation, i: nat)
    requires Sound(p) && op.Expire? && p.Allows(op) && i < |p.attempts|
    ensures |p.After(op).attempts| == |p.attempts|
    ensures p.After(op).attempts[i] == p.attempts[i]
      || (i + 1 == op.attemptNo && p.attempts[i].outcome == Pending && p.After(op).attempts[i].outcome == Expired)
  {
  }

  lemma DeclineShape(env: Env, s: State, o: OrderId, op: Operation)
    requires o in s.orders && s.orders[o].Allows(op) && (op.Reject? || op.Expire?)
    ensures var s' := Decline(env, s, o, op);
      && o in s'.orders && s.orders[o].After(op).attempts <= s'.orders[o].attempts
      && (forall o' :: o' != o ==> (o' in s'.orders <==> o' in s.orders))
      && (forall o' :: o' in s.orders && o' != o ==> s'.orders[o'] == s.orders[o'])
  {
  }

  /** A stale or duplicate message only reads the clock. */
  lemma StaleExpiryIsIgnored(env: Env, s: State, o: OrderId, n: nat)
    requires Inv(env, s) && !OpenAt(s, o, n)
    ensures ExpireOffer(env, s, o, n) == if o in s.orders then s.Ticked() else s
  {
  }

  // ----- Published events -----

  lemma {:induction false} InLog(log: seq<DomainEvent>, e: DomainEvent)
    requires e in log
    ensures e in LogOf(log, e.orderId)
  {
    var n := |log| - 1;
    if log[n] != e {
      assert e in log[..n];
      InLog(log[..n], e);
    }
  }

  /**
    Per order the published log is [], [Failed], [Assigned] or [Failed, Assigned], and the driver it
    announces is the order's driver in every later state.
   */
  lemma AnnouncedDriverStays(env: Env, cs: seq<Command>, ds: seq<Command>, e: DomainEvent)
    requires LegalRun(env, START, cs + ds) && e in Reached(env, cs).log && e.DriverAssigned?
    ensures var s := Reached(env, cs + ds);
      && e.orderId in s.orders && s.orders[e.orderId].assignedDriverId == Some(e.driverId)
      && AssignedLog(LogOf(s.log, e.orderId), e.driverId)
  {
    hide Run, LegalRun, OrdersOk, IdsOk, NoLeak, Timed;
    RunSplits(env, START, cs, ds);
    ReachedInv(env, cs);
    ReachedInv(env, cs + ds);
    AnnouncedDriver(Reached(env, cs), e);
    HistoryIsAppendOnly(env, cs, ds, e.orderId);
    assert LogFits(Reached(env, cs + ds).orders[e.orderId], LogOf(Reached(env, cs + ds).log, e.orderId));
  }

  lemma AnnouncedDriver(s: State, e: DomainEvent)
    requires Logged(s.orders, s.log) && e in s.log && e.DriverAssigned?
    ensures e.orderId in s.orders && s.orders[e.orderId].assignedDriverId == Some(e.driverId)
  {
    hide LogOf;
    InLog(s.log, e);
    var evs := LogOf(s.log, e.orderId);
    assert evs != [];
    assert LogFits(s.orders[e.orderId], evs);
  }

  lemma LogShape(env: Env, cs: seq<Command>, o: OrderId)
    requires LegalRun(env, START, cs)
    ensures var evs := LogOf(Reached(env, cs).log, o);
      || evs == []
      || (|evs| == 1 && (evs[0].AssignmentFailed? || evs[0].DriverAssigned?))
      || (|evs| == 2 && evs[0].AssignmentFailed? && evs[1].DriverAssigned?)
  {
    hide Run, LegalRun, OrdersOk, IdsOk, NoLeak, Timed;
    ReachedInv(env, cs);
  }

  // ----- Duplicate deliveries -----

  /** Everything a later reader could see, clock readings aside. */
  ghost predicate SameWorld(s: State, s': State) {
    && s'.orders == s.orders && s'.pool == s.pool && s'.timers == s.timers && s'.log == s.log
    && s'.processed == s.processed && s'.nextAttemptId == s.nextAttemptId
  }

  /** The events that are deduplicated, and whether a command leaves its event recorded. */
  ghost predicate Records(env: Env, s: State, c: Command, e: EventId) {
    match c
    case OrderCreated(e', msg) => e' == e && (e in s.processed || Build(msg, s.Now(env)).Success?)
    case AvailabilityChanged(e', _, _, _) => e' == e
    case DeliveryCompleted(e', _) => e' == e
    case OrderCancelled(e', _) => e' == e
    case _ => false
  }

  lemma RetryKeepsProcessed(env: Env, s: State, list: seq<OrderId>)
    ensures RetryEach(env, s, list).processed == s.processed
    decreases |list|
  {
  }

  lemma RecordsIt(env: Env, s: State, c: Command, e: EventId)
    requires Records(env, s, c, e)
    ensures e in Next(env, s, c).processed
  {
    hide Build, Attempt, RetryEach;
    forall s1: State, list ensures RetryEach(env, s1, list).processed == s1.processed {
      RetryKeepsProcessed(env, s1, list);
    }
    if c.OrderCreated? && e !in s.processed {
      var p := Build(c.msg, s.Now(env)).value;
      AttemptKeepsProcessed(env, s.Ticked().(processed := s.processed + {e}).Put(c.msg.orderId, p), c.msg.orderId);
    }
  }

  lemma AttemptKeepsProcessed(env: Env, s: State, o: OrderId)
    ensures Attempt(env, s, o).processed == s.processed
  {
  }

  lemma RepeatIsIgnored(env: Env, s: State, c: Command)
    requires c.OrderCreated? || c.AvailabilityChanged? || c.DeliveryCompleted?
    requires c.eventId in s.processed
    ensures SameWorld(s, Next(env, s, c))
    ensures c.OrderCreated? ==> HandleOrderCreated(env, s, c.eventId, c.msg).reply == Success(())
  {
  }

  /** A repeated cancellation is a bare retry pass, which is nothing exactly when it has no offer to make. */
  lemma RepeatedCancelIsRetry(env: Env, s: State, e: EventId, o: OrderId)
    requires e in s.processed
    ensures Next(env, s, OrderCancelled(e, o)) == RetryParked(env, s.Ticked())
    ensures SameWorld(s, Next(env, s, OrderCancelled(e, o))) <==> forall a :: a in RetryList(s) ==> Served(s, a)
  {
    hide RetryEach;
    var t, list := s.Ticked(), RetryList(s);
    assert forall a, d :: Starves(t, a, d) <==> Starves(s, a, d);
    RetryIdlesIff(env, t, list);
    RetryCountsOffers(env, t, list);
  }

  /**
    Over whole runs: once an event has been recorded, redelivering it at any later point changes
    nothing; for a cancellation, exactly when no listed order has an untried driver queued.
   */
  lemma RedeliveryIsIgnored(env: Env, cs: seq<Command>, c: Command, ds: seq<Command>, c': Command, e: EventId)
    requires LegalRun(env, START, cs + [c] + ds)
    requires Records(env, Reached(env, cs), c, e)
    requires match c'
             case OrderCreated(e', _) => e' == e
             case AvailabilityChanged(e', _, _, _) => e' == e
             case DeliveryCompleted(e', _) => e' == e
             case OrderCancelled(e', _) => e' == e
             case _ => false
    ensures var s := Reached(env, cs + [c] + ds);
      && (c'.OrderCancelled? ==> Next(env, s, c') == RetryParked(env, s.Ticked()))
      && (c'.OrderCreated? ==> HandleOrderCreated(env, s, e, c'.msg).reply == Success(()))
      && (SameWorld(s, Next(env, s, c'))
          <==> (c'.OrderCancelled? ==> forall a :: a in RetryList(s) ==> Served(s, a)))
  {
    hide Run, LegalRun, Inv, Next, Records, OrderEvolves, RetryParked, RetryList, SameWorld, Served, HandleOrderCreated;
    var s := Reached(env, cs);
    RunSplits(env, START, cs + [c], ds);
    RunSplits(env, START, cs, [c]);
    RunOne(env, s, c);
    RecordsIt(env, s, c, e);
    ReachedInv(env, cs + [c]);
    RunKeepsInv(env, Reached(env, cs + [c]), ds);
    var u := Reached(env, cs + [c] + ds);
    assert e in u.processed;
    if c'.OrderCancelled? {
      RepeatedCancelIsRetry(env, u, e, c'.orderId);
    } else {
      RepeatIsIgnored(env, u, c');
    }
  }
}
