/** What the answers of the use cases add up to over whole runs. */
module Histories {
  import opened Wrappers
  import opened Domain
  import opened ValueObjects
  import opened AssignmentModel
  import opened PoolModel
  import opened RepositoryModel
  import opened DispatchModel
  import opened Invariants
  import opened Paths
  import opened Lifetimes
  import opened Retry
  import opened Theorems
  import opened Outcomes

  // ----- Messages -----

  lemma PassSends(env: Env, s: State, t: State)
    requires t.timers == s.timers && forall o :: OffersMade(t.orders, o) == OffersMade(s.orders, o)
    ensures Sends(s, RetryParked(env, t))
  {
    hide Promoted, RetryEach, RetryList, NewMessages, OffersMade;
    PassOutcome(env, t, RetryList(t));
    SendsAfter(s, t, RetryParked(env, t));
  }

  lemma AttemptSends(env: Env, s: State, t: State, o: OrderId)
    requires t.timers == s.timers && forall x :: OffersMade(t.orders, x) == OffersMade(s.orders, x)
    ensures Sends(s, Attempt(env, t, o))
  {
    hide Promoted, Attempt, NewMessages, OffersMade;
    AttemptOnlyOffers(env, t, o);
    SendsAfter(s, t, Attempt(env, t, o));
  }

  lemma MoveOnSends(env: Env, s: State, s': State, o: OrderId, outcome: OfferOutcome)
    requires MovesOn(env, s, s', o, outcome)
    ensures Sends(s, s')
  {
    hide LetsGo, ClosesLast, SameOrder, FirstInLine, SomebodyLeft, OpenOffer;
    var t, x: Option<DriverId> :| MovesOnBy(env, s, t, x, s', o, outcome);
    assert forall a :: OffersMade(t.orders, a) == OffersMade(s.orders, a);
    if s.orders[o].offerAttempts == env.maxAttempts || x == None {
      SendsNothing(s, s');
    } else {
      assert Sends(t, s');
      SendsAfter(s, t, s');
    }
  }

  lemma CreatedSends(env: Env, s: State, e: EventId, msg: OrderCreatedMessage)
    requires e !in s.processed ==> msg.orderId !in s.orders
    ensures Sends(s, HandleOrderCreated(env, s, e, msg).state)
  {
    hide Sends, Attempt, Build;
    var s' := HandleOrderCreated(env, s, e, msg).state;
    if e !in s.processed && HandleOrderCreated(env, s, e, msg).reply == Success(()) {
      var t := CreatedOutcome(env, s, e, msg);
      AttemptSends(env, s, t, msg.orderId);
    } else {
      SendsNothing(s, s');
    }
  }

  lemma AvailabilitySends(env: Env, s: State, e: EventId, d: DriverId, isAvailable: bool, at: Time)
    ensures Sends(s, UpdateAvailability(env, s, e, d, isAvailable, at))
  {
    hide Sends, RetryParked;
    if e !in s.processed && isAvailable {
      var t := SignOnOutcome(env, s, e, d, at);
      PassSends(env, s, t);
    } else {
      SendsNothing(s, UpdateAvailability(env, s, e, d, isAvailable, at));
    }
  }

  lemma CompletedSends(env: Env, s: State, e: EventId, o: OrderId)
    requires Inv(env, s)
    ensures Sends(s, CompleteDelivery(env, s, e, o))
  {
    hide Inv, Sends, RetryParked, ClosesLast, LetsGo;
    if e in s.processed {
      SendsNothing(s, CompleteDelivery(env, s, e, o));
    } else {
      var t := CompleteOutcome(env, s, e, o);
      if o in s.orders && s.orders[o].status == Assigned {
        PassSends(env, s, t);
      } else {
        SendsNothing(s, t);
      }
    }
  }

  lemma CancelledSends(env: Env, s: State, e: EventId, o: OrderId)
    requires Inv(env, s)
    ensures Sends(s, CancelOrder(env, s, e, o))
  {
    hide Inv, Sends, RetryParked, ClosesLast, LetsGo;
    if e in s.processed {
      PassSends(env, s, s.Ticked());
    } else {
      var t := CancelOutcome(env, s, e, o);
      PassSends(env, s, t);
    }
  }

  /** Accept and force-assign make no offer. */
  lemma AssignmentSends(env: Env, s: State, c: Command)
    requires Inv(env, s) && (c.DriverAccepts? || c.AdminForces?)
    ensures Sends(s, Next(env, s, c))
  {
    hide Inv, Sends, ClosesLast;
    if c.DriverAccepts? {
      AcceptOutcome(env, s, c.orderId, c.driverId);
    } else {
      ForceOutcome(env, s, c.orderId, c.driverId, c.known);
    }
    hide AcceptOffer, ForceAssign;
    SendsNothing(s, Next(env, s, c));
  }

  lemma RejectedSends(env: Env, s: State, o: OrderId, d: DriverId)
    requires Inv(env, s)
    ensures Sends(s, RejectOffer(env, s, o, d).state)
  {
    hide Inv, Sends, MovesOn;
    RejectOutcome(env, s, o, d);
    hide RejectOffer;
    if RejectOffer(env, s, o, d).reply == Success(()) {
      MoveOnSends(env, s, RejectOffer(env, s, o, d).state, o, Rejected);
    } else {
      SendsNothing(s, RejectOffer(env, s, o, d).state);
    }
  }

  lemma ExpiredSends(env: Env, s: State, t: Timer, ack: bool) returns (u: State)
    requires Inv(env, s)
    ensures Sends(s, u) && Next(env, s, OfferExpired(t, ack)) == if ack then u.(timers := u.timers - multiset{t}) else u
  {
    hide Inv, Sends, MovesOn, Next;
    u := ExpireOutcome(env, s, t, ack);
    if SameWorld(s, u) {
      SendsNothing(s, u);
    } else {
      MoveOnSends(env, s, u, t.orderId, Expired);
    }
  }

  /** Whatever a command does, it sends one message for each offer it makes, and no other. */
  lemma CommandSends(env: Env, s: State, c: Command) returns (u: State)
    requires Inv(env, s) && CreatedOnce(s, c)
    ensures Sends(s, u) && u.orders == Next(env, s, c).orders
    ensures Next(env, s, c).timers == if c.OfferExpired? && c.ack then u.timers - multiset{c.timer} else u.timers
  {
    hide Inv, Sends, HandleOrderCreated, UpdateAvailability, CompleteDelivery, CancelOrder, DeliverExpiry, AcceptOffer,
      RejectOffer, ForceAssign;
    u := Next(env, s, c);
    match c {
      case OrderCreated(e, msg) => CreatedSends(env, s, e, msg);
      case AvailabilityChanged(e, d, isAvailable, at) => AvailabilitySends(env, s, e, d, isAvailable, at);
      case DeliveryCompleted(e, o) => CompletedSends(env, s, e, o);
      case OrderCancelled(e, o) => CancelledSends(env, s, e, o);
      case OfferExpired(t, ack) => u := ExpiredSends(env, s, t, ack);
      case DriverRejects(o, d) => RejectedSends(env, s, o, d);
      case _ => AssignmentSends(env, s, c);
    }
  }

  /** Attempt `n` of its order was made, and its message is in the queue that many times. */
  ghost predicate Queued(s: State, t: Timer, exactly: bool) {
    var made := if 1 <= t.attemptNo <= OffersMade(s.orders, t.orderId) then 1 else 0;
    s.timers[t] <= made && (exactly ==> s.timers[t] == made)
  }

  lemma CountsOnlyGrow(env: Env, s: State, c: Command, o: OrderId)
    requires Inv(env, s) && CreatedOnce(s, c)
    ensures OffersMade(s.orders, o) <= OffersMade(Next(env, s, c).orders, o)
  {
    hide Inv, Leads, Next, Measure;
    NextLeads(env, false, s, c);
    LeadsKeepsInv(env, false, s, Next(env, s, c));
    LeadsEvolves(env, false, s, Next(env, s, c));
    if o in s.orders {
      OrderIsProper(env, s, o);
      OrderIsProper(env, Next(env, s, c), o);
    }
  }

  lemma {:induction false} MessagesFrom(env: Env, s: State, cs: seq<Command>, t: Timer, exactly: bool)
    requires Inv(env, s) && LegalRun(env, s, cs) && Queued(s, t, exactly)
    requires exactly ==> OfferExpired(t, true) !in cs
    ensures Queued(Run(env, s, cs), t, exactly)
    decreases |cs|
  {
    hide Inv, Leads, Next;
    if cs != [] {
      var s' := Next(env, s, cs[0]);
      NextLeads(env, false, s, cs[0]);
      LeadsKeepsInv(env, false, s, s');
      var u := CommandSends(env, s, cs[0]);
      CountsOnlyGrow(env, s, cs[0], t.orderId);
      assert Queued(s', t, exactly);
      MessagesFrom(env, s', cs[1..], t, exactly);
    }
  }

  /**
    The queue holds at most one message for an attempt, and only once the attempt is made. Until one is
    acknowledged it holds exactly one.
   */
  lemma OneMessagePerOffer(env: Env, cs: seq<Command>, t: Timer)
    requires LegalRun(env, START, cs)
    ensures var s := Reached(env, cs); var made := 1 <= t.attemptNo <= OffersMade(s.orders, t.orderId);
      && s.timers[t] <= (if made then 1 else 0)
      && (OfferExpired(t, true) !in cs ==> s.timers[t] == if made then 1 else 0)
  {
    hide Inv, Run, LegalRun;
    StartIsFine(env);
    MessagesFrom(env, START, cs, t, false);
    if OfferExpired(t, true) !in cs {
      MessagesFrom(env, START, cs, t, true);
    }
  }

  // ----- How orders end -----

  /** A completed or cancelled order is as it was at every later point of any run. */
  lemma EndedForGood(env: Env, cs: seq<Command>, ds: seq<Command>, o: OrderId)
    requires LegalRun(env, START, cs + ds) && o in Reached(env, cs).orders
    requires Reached(env, cs).orders[o].status in {Completed, Cancelled}
    ensures o in Reached(env, cs + ds).orders && Reached(env, cs + ds).orders[o] == Reached(env, cs).orders[o]
  {
    hide Inv, Run, RunOps, LegalRun, Life;
    var s := Reached(env, cs);
    RunSplits(env, START, cs, ds);
    ReachedInv(env, cs);
    RunAccounts(env, s, ds, o);
    LifeEnds(env.maxAttempts, s.orders[o], RunOps(env, s, ds, o), Run(env, s, ds).orders[o]);
  }

  /** An order is completed if and only if the run completed it, and cancelled if and only if it cancelled it. */
  lemma EndsAsToldTo(env: Env, cs: seq<Command>, o: OrderId)
    requires LegalRun(env, START, cs) && o in Reached(env, cs).orders
    ensures var ops, q := RunOps(env, START, cs, o), Reached(env, cs).orders[o];
      && (q.status == Completed <==> exists i :: 0 <= i < |ops| && ops[i].Complete?)
      && (q.status == Cancelled <==> exists i :: 0 <= i < |ops| && ops[i].Cancel?)
  {
    hide Inv, Run, RunOps, LegalRun, Life;
    var ops, q := RunOps(env, START, cs, o), Reached(env, cs).orders[o];
    StartIsFine(env);
    RunAccounts(env, START, cs, o);
    var p :| IsNew(p) && p.orderId == o && Life(env.maxAttempts, p, ops, q);
    LifeEnds(env.maxAttempts, p, ops, q);
  }

  /**
    A new cancellation of a live order, at any point of any run: from then on, for good, the order is
    cancelled, and nobody is ever offered it again.
   */
  lemma CancelledForGood(env: Env, cs: seq<Command>, e: EventId, o: OrderId, ds: seq<Command>)
    requires LegalRun(env, START, cs + [OrderCancelled(e, o)] + ds)
    requires e !in Reached(env, cs).processed && o in Reached(env, cs).orders
    requires Reached(env, cs).orders[o].status in {AwaitingDriver, Offered, Assigned}
    ensures var p, m := Reached(env, cs).orders[o], Reached(env, cs + [OrderCancelled(e, o)] + ds).orders;
      o in m && m[o].status == Cancelled && |m[o].attempts| == |p.attempts|
  {
    hide Inv, Run, LegalRun, Next, Reached, RetryParked;
    var c := OrderCancelled(e, o);
    RunSplits(env, START, cs + [c], ds);
    ReachedOne(env, cs, c);
    ReachedInv(env, cs);
    var t := CancelOutcome(env, Reached(env, cs), e, o);
    EndedForGood(env, cs + [c], ds, o);
  }

  /** The same for a new completion of an assigned order; it keeps its driver and its history. */
  lemma CompletedForGood(env: Env, cs: seq<Command>, e: EventId, o: OrderId, ds: seq<Command>)
    requires LegalRun(env, START, cs + [DeliveryCompleted(e, o)] + ds)
    requires e !in Reached(env, cs).processed && o in Reached(env, cs).orders
    requires Reached(env, cs).orders[o].status == Assigned
    ensures var p, m := Reached(env, cs).orders[o], Reached(env, cs + [DeliveryCompleted(e, o)] + ds).orders;
      && o in m && m[o].status == Completed
      && m[o].assignedDriverId == p.assignedDriverId && m[o].attempts == p.attempts
  {
    hide Inv, Run, LegalRun, Next, Reached, RetryParked;
    var c := DeliveryCompleted(e, o);
    RunSplits(env, START, cs + [c], ds);
    ReachedOne(env, cs, c);
    ReachedInv(env, cs);
    var t := CompleteOutcome(env, Reached(env, cs), e, o);
    EndedForGood(env, cs + [c], ds, o);
  }

  /** An accept that was told it succeeded is kept: the order is that driver's at every later point. */
  lemma AcceptedForGood(env: Env, cs: seq<Command>, o: OrderId, d: DriverId, ds: seq<Command>)
    requires LegalRun(env, START, cs + [DriverAccepts(o, d)] + ds)
    requires AcceptOffer(env, Reached(env, cs), o, d).reply == Success(())
    ensures var m := Reached(env, cs + [DriverAccepts(o, d)] + ds).orders;
      o in m && m[o].status in {Assigned, Completed, Cancelled} && m[o].assignedDriverId == Some(d)
  {
    hide Inv, Run, LegalRun, Reached, AcceptOffer, RunOps, Life;
    var c := DriverAccepts(o, d);
    RunsOn(env, cs + [c], ds);
    ReachedOne(env, cs, c);
    ReachedInv(env, cs);
    AcceptOutcome(env, Reached(env, cs), o, d);
    var s := Reached(env, cs + [c]);
    assert s.orders[o].status == Assigned && s.orders[o].assignedDriverId == Some(d);
    ReachedInv(env, cs + [c]);
    RunKeepsInv(env, s, ds);
    RunAccounts(env, s, ds, o);
    LifeEnds(env.maxAttempts, s.orders[o], RunOps(env, s, ds, o), Run(env, s, ds).orders[o]);
  }

  lemma RunsOn(env: Env, cs: seq<Command>, ds: seq<Command>)
    ensures Run(env, Reached(env, cs), ds) == Reached(env, cs + ds)
    ensures LegalRun(env, START, cs + ds) <==> LegalRun(env, START, cs) && LegalRun(env, Reached(env, cs), ds)
  {
    hide Run, LegalRun;
    RunSplits(env, START, cs, ds);
  }

  // ----- What an order says -----

  /** What the message said is what the order says, at every later point of the run. */
  lemma AnnouncementStands(env: Env, cs: seq<Command>, e: EventId, msg: OrderCreatedMessage, ds: seq<Command>)
    requires LegalRun(env, START, cs + [OrderCreated(e, msg)] + ds) && e !in Reached(env, cs).processed
    requires forall err :: !Refused(msg, err)
    ensures var m := Reached(env, cs + [OrderCreated(e, msg)] + ds).orders;
      msg.orderId in m && AsAnnounced(msg, m[msg.orderId], env.clock(Reached(env, cs).ticks))
  {
    hide Inv, Run, LegalRun, Reached, HandleOrderCreated, Attempt, AddressSnapshot.Of, ItemsOf;
    var c := OrderCreated(e, msg);
    ReachedOne(env, cs, c);
    var t := CreatedOutcome(env, Reached(env, cs), e, msg);
    assert HandleOrderCreated(env, Reached(env, cs), e, msg).reply == Success(());
    HistoryIsAppendOnly(env, cs + [c], ds, msg.orderId);
  }

  // ----- Who is offered work -----

  /** A message about driver `d` that has not been seen before. */
  predicate SaysNew(s: State, c: Command, d: DriverId) {
    c.AvailabilityChanged? && c.driverId == d && c.eventId !in s.processed
  }

  /** Every attempt added from `s` to `s'` is with a driver who wants work. */
  ghost predicate OnlyWilling(s: State, s': State) {
    forall o, i :: o in s'.orders && 0 <= i < |s'.orders[o].attempts|
                   && (o in s.orders ==> i >= |s.orders[o].attempts|) ==>
      s'.orders[o].attempts[i].driverId in s'.pool.willing
  }

  /** No attempt is added. */
  ghost predicate NoNewAttempt(s: State, t: State) {
    forall o :: o in t.orders ==>
      if o in s.orders then |t.orders[o].attempts| == |s.orders[o].attempts| else t.orders[o].attempts == []
  }

  lemma OnlyWillingOn(s: State, t: State, s': State)
    requires NoNewAttempt(s, t) && OnlyWilling(t, s') && s'.orders.Keys == t.orders.Keys
    ensures OnlyWilling(s, s')
  {
  }

  lemma NobodyNew(s: State, s': State)
    requires NoNewAttempt(s, s')
    ensures OnlyWilling(s, s')
  {
  }

  lemma PromotedIsWilling(env: Env, t: State, s': State, o: OrderId)
    requires t.pool.Valid() && Promoted(env, t, s', o)
    ensures |s'.orders[o].attempts| == |t.orders[o].attempts| + 1
    ensures s'.orders[o].attempts[|t.orders[o].attempts|].driverId in t.pool.willing
  {
    hide OpenOffer, SameOrder;
  }

  lemma OffersOnlyWilling(env: Env, t: State, s': State)
    requires t.pool.Valid() && OnlyOffers(env, t, s')
    ensures OnlyWilling(t, s') && s'.orders.Keys == t.orders.Keys
  {
    hide Promoted, NewMessages;
    forall o, i | o in s'.orders && |t.orders[o].attempts| <= i < |s'.orders[o].attempts|
      ensures s'.orders[o].attempts[i].driverId in s'.pool.willing
    {
      PromotedIsWilling(env, t, s', o);
    }
  }

  lemma LettingGoKeepsValid(p: Pool, d: DriverId, at: Time, p': Pool)
    requires p.Valid() && LetsGo(p, d, at, p')
    ensures p'.Valid() && p'.willing == p.willing
  {
  }

  /** The state a pass starts from, and what it leaves. */
  lemma PassOnlyWilling(env: Env, s: State, t: State)
    requires NoNewAttempt(s, t) && t.pool.Valid()
    ensures OnlyWilling(s, RetryParked(env, t)) && RetryParked(env, t).pool.willing == t.pool.willing
  {
    hide NoNewAttempt, OnlyWilling, RetryEach, RetryList, Promoted;
    PassOutcome(env, t, RetryList(t));
    OffersOnlyWilling(env, t, RetryParked(env, t));
    OnlyWillingOn(s, t, RetryParked(env, t));
  }

  lemma MoveOnOnlyWilling(env: Env, s: State, s': State, o: OrderId, outcome: OfferOutcome)
    requires s.pool.Valid() && MovesOn(env, s, s', o, outcome)
    ensures OnlyWilling(s, s') && s'.pool.willing == s.pool.willing
  {
    hide ClosesLast, SameOrder, SomebodyLeft, OpenOffer, LetsGo, OnlyWilling;
    var t, x: Option<DriverId> :| MovesOnBy(env, s, t, x, s', o, outcome);
    var d := s.orders[o].attempts[|s.orders[o].attempts| - 1].driverId;
    LettingGoKeepsValid(s.pool, d, env.clock(s.ticks + 1), t.pool);
    if s.orders[o].offerAttempts == env.maxAttempts || x == None {
      NobodyNew(s, s');
    } else {
      OneIsOnlyOffers(env, t, s', o, x.value);
      OffersOnlyWilling(env, t, s');
      OnlyWillingOn(s, t, s');
    }
  }

  /** Who is willing after a command: as the message said, if it was about them and new. */
  ghost predicate WillingAsSaid(s: State, c: Command, s': State) {
    forall d: DriverId :: d in s'.pool.willing <==> if SaysNew(s, c, d) then c.isAvailable else d in s.pool.willing
  }

  lemma SameWilling(s: State, c: Command, s': State)
    requires s'.pool.willing == s.pool.willing && (c.AvailabilityChanged? ==> c.eventId in s.processed)
    ensures WillingAsSaid(s, c, s')
  {
  }

  lemma AvailabilityOnlyWilling(env: Env, s: State, c: Command)
    requires Inv(env, s) && c.AvailabilityChanged?
    ensures OnlyWilling(s, Next(env, s, c)) && WillingAsSaid(s, c, Next(env, s, c))
  {
    hide Inv, OnlyWilling, RetryParked;
    PoolIsValid(env, s);
    if c.eventId in s.processed {
      NobodyNew(s, s);
      SameWilling(s, c, s);
    } else if c.isAvailable {
      var t := SignOnOutcome(env, s, c.eventId, c.driverId, c.changedAt);
      PassOnlyWilling(env, s, t);
    } else {
      SignOffOutcome(env, s, c.eventId, c.driverId, c.changedAt);
      NobodyNew(s, Next(env, s, c));
    }
  }

  lemma CreatedOnlyWilling(env: Env, s: State, e: EventId, msg: OrderCreatedMessage)
    requires Inv(env, s) && (e !in s.processed ==> msg.orderId !in s.orders)
    ensures var s' := HandleOrderCreated(env, s, e, msg).state;
      OnlyWilling(s, s') && s'.pool.willing == s.pool.willing
  {
    hide Inv, OnlyWilling, Attempt, Build;
    PoolIsValid(env, s);
    var s' := HandleOrderCreated(env, s, e, msg).state;
    if e !in s.processed && HandleOrderCreated(env, s, e, msg).reply == Success(()) {
      var t := CreatedOutcome(env, s, e, msg);
      AttemptOnlyOffers(env, t, msg.orderId);
      OffersOnlyWilling(env, t, s');
      OnlyWillingOn(s, t, s');
    } else {
      NobodyNew(s, s');
    }
  }

  /** Ending an order adds no attempt; the driver it lets go keeps their word. */
  lemma EndOnlyWilling(env: Env, s: State, t: State, o: OrderId, status: AssignmentStatus)
    requires s.pool.Valid() && Ends(env, s, t, o, status) && s.orders[o].status in {AwaitingDriver, Offered, Assigned}
    ensures NoNewAttempt(s, t) && t.pool.Valid() && t.pool.willing == s.pool.willing
  {
    hide ClosesLast, SameOrder, LetsGo;
    var p, at := s.orders[o], env.clock(s.ticks + 1);
    if p.status == Offered {
      LettingGoKeepsValid(s.pool, p.attempts[|p.attempts| - 1].driverId, at, t.pool);
    } else if p.status == Assigned {
      LettingGoKeepsValid(s.pool, p.assignedDriverId.value, at, t.pool);
    }
  }

  lemma EndingOnlyWilling(env: Env, s: State, c: Command)
    requires Inv(env, s) && (c.DeliveryCompleted? || c.OrderCancelled?)
    ensures var s' := Next(env, s, c); OnlyWilling(s, s') && s'.pool.willing == s.pool.willing
  {
    hide Inv, OnlyWilling, RetryParked, Ends, Next, NoNewAttempt;
    PoolIsValid(env, s);
    if c.eventId in s.processed {
      RepeatOnlyWilling(env, s, c);
    } else if c.OrderCancelled? {
      var t := CancelOutcome(env, s, c.eventId, c.orderId);
      if c.orderId in s.orders && s.orders[c.orderId].status in {AwaitingDriver, Offered, Assigned} {
        EndOnlyWilling(env, s, t, c.orderId, Cancelled);
      } else {
        SameAttempts(s, t);
      }
      PassOnlyWilling(env, s, t);
    } else {
      var t := CompleteOutcome(env, s, c.eventId, c.orderId);
      if c.orderId in s.orders && s.orders[c.orderId].status == Assigned {
        EndOnlyWilling(env, s, t, c.orderId, Completed);
        PassOnlyWilling(env, s, t);
      } else {
        SameAttempts(s, t);
        NobodyNew(s, t);
      }
    }
  }

  lemma SameAttempts(s: State, t: State)
    requires t.orders == s.orders
    ensures NoNewAttempt(s, t)
  {
  }

  lemma RepeatOnlyWilling(env: Env, s: State, c: Command)
    requires s.pool.Valid() && (c.DeliveryCompleted? || c.OrderCancelled?) && c.eventId in s.processed
    ensures var s' := Next(env, s, c); OnlyWilling(s, s') && s'.pool.willing == s.pool.willing
  {
    hide OnlyWilling, RetryParked;
    if c.OrderCancelled? {
      PassOnlyWilling(env, s, s.Ticked());
    } else {
      NobodyNew(s, Next(env, s, c));
    }
  }

  /** Accept, reject, expire and force-assign. */
  lemma AnswerOnlyWilling(env: Env, s: State, c: Command)
    requires Inv(env, s) && (c.DriverAccepts? || c.DriverRejects? || c.OfferExpired? || c.AdminForces?)
    ensures var s' := Next(env, s, c); OnlyWilling(s, s') && s'.pool.willing == s.pool.willing
  {
    hide Inv, OnlyWilling, MovesOn, ClosesLast, SameOrder, AcceptOffer, RejectOffer, ForceAssign, DeliverExpiry;
    PoolIsValid(env, s);
    var s' := Next(env, s, c);
    match c {
      case DriverAccepts(o, d) =>
        AcceptOutcome(env, s, o, d);
        NobodyNew(s, s');
      case AdminForces(o, d, known) =>
        ForceOutcome(env, s, o, d, known);
        NobodyNew(s, s');
      case DriverRejects(o, d) =>
        RejectOutcome(env, s, o, d);
        if RejectOffer(env, s, o, d).reply == Success(()) {
          MoveOnOnlyWilling(env, s, s', o, Rejected);
        } else {
          NobodyNew(s, s');
        }
      case OfferExpired(t, ack) =>
        var u := ExpireOutcome(env, s, t, ack);
        if SameWorld(s, u) {
          NobodyNew(s, u);
        } else {
          MoveOnOnlyWilling(env, s, u, t.orderId, Expired);
        }
        SameOnlyWilling(s, u, s');
    }
  }

  lemma SameOnlyWilling(s: State, u: State, s': State)
    requires OnlyWilling(s, u) && s'.orders == u.orders && s'.pool == u.pool
    ensures OnlyWilling(s, s')
  {
  }

  lemma CommandOnlyWilling(env: Env, s: State, c: Command)
    requires Inv(env, s) && CreatedOnce(s, c)
    ensures OnlyWilling(s, Next(env, s, c)) && WillingAsSaid(s, c, Next(env, s, c))
  {
    hide Inv, OnlyWilling, WillingAsSaid, HandleOrderCreated;
    match c {
      case OrderCreated(e, msg) => CreatedOnlyWilling(env, s, e, msg);
      case AvailabilityChanged(_, _, _, _) => AvailabilityOnlyWilling(env, s, c);
      case DeliveryCompleted(_, _) => EndingOnlyWilling(env, s, c);
      case OrderCancelled(_, _) => EndingOnlyWilling(env, s, c);
      case _ => AnswerOnlyWilling(env, s, c);
    }
    hide Next;
    if !c.AvailabilityChanged? {
      SameWilling(s, c, Next(env, s, c));
    }
  }

  /** The last new message about driver `d` in a run, or what held before it. */
  function LastWord(env: Env, s: State, cs: seq<Command>, d: DriverId, before: bool): bool
    decreases |cs|
  {
    if cs == [] then before else
    LastWord(env, Next(env, s, cs[0]), cs[1..], d, if SaysNew(s, cs[0], d) then cs[0].isAvailable else before)
  }

  /** A driver is willing exactly if the last new message about them said so. */
  lemma {:induction false} WillingIsAsSaid(env: Env, s: State, cs: seq<Command>, d: DriverId)
    requires Inv(env, s) && LegalRun(env, s, cs)
    ensures d in Run(env, s, cs).pool.willing <==> LastWord(env, s, cs, d, d in s.pool.willing)
    decreases |cs|
  {
    hide Inv, Leads, Next, OnlyWilling;
    if cs != [] {
      NextLeads(env, false, s, cs[0]);
      LeadsKeepsInv(env, false, s, Next(env, s, cs[0]));
      CommandOnlyWilling(env, s, cs[0]);
      WillingIsAsSaid(env, Next(env, s, cs[0]), cs[1..], d);
    }
  }

  /** No command of the run is a new message that signs driver `d` on. */
  predicate StaysAway(env: Env, s: State, cs: seq<Command>, d: DriverId)
    decreases |cs|
  {
    cs == [] || (!(SaysNew(s, cs[0], d) && cs[0].isAvailable) && StaysAway(env, Next(env, s, cs[0]), cs[1..], d))
  }

  lemma {:induction false} AwayGetsNothing(env: Env, s: State, cs: seq<Command>, d: DriverId, o: OrderId, i: nat)
    requires Inv(env, s) && LegalRun(env, s, cs) && StaysAway(env, s, cs, d) && d !in s.pool.willing
    requires o in Run(env, s, cs).orders && i < |Run(env, s, cs).orders[o].attempts|
    requires Run(env, s, cs).orders[o].attempts[i].driverId == d
    ensures o in s.orders && i < |s.orders[o].attempts|
    decreases |cs|
  {
    hide Inv, Leads, Next;
    if cs != [] {
      var t := Next(env, s, cs[0]);
      NextLeads(env, false, s, cs[0]);
      LeadsKeepsInv(env, false, s, t);
      CommandOnlyWilling(env, s, cs[0]);
      AwayGetsNothing(env, t, cs[1..], d, o, i);
      RunKeepsInv(env, t, cs[1..]);
      assert SameAttempt(t.orders[o].attempts[i], Run(env, t, cs[1..]).orders[o].attempts[i]);
    }
  }

  /** After a driver signs off, no order gets an offer to them until a later new message signs them on. */
  lemma SignedOffGetsNoOffer(
    env: Env, cs: seq<Command>, e: EventId, d: DriverId, at: Time, ds: seq<Command>, o: OrderId, i: nat)
    requires LegalRun(env, START, cs + [AvailabilityChanged(e, d, false, at)] + ds) && e !in Reached(env, cs).processed
    requires StaysAway(env, Reached(env, cs + [AvailabilityChanged(e, d, false, at)]), ds, d)
    requires var m := Reached(env, cs + [AvailabilityChanged(e, d, false, at)] + ds).orders;
      o in m && i < |m[o].attempts| && m[o].attempts[i].driverId == d
    ensures o in Reached(env, cs).orders && i < |Reached(env, cs).orders[o].attempts|
  {
    hide Inv, Run, LegalRun, Next, Reached, StaysAway;
    var c := AvailabilityChanged(e, d, false, at);
    RunsOn(env, cs + [c], ds);
    ReachedOne(env, cs, c);
    SignOffOutcome(env, Reached(env, cs), e, d, at);
    ReachedInv(env, cs + [c]);
    AwayGetsNothing(env, Reached(env, cs + [c]), ds, d, o, i);
  }
}
