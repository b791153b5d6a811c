/**
  Every use case is a path of small steps, one aggregate change each with its pool effect. What
  each step keeps, every run keeps.
 */
module Invariants {
  import opened Wrappers
  import opened Domain
  import opened AssignmentModel
  import opened PoolModel
  import opened RepositoryModel
  import opened DispatchModel

  type Orders = map<OrderId, AssignmentProps>

  // ----- The invariants -----

  ghost predicate OrdersOk(max: nat, m: Orders) {
    forall o :: o in m ==> m[o].orderId == o && Proper(max, m[o]) && Normal(m[o])
  }

  ghost predicate IdsOk(m: Orders, next: AttemptId) {
    && AllDistinctIds(m)
    && (forall o, i :: o in m && 0 <= i < |m[o].attempts| ==> m[o].attempts[i].id < next)
  }

  ghost predicate Holds(m: Orders, o: OrderId, d: DriverId) {
    o in m && m[o].Holder() == Some(d)
  }

  /** No driver is leaked: whoever is busy has an offered or assigned order. */
  ghost predicate NoLeak(m: Orders, busy: set<DriverId>) {
    forall d :: d in busy ==> exists o :: Holds(m, o, d)
  }

  /** Busy drivers and live orders correspond one to one. */
  ghost predicate Exclusive(m: Orders, busy: set<DriverId>) {
    && (forall d :: d in busy <==> exists o :: Holds(m, o, d))
    && (forall o, o', d :: Holds(m, o, d) && Holds(m, o', d) ==> o == o')
  }

  /** Every open offer has its expiry message on the way, and every message is for an offer that was made. */
  ghost predicate Timed(m: Orders, timers: multiset<Timer>) {
    && (forall o :: o in m && m[o].status == Offered ==> Timer(o, m[o].offerAttempts) in timers)
    && (forall t :: t in timers ==> t.orderId in m && 1 <= t.attemptNo <= m[t.orderId].offerAttempts)
  }

  /** What was published about one order, in order. */
  function LogOf(log: seq<DomainEvent>, o: OrderId): seq<DomainEvent> {
    if log == [] then [] else
    var n := |log| - 1;
    LogOf(log[..n], o) + if log[n].orderId == o then [log[n]] else []
  }

  ghost predicate AssignedLog(evs: seq<DomainEvent>, d: DriverId) {
    && 1 <= |evs| <= 2
    && evs[|evs| - 1].DriverAssigned? && evs[|evs| - 1].driverId == d
    && (|evs| == 2 ==> evs[0].AssignmentFailed?)
  }

  /** The log of an order is [], [Failed], [Assigned] or [Failed, Assigned], as its state says. */
  ghost predicate LogFits(p: AssignmentProps, evs: seq<DomainEvent>) {
    match p.assignedDriverId
    case Some(d) => AssignedLog(evs, d)
    case None => if p.status == Failed then |evs| == 1 && evs[0].AssignmentFailed? else evs == []
  }

  ghost predicate Logged(m: Orders, log: seq<DomainEvent>) {
    && (forall o :: o in m ==> LogFits(m[o], LogOf(log, o)))
    && (forall o: OrderId :: o !in m ==> LogOf(log, o) == [])
  }

  ghost predicate Inv(env: Env, s: State) {
    && OrdersOk(env.maxAttempts, s.orders)
    && IdsOk(s.orders, s.nextAttemptId)
    && s.pool.Valid()
    && NoLeak(s.orders, s.pool.busy)
    && Timed(s.orders, s.timers)
    && Logged(s.orders, s.log)
  }

  // ----- Small steps -----

  datatype Micro =
    | Placed(p: AssignmentProps)
    | Operated(o: OrderId, op: Operation, at: Time)
    | Exhausted(o: OrderId, op: Operation, at: Time, failedAt: Time)
    | Willing(d: DriverId, since: Time)
    | Unwilling(d: DriverId)
    | Idle(acked: multiset<Timer>)

  /** The aggregate's guard plus what the dispatch engine adds to it. */
  ghost predicate MayStep(env: Env, s: State, o: OrderId, op: Operation) {
    && o in s.orders && s.orders[o].Allows(op) && !op.Fail?
    && (op.Offer? ==>
          && s.orders[o].offerAttempts < env.maxAttempts
          && op.driverId in s.pool.available && op.driverId !in s.orders[o].TriedDriverIds()
          && op.id == s.nextAttemptId)
    && (op.Reject? || op.Expire? ==> s.orders[o].offerAttempts < env.maxAttempts)
  }

  function PoolAfterStep(pool: Pool, p: AssignmentProps, op: Operation, at: Time): Pool {
    match op
    case Offer(_, d, _, _) => pool.Take(d)
    case Force(d, _) => pool.MarkBusy(d)
    case Accept(_, _) => pool
    case _ => match p.Holder() case Some(d) => pool.FreeDriver(d, at) case None => pool
  }

  function TimersAfterStep(timers: multiset<Timer>, p: AssignmentProps, o: OrderId, op: Operation): multiset<Timer> {
    if op.Offer? then timers + multiset{Timer(o, p.offerAttempts + 1)} else timers
  }

  ghost predicate MayExhaust(env: Env, s: State, o: OrderId, op: Operation) {
    && o in s.orders && s.orders[o].Allows(op) && (op.Reject? || op.Expire?)
    && s.orders[o].offerAttempts == env.maxAttempts
  }

  ghost predicate SameWork(s: State, s': State) {
    && s'.orders == s.orders && s'.timers == s.timers && s'.log == s.log && s'.nextAttemptId == s.nextAttemptId
  }

  ghost predicate Does(env: Env, s: State, m: Micro, s': State) {
    && s.processed <= s'.processed
    && match m
       case Placed(p) =>
         && p.orderId !in s.orders && IsNew(p)
         && s'.orders == s.orders[p.orderId := p] && s'.pool == s.pool
         && s'.timers == s.timers && s'.log == s.log && s'.nextAttemptId == s.nextAttemptId
       case Operated(o, op, at) =>
         && MayStep(env, s, o, op)
         && s'.orders == s.orders[o := s.orders[o].After(op)]
         && s'.pool == PoolAfterStep(s.pool, s.orders[o], op, at)
         && s'.timers == TimersAfterStep(s.timers, s.orders[o], o, op)
         && s'.log == s.log + s.orders[o].EventsOf(op)
         && s'.nextAttemptId == s.nextAttemptId + if op.Offer? then 1 else 0
       case Exhausted(o, op, at, failedAt) =>
         && MayExhaust(env, s, o, op)
         && s'.orders == s.orders[o := s.orders[o].After(op).(status := Failed, updatedAt := failedAt)]
         && s'.pool == PoolAfterStep(s.pool, s.orders[o], op, at)
         && s'.timers == s.timers && s'.nextAttemptId == s.nextAttemptId
         && s'.log == s.log + [AssignmentFailed(o, failedAt)]
       case Willing(d, since) => SameWork(s, s') && s'.pool == s.pool.OnWilling(d, since)
       case Unwilling(d) => SameWork(s, s') && s'.pool == s.pool.OnUnwilling(d)
       case Idle(acked) =>
         && s'.orders == s.orders && s'.pool == s.pool && s'.log == s.log && s'.nextAttemptId == s.nextAttemptId
         && s'.timers == s.timers - acked
         && (forall t :: t in acked ==>
               !(t.orderId in s.orders && s.orders[t.orderId].status == Offered
                 && s.orders[t.orderId].offerAttempts == t.attemptNo))
  }

  // ----- One order through one step -----

  lemma StepKeepsProper(max: nat, p: AssignmentProps, op: Operation)
    requires Proper(max, p) && p.Allows(op) && !op.Fail?
    requires op.Offer? ==> p.offerAttempts < max && op.driverId !in p.TriedDriverIds()
    requires op.Reject? || op.Expire? ==> p.offerAttempts < max
    ensures Proper(max, p.After(op))
  {
    OperationKeepsSound(p, op);
  }

  lemma ExhaustKeepsProper(max: nat, p: AssignmentProps, op: Operation, failedAt: Time)
    requires Proper(max, p) && p.Allows(op) && (op.Reject? || op.Expire?) && p.offerAttempts == max
    ensures Proper(max, p.After(op).(status := Failed, updatedAt := failedAt))
  {
  }

  /** Who an order holds, before and after. */
  lemma HolderAfter(p: AssignmentProps, op: Operation)
    requires Sound(p) && p.Allows(op)
    ensures p.After(op).Holder()
      == if op.Offer? || op.Accept? || op.Force? then Some(op.driverId) else None
    ensures op.Offer? || op.Force? || op.Fail? ==> p.Holder() == None
    ensures op.Accept? || op.Reject? ==> p.Holder() == Some(op.driverId)
    ensures op.Expire? || op.Complete? ==> p.Holder().Some?
  {
  }

  // ----- Each small step keeps each invariant -----

  lemma NewIsProper(max: Positive, p: AssignmentProps)
    requires IsNew(p)
    ensures Proper(max, p)
  {
  }

  lemma StepKeepsIdentity(p: AssignmentProps, op: Operation)
    requires p.Allows(op)
    ensures var q := p.After(op);
      q.orderId == p.orderId && q.pickup == p.pickup && q.dropoff == p.dropoff && q.items == p.items
  {
  }

  lemma PutKeepsOrdersOk(max: nat, m: Orders, o: OrderId, q: AssignmentProps)
    requires OrdersOk(max, m) && q.orderId == o && Proper(max, q) && Normal(q)
    ensures OrdersOk(max, m[o := q])
  {
  }

  lemma KeepsOrdersOk(env: Env, s: State, m: Micro, s': State)
    requires OrdersOk(env.maxAttempts, s.orders) && Does(env, s, m, s')
    ensures OrdersOk(env.maxAttempts, s'.orders)
  {
    hide Sound, Within, AssignmentProps.After, PoolAfterStep;
    match m {
      case Operated(o, op, _) =>
        StepKeepsProper(env.maxAttempts, s.orders[o], op);
        StepKeepsIdentity(s.orders[o], op);
        PutKeepsOrdersOk(env.maxAttempts, s.orders, o, s'.orders[o]);
        hide OrdersOk;
      case Exhausted(o, op, _, failedAt) =>
        ExhaustKeepsProper(env.maxAttempts, s.orders[o], op, failedAt);
        StepKeepsIdentity(s.orders[o], op);
        PutKeepsOrdersOk(env.maxAttempts, s.orders, o, s'.orders[o]);
        hide OrdersOk;
      case Placed(p) =>
        NewIsProper(env.maxAttempts, p);
        PutKeepsOrdersOk(env.maxAttempts, s.orders, p.orderId, p);
        hide OrdersOk;
      case _ =>
    }
  }

  lemma KeepsIdsOk(env: Env, s: State, m: Micro, s': State)
    requires OrdersOk(env.maxAttempts, s.orders) && IdsOk(s.orders, s.nextAttemptId) && Does(env, s, m, s')
    ensures IdsOk(s'.orders, s'.nextAttemptId)
  {
    match m {
      case Placed(p) =>
        ExtendByNothingKeepsIds(s.orders, p, s.nextAttemptId);
      case Operated(o, op, _) =>
        IdsAfter(s.orders[o], op);
        StepKeepsIdsDistinct(s.orders, o, op);
      case Exhausted(o, op, _, failedAt) =>
        IdsAfter(s.orders[o], op);
        ExtendKeepsIdsDistinct(s.orders, o, s'.orders[o]);
      case _ =>
    }
  }

  lemma ExtendByNothingKeepsIds(m: Orders, p: AssignmentProps, next: AttemptId)
    requires IdsOk(m, next) && p.attempts == [] && p.orderId !in m
    ensures IdsOk(m[p.orderId := p], next)
  {
  }

  lemma KeepsPool(env: Env, s: State, m: Micro, s': State)
    requires s.pool.Valid() && Does(env, s, m, s')
    ensures s'.pool.Valid()
  {
  }

  /** The busy drivers after a step that turns order `o` into `q`. */
  ghost predicate BusyMoves(s: State, o: OrderId, q: AssignmentProps, s': State) {
    && s'.orders == s.orders[o := q]
    && (forall d :: d in s'.pool.busy <==>
          || (q.Holder() == Some(d) && (d in s.pool.busy || !Holds(s.orders, o, d)))
          || (d in s.pool.busy && !Holds(s.orders, o, d)))
  }

  lemma StepMovesBusy(env: Env, s: State, m: Micro, s': State)
    requires OrdersOk(env.maxAttempts, s.orders) && Does(env, s, m, s')
    ensures match m
            case Placed(p) => BusyMoves(s, p.orderId, p, s')
            case Operated(o, op, _) => BusyMoves(s, o, s'.orders[o], s')
            case Exhausted(o, op, _, _) => BusyMoves(s, o, s'.orders[o], s')
            case _ => s'.orders == s.orders && s'.pool.busy == s.pool.busy
  {
    hide Sound, Within;
    match m {
      case Operated(o, op, _) => OperatedMovesBusy(env, s, m, s');
      case Exhausted(o, op, _, _) => ExhaustedMovesBusy(env, s, m, s');
      case _ =>
    }
  }

  lemma OperatedMovesBusy(env: Env, s: State, m: Micro, s': State)
    requires OrdersOk(env.maxAttempts, s.orders) && m.Operated? && Does(env, s, m, s')
    ensures BusyMoves(s, m.o, s'.orders[m.o], s')
  {
    hide Sound, Within, AssignmentProps.After, AssignmentProps.Holder;
    HolderAfter(s.orders[m.o], m.op);
  }

  lemma ExhaustedMovesBusy(env: Env, s: State, m: Micro, s': State)
    requires OrdersOk(env.maxAttempts, s.orders) && m.Exhausted? && Does(env, s, m, s')
    ensures BusyMoves(s, m.o, s'.orders[m.o], s')
  {
  }

  lemma MoveKeepsNoLeak(s: State, o: OrderId, q: AssignmentProps, s': State)
    requires NoLeak(s.orders, s.pool.busy) && BusyMoves(s, o, q, s')
    ensures NoLeak(s'.orders, s'.pool.busy)
  {
    forall d | d in s'.pool.busy ensures exists o' :: Holds(s'.orders, o', d) {
      if q.Holder() == Some(d) {
        assert Holds(s'.orders, o, d);
      } else {
        var o' :| Holds(s.orders, o', d);
        assert Holds(s'.orders, o', d);
      }
    }
  }

  /** Exclusivity survives a step that takes on nobody who is already busy elsewhere. */
  lemma MoveKeepsExclusive(s: State, o: OrderId, q: AssignmentProps, s': State)
    requires Exclusive(s.orders, s.pool.busy) && BusyMoves(s, o, q, s')
    requires forall d :: q.Holder() == Some(d) && d in s.pool.busy ==> Holds(s.orders, o, d)
    ensures Exclusive(s'.orders, s'.pool.busy)
  {
    assert forall o', d :: o' != o ==> (Holds(s'.orders, o', d) <==> Holds(s.orders, o', d));
    forall d | d in s'.pool.busy ensures exists o' :: Holds(s'.orders, o', d) {
      if q.Holder() == Some(d) {
        assert Holds(s'.orders, o, d);
      } else {
        var o' :| Holds(s.orders, o', d);
        assert Holds(s'.orders, o', d);
      }
    }
  }

  lemma KeepsNoLeak(env: Env, s: State, m: Micro, s': State)
    requires OrdersOk(env.maxAttempts, s.orders) && NoLeak(s.orders, s.pool.busy) && Does(env, s, m, s')
    ensures NoLeak(s'.orders, s'.pool.busy)
  {
    hide Does;
    StepMovesBusy(env, s, m, s');
    match m {
      case Placed(p) => MoveKeepsNoLeak(s, p.orderId, p, s');
      case Operated(o, _, _) => MoveKeepsNoLeak(s, o, s'.orders[o], s');
      case Exhausted(o, _, _, _) => MoveKeepsNoLeak(s, o, s'.orders[o], s');
      case _ =>
    }
  }

  ghost predicate Polite(s: State, m: Micro) {
    m.Operated? && m.op.Force? ==> m.op.driverId !in s.pool.busy
  }

  lemma KeepsExclusive(env: Env, s: State, m: Micro, s': State)
    requires OrdersOk(env.maxAttempts, s.orders) && s.pool.Valid()
    requires Exclusive(s.orders, s.pool.busy) && Does(env, s, m, s') && Polite(s, m)
    ensures Exclusive(s'.orders, s'.pool.busy)
  {
    StepMovesBusy(env, s, m, s');
    match m {
      case Placed(p) => MoveKeepsExclusive(s, p.orderId, p, s');
      case Operated(o, op, _) =>
        HolderAfter(s.orders[o], op);
        MoveKeepsExclusive(s, o, s'.orders[o], s');
      case Exhausted(o, op, _, _) =>
        HolderAfter(s.orders[o], op);
        MoveKeepsExclusive(s, o, s'.orders[o], s');
      case _ =>
    }
  }

  lemma OffersAfter(p: AssignmentProps, op: Operation)
    requires p.Allows(op)
    ensures var q := p.After(op);
      && q.offerAttempts == p.offerAttempts + (if op.Offer? then 1 else 0)
      && (q.status == Offered <==> op.Offer?)
  {
  }

  /** One order takes or loses an offer; a new offer brings its message. */
  lemma MoveKeepsTimed(s: State, o: OrderId, q: AssignmentProps, s': State)
    requires Timed(s.orders, s.timers) && s'.orders == s.orders[o := q]
    requires o in s.orders ==> s.orders[o].offerAttempts <= q.offerAttempts
    requires if q.status == Offered
      then q.offerAttempts >= 1 && s'.timers == s.timers + multiset{Timer(o, q.offerAttempts)}
      else s'.timers == s.timers
    ensures Timed(s'.orders, s'.timers)
  {
    forall t | t in s'.timers
      ensures t.orderId in s'.orders && 1 <= t.attemptNo <= s'.orders[t.orderId].offerAttempts
    {
      assert t in s.timers || (q.status == Offered && t == Timer(o, q.offerAttempts));
    }
  }

  lemma AckKeepsTimed(s: State, acked: multiset<Timer>, s': State)
    requires Timed(s.orders, s.timers) && s'.orders == s.orders && s'.timers == s.timers - acked
    requires forall t :: t in acked ==>
      !(t.orderId in s.orders && s.orders[t.orderId].status == Offered
        && s.orders[t.orderId].offerAttempts == t.attemptNo)
    ensures Timed(s'.orders, s'.timers)
  {
  }

  lemma KeepsTimed(env: Env, s: State, m: Micro, s': State)
    requires Timed(s.orders, s.timers) && Does(env, s, m, s')
    ensures Timed(s'.orders, s'.timers)
  {
    hide Timed, AssignmentProps.After, AssignmentProps.Allows, PoolAfterStep;
    match m {
      case Placed(p) =>
        MoveKeepsTimed(s, p.orderId, p, s');
      case Operated(o, op, _) =>
        OffersAfter(s.orders[o], op);
        MoveKeepsTimed(s, o, s'.orders[o], s');
      case Exhausted(o, op, _, _) =>
        OffersAfter(s.orders[o], op);
        MoveKeepsTimed(s, o, s'.orders[o], s');
      case Idle(acked) =>
        AckKeepsTimed(s, acked, s');
      case _ =>
    }
  }

  lemma LogOfAppend(log: seq<DomainEvent>, ev: DomainEvent, o: OrderId)
    ensures LogOf(log + [ev], o) == LogOf(log, o) + if ev.orderId == o then [ev] else []
  {
    assert (log + [ev])[..|log|] == log;
  }

  lemma LogFitsAfter(p: AssignmentProps, op: Operation, evs: seq<DomainEvent>)
    requires Sound(p) && p.Allows(op) && LogFits(p, evs)
    ensures LogFits(p.After(op), evs + p.EventsOf(op))
  {
  }

  lemma AppendKeepsLogged(m: Orders, log: seq<DomainEvent>, o: OrderId, q: AssignmentProps, evs: seq<DomainEvent>)
    requires Logged(m, log) && |evs| <= 1 && (evs != [] ==> evs[0].orderId == o)
    requires LogFits(q, LogOf(log, o) + evs)
    ensures Logged(m[o := q], log + evs)
  {
    hide LogFits;
    forall o': OrderId ensures LogOf(log + evs, o') == if o' == o then LogOf(log, o') + evs else LogOf(log, o') {
      LogOfAppendAll(log, evs, o, o');
    }
  }

  lemma LogOfAppendAll(log: seq<DomainEvent>, evs: seq<DomainEvent>, o: OrderId, o': OrderId)
    requires |evs| <= 1 && (evs != [] ==> evs[0].orderId == o)
    ensures LogOf(log + evs, o') == if o' == o then LogOf(log, o') + evs else LogOf(log, o')
  {
    hide LogOf;
    if evs == [] {
      assert log + evs == log && LogOf(log, o') + evs == LogOf(log, o');
    } else {
      assert evs == [evs[0]];
      LogOfAppend(log, evs[0], o');
    }
  }

  lemma KeepsLogged(env: Env, s: State, m: Micro, s': State)
    requires OrdersOk(env.maxAttempts, s.orders) && Logged(s.orders, s.log) && Does(env, s, m, s')
    ensures Logged(s'.orders, s'.log)
  {
    hide LogFits, LogOf;
    match m {
      case Placed(p) =>
        PlacedLogFits(p, LogOf(s.log, p.orderId));
        AppendKeepsLogged(s.orders, s.log, p.orderId, p, []);
        assert s.log + [] == s.log;
      case Operated(o, op, _) =>
        LogFitsAfter(s.orders[o], op, LogOf(s.log, o));
        AppendKeepsLogged(s.orders, s.log, o, s.orders[o].After(op), s.orders[o].EventsOf(op));
      case Exhausted(o, op, _, failedAt) =>
        ExhaustedLogFits(s.orders[o], op, failedAt, LogOf(s.log, o));
        AppendKeepsLogged(s.orders, s.log, o, s'.orders[o], [AssignmentFailed(o, failedAt)]);
      case _ =>
    }
  }

  lemma PlacedLogFits(p: AssignmentProps, evs: seq<DomainEvent>)
    requires IsNew(p) && evs == []
    ensures LogFits(p, evs + [])
  {
  }

  lemma ExhaustedLogFits(p: AssignmentProps, op: Operation, failedAt: Time, evs: seq<DomainEvent>)
    requires Sound(p) && p.Allows(op) && (op.Reject? || op.Expire?) && LogFits(p, evs)
    ensures LogFits(p.After(op).(status := Failed, updatedAt := failedAt),
                    evs + [AssignmentFailed(p.orderId, failedAt)])
  {
  }
}
