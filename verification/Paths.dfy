/** From use cases to small steps, and from small steps to whole runs. */
module Paths {
  import opened Wrappers
  import opened Domain
  import opened ValueObjects
  import opened AssignmentModel
  import opened PoolModel
  import opened RepositoryModel
  import opened DispatchModel
  import opened Invariants

  datatype Path = Path(states: seq<State>, micros: seq<Micro>)

  ghost predicate IsPath(env: Env, p: Path) {
    && |p.states| == |p.micros| + 1
    && (forall i :: 0 <= i < |p.micros| ==> Does(env, p.states[i], p.micros[i], p.states[i + 1]))
  }

  ghost predicate PolitePath(p: Path) {
    |p.states| == |p.micros| + 1 && forall i :: 0 <= i < |p.micros| ==> Polite(p.states[i], p.micros[i])
  }

  ghost predicate Connects(env: Env, p: Path, polite: bool, s: State, s': State) {
    && IsPath(env, p) && p.states[0] == s && p.states[|p.micros|] == s'
    && (polite ==> PolitePath(p))
  }

  /** `s'` is reached by small steps; if `polite`, none of them forces a busy driver. */
  ghost predicate Leads(env: Env, polite: bool, s: State, s': State) {
    exists p :: Connects(env, p, polite, s, s')
  }

  lemma LeadsHere(env: Env, polite: bool, s: State)
    ensures Leads(env, polite, s, s)
  {
    assert Connects(env, Path([s], []), polite, s, s);
  }

  lemma LeadsOne(env: Env, polite: bool, s: State, m: Micro, s': State)
    requires Does(env, s, m, s') && (polite ==> Polite(s, m))
    ensures Leads(env, polite, s, s')
  {
    assert Connects(env, Path([s, s'], [m]), polite, s, s');
  }

  lemma LeadsOn(env: Env, polite: bool, s: State, t: State, u: State)
    requires Leads(env, polite, s, t) && Leads(env, polite, t, u)
    ensures Leads(env, polite, s, u)
  {
    var p :| Connects(env, p, polite, s, t);
    var q :| Connects(env, q, polite, t, u);
    var r := Path(p.states + q.states[1..], p.micros + q.micros);
    forall i | 0 <= i < |r.micros|
      ensures Does(env, r.states[i], r.micros[i], r.states[i + 1])
      ensures polite ==> Polite(r.states[i], r.micros[i])
    {
      if i >= |p.micros| {
        var j := i - |p.micros|;
        assert r.states[i] == q.states[j] && r.states[i + 1] == q.states[j + 1] && r.micros[i] == q.micros[j];
      } else {
        assert r.states[i] == p.states[i] && r.states[i + 1] == p.states[i + 1] && r.micros[i] == p.micros[i];
      }
    }
    assert Connects(env, r, polite, s, u);
  }

  // ----- What paths keep -----

  lemma StartIsFine(env: Env)
    ensures Inv(env, START) && Exclusive(START.orders, START.pool.busy)
  {
  }

  lemma StepKeepsInv(env: Env, s: State, m: Micro, s': State)
    requires Inv(env, s) && Does(env, s, m, s')
    ensures Inv(env, s')
  {
    hide OrdersOk, IdsOk, NoLeak, Timed, Logged, Does;
    KeepsOrdersOk(env, s, m, s');
    KeepsIdsOk(env, s, m, s');
    KeepsPool(env, s, m, s');
    KeepsNoLeak(env, s, m, s');
    KeepsTimed(env, s, m, s');
    KeepsLogged(env, s, m, s');
  }

  lemma {:induction false} PathKeepsInv(env: Env, p: Path, n: nat)
    requires IsPath(env, p) && Inv(env, p.states[0]) && n <= |p.micros|
    ensures Inv(env, p.states[n])
  {
    hide Inv, Does;
    if n > 0 {
      PathKeepsInv(env, p, n - 1);
      StepKeepsInv(env, p.states[n - 1], p.micros[n - 1], p.states[n]);
    }
  }

  lemma LeadsKeepsInv(env: Env, polite: bool, s: State, s': State)
    requires Inv(env, s) && Leads(env, polite, s, s')
    ensures Inv(env, s')
  {
    hide Inv;
    var p :| Connects(env, p, polite, s, s');
    PathKeepsInv(env, p, |p.micros|);
  }

  lemma {:induction false} PathKeepsExclusive(env: Env, p: Path, n: nat)
    requires IsPath(env, p) && PolitePath(p) && Inv(env, p.states[0]) && n <= |p.micros|
    requires Exclusive(p.states[0].orders, p.states[0].pool.busy)
    ensures Exclusive(p.states[n].orders, p.states[n].pool.busy)
  {
    hide OrdersOk, IdsOk, NoLeak, Timed, Logged, Exclusive, Does, Polite;
    if n > 0 {
      PathKeepsExclusive(env, p, n - 1);
      PathKeepsInv(env, p, n - 1);
      KeepsExclusive(env, p.states[n - 1], p.micros[n - 1], p.states[n]);
    }
  }

  /** How two states of one run compare. */
  ghost predicate Evolves(max: nat, s: State, s': State) {
    && s.processed <= s'.processed && s.log <= s'.log
    && (forall o :: o in s.orders ==> o in s'.orders && OrderEvolves(max, s.orders[o], s'.orders[o]))
  }

  /** History only grows, and any change at all lowers the measure. */
  ghost predicate OrderEvolves(max: nat, p: AssignmentProps, q: AssignmentProps) {
    Continues(p, q) && (q == p || Measure(max, q) < Measure(max, p))
  }

  lemma StepEvolves(env: Env, s: State, m: Micro, s': State)
    requires OrdersOk(env.maxAttempts, s.orders) && Does(env, s, m, s')
    ensures Evolves(env.maxAttempts, s, s')
  {
    forall o | o in s.orders ensures o in s'.orders && OrderEvolves(env.maxAttempts, s.orders[o], s'.orders[o]) {
      hide Continues, Measure, Sound, OrderEvolves;
      OrderStays(env.maxAttempts, s.orders[o]);
      if m.Operated? && m.o == o {
        OrderSteps(env.maxAttempts, s.orders[o], m.op);
      } else if m.Exhausted? && m.o == o {
        OrderExhausts(env.maxAttempts, s.orders[o], m.op, m.failedAt);
      }
    }
  }

  lemma OrderStays(max: nat, p: AssignmentProps)
    ensures OrderEvolves(max, p, p)
  {
  }

  lemma OrderSteps(max: nat, p: AssignmentProps, op: Operation)
    requires Proper(max, p) && p.Allows(op) && (op.Offer? ==> p.offerAttempts < max)
    ensures OrderEvolves(max, p, p.After(op))
  {
  }

  lemma OrderExhausts(max: nat, p: AssignmentProps, op: Operation, failedAt: Time)
    requires Proper(max, p) && p.Allows(op) && (op.Reject? || op.Expire?)
    ensures OrderEvolves(max, p, p.After(op).(status := Failed, updatedAt := failedAt))
  {
  }

  lemma EvolvesOn(max: nat, s: State, t: State, u: State)
    requires Evolves(max, s, t) && Evolves(max, t, u)
    ensures Evolves(max, s, u)
  {
  }

  lemma EvolvesHere(max: nat, s: State)
    ensures Evolves(max, s, s)
  {
  }

  lemma {:induction false} PathEvolves(env: Env, p: Path, n: nat)
    requires IsPath(env, p) && Inv(env, p.states[0]) && n <= |p.micros|
    ensures Evolves(env.maxAttempts, p.states[0], p.states[n])
  {
    hide OrdersOk, IdsOk, NoLeak, Timed, Logged, Does, Evolves;
    EvolvesHere(env.maxAttempts, p.states[0]);
    if n > 0 {
      PathEvolves(env, p, n - 1);
      PathKeepsInv(env, p, n - 1);
      StepEvolves(env, p.states[n - 1], p.micros[n - 1], p.states[n]);
      EvolvesOn(env.maxAttempts, p.states[0], p.states[n - 1], p.states[n]);
    }
  }

  lemma LeadsEvolves(env: Env, polite: bool, s: State, s': State)
    requires Inv(env, s) && Leads(env, polite, s, s')
    ensures Evolves(env.maxAttempts, s, s')
  {
    hide Inv, Evolves;
    var p :| Connects(env, p, polite, s, s');
    PathEvolves(env, p, |p.micros|);
  }

  // ----- Each use case is a path -----

  /** The offer an attempt makes when it claims a driver. */
  function AttemptedOffer(env: Env, s: State, d: DriverId): Operation {
    Offer(s.nextAttemptId, d, s.Now(env), s.Now(env) + env.ttlSeconds * 1000)
  }

  lemma AttemptDoes(env: Env, s: State, o: OrderId, d: DriverId)
    requires s.IsParked(o) && s.orders[o].offerAttempts < env.maxAttempts
    requires s.pool.Claim(s.orders[o].TriedDriverIds()) == Some(d)
    ensures Does(env, s, Operated(o, AttemptedOffer(env, s, d), 0), Attempt(env, s, o))
  {
    hide Pool.Claim, AssignmentProps.After, DeclinedDrivers;
    ClaimedIsEligible(s.pool, s.orders[o].TriedDriverIds());
    assert s.log + [] == s.log;
  }

  lemma AttemptLeads(env: Env, polite: bool, s: State, o: OrderId)
    requires Inv(env, s)
    ensures Leads(env, polite, s, Attempt(env, s, o))
  {
    hide Inv, Leads, Does, MakeOffer;
    LeadsHere(env, polite, s);
    if s.IsParked(o) {
      OrderIsProper(env, s, o);
      match s.pool.Claim(s.orders[o].TriedDriverIds()) {
        case None =>
        case Some(d) =>
          AttemptDoes(env, s, o, d);
          LeadsOne(env, polite, s, Operated(o, AttemptedOffer(env, s, d), 0), Attempt(env, s, o));
      }
    }
  }

  lemma {:induction false} RetryLeads(env: Env, polite: bool, s: State, list: seq<OrderId>)
    requires Inv(env, s)
    ensures Leads(env, polite, s, RetryEach(env, s, list))
    decreases |list|
  {
    hide Inv, Leads, Attempt;
    if list == [] {
      LeadsHere(env, polite, s);
    } else {
      var t := Attempt(env, s, list[0]);
      AttemptLeads(env, polite, s, list[0]);
      LeadsKeepsInv(env, polite, s, t);
      RetryLeads(env, polite, t, list[1..]);
      LeadsOn(env, polite, s, t, RetryEach(env, t, list[1..]));
    }
  }

  /** A step followed by a retry pass. */
  lemma StepThenRetry(env: Env, polite: bool, s: State, m: Micro, t: State)
    requires Inv(env, s) && Does(env, s, m, t) && (polite ==> Polite(s, m))
    ensures Leads(env, polite, s, RetryParked(env, t))
  {
    hide Inv, Leads, Does, Polite;
    LeadsOne(env, polite, s, m, t);
    LeadsKeepsInv(env, polite, s, t);
    RetryLeads(env, polite, t, RetryList(t));
    LeadsOn(env, polite, s, t, RetryParked(env, t));
  }

  lemma OrderCreatedLeads(env: Env, polite: bool, s: State, e: EventId, msg: OrderCreatedMessage)
    requires Inv(env, s) && (e !in s.processed ==> msg.orderId !in s.orders)
    ensures Leads(env, polite, s, HandleOrderCreated(env, s, e, msg).state)
  {
    hide Inv, Leads, Attempt;
    var s1 := s.Ticked();
    if e in s.processed || Build(msg, s.Now(env)).Failure? {
      LeadsOne(env, polite, s, Idle(multiset{}), s1);
    } else {
      var p := Build(msg, s.Now(env)).value;
      AddressOfIsNormal(msg.pickup);
      AddressOfIsNormal(msg.dropoff);
      ItemsOfAreNormal(msg.items);
      var s2 := Announced(s, e, msg.orderId, p);
      LeadsOne(env, polite, s, Placed(p), s2);
      LeadsKeepsInv(env, polite, s, s2);
      AttemptLeads(env, polite, s2, msg.orderId);
      LeadsOn(env, polite, s, s2, Attempt(env, s2, msg.orderId));
    }
  }

  lemma AvailabilityLeads(
    env: Env, polite: bool, s: State, e: EventId, d: DriverId, isAvailable: bool, changedAt: Time)
    requires Inv(env, s)
    ensures Leads(env, polite, s, UpdateAvailability(env, s, e, d, isAvailable, changedAt))
  {
    hide Inv, Leads, RetryParked;
    var s1 := s.(processed := s.processed + {e});
    if e in s.processed {
      LeadsHere(env, polite, s);
    } else if isAvailable {
      StepThenRetry(env, polite, s, Willing(d, changedAt), s1.(pool := s1.pool.OnWilling(d, changedAt)));
    } else {
      LeadsOne(env, polite, s, Unwilling(d), s1.(pool := s1.pool.OnUnwilling(d)));
    }
  }

  lemma CompleteLeads(env: Env, polite: bool, s: State, e: EventId, o: OrderId)
    requires Inv(env, s)
    ensures Leads(env, polite, s, CompleteDelivery(env, s, e, o))
  {
    hide Leads, RetryParked, Inv, Does;
    var (s1, freed) := CompleteInTransaction(env, s, e, o);
    match freed {
      case None =>
        CompleteDoes(env, s, e, o);
        LeadsOne(env, polite, s, Idle(multiset{}), s1);
      case Some(d) =>
        CompleteDoes(env, s, e, o);
        StepThenRetry(env, polite, s, Operated(o, Complete(s.Now(env)), s1.Now(env)), s1.Freed(env, d));
    }
  }

  lemma CompleteDoes(env: Env, s: State, e: EventId, o: OrderId)
    requires Inv(env, s)
    ensures var (s1, freed) := CompleteInTransaction(env, s, e, o);
      match freed
      case None => Does(env, s, Idle(multiset{}), s1)
      case Some(d) => Does(env, s, Operated(o, Complete(s.Now(env)), s1.Now(env)), s1.Freed(env, d))
  {
    hide IdsOk, NoLeak, Timed, Logged, AssignmentProps.After;
    if o in s.orders {
      OrderIsProper(env, s, o);
    }
    assert s.log + [] == s.log;
  }

  lemma CancelLeads(env: Env, polite: bool, s: State, e: EventId, o: OrderId)
    requires Inv(env, s)
    ensures Leads(env, polite, s, CancelOrder(env, s, e, o))
  {
    hide Leads, RetryParked, Inv;
    var (s1, freed) := CancelInTransaction(env, s, e, o);
    var op := Operation.Cancel(s.Now(env));
    if e in s.processed || o !in s.orders || !s.orders[o].Allows(op) {
      StepThenRetry(env, polite, s, Idle(multiset{}), s1);
    } else {
      var t := match freed case None => s1 case Some(d) => s1.Freed(env, d);
      StepThenRetry(env, polite, s, Operated(o, op, s1.Now(env)), t);
    }
  }

  lemma AcceptLeads(env: Env, polite: bool, s: State, o: OrderId, d: DriverId)
    requires Inv(env, s)
    ensures Leads(env, polite, s, AcceptOffer(env, s, o, d).state)
  {
    hide Leads, Inv;
    var t := AcceptOffer(env, s, o, d).state;
    var op := Operation.Accept(d, s.Now(env));
    if o in s.orders && s.orders[o].Allows(op) {
      LeadsOne(env, polite, s, Operated(o, op, 0), t);
    } else {
      LeadsOne(env, polite, s, Idle(multiset{}), t);
    }
  }

  lemma DeclineLeads(env: Env, polite: bool, s: State, o: OrderId, op: Operation)
    requires Inv(env, s) && o in s.orders && s.orders[o].Allows(op) && (op.Reject? || op.Expire?)
    ensures Leads(env, polite, s, Decline(env, s, o, op))
  {
    hide Leads, Attempt, Inv, Does, MakeOffer;
    OrderIsProper(env, s, o);
    if s.orders[o].offerAttempts >= env.maxAttempts {
      ExhaustDoes(env, s, o, op);
      LeadsOne(env, polite, s, Exhausted(o, op, s.Ticked().Now(env), s.Ticked().Ticked().Now(env)),
               Decline(env, s, o, op));
    } else {
      var t := Declined(env, s, o, op);
      DeclineDoes(env, s, o, op);
      LeadsOne(env, polite, s, Operated(o, op, s.Ticked().Now(env)), t);
      LeadsKeepsInv(env, polite, s, t);
      AttemptLeads(env, polite, t, o);
      LeadsOn(env, polite, s, t, Attempt(env, t, o));
    }
  }

  lemma OrderIsProper(env: Env, s: State, o: OrderId)
    requires Inv(env, s) && o in s.orders
    ensures Proper(env.maxAttempts, s.orders[o]) && s.orders[o].orderId == o
  {
  }

  /** Saved and freed, not yet failed or retried. */
  function Declined(env: Env, s: State, o: OrderId, op: Operation): State
    requires o in s.orders && s.orders[o].Allows(op) && (op.Reject? || op.Expire?)
  {
    var p := s.orders[o];
    s.Ticked().Put(o, p.After(op)).Freed(env, p.attempts[|p.attempts| - 1].driverId)
  }

  lemma DeclineDoes(env: Env, s: State, o: OrderId, op: Operation)
    requires o in s.orders && s.orders[o].Allows(op) && (op.Reject? || op.Expire?)
    requires s.orders[o].offerAttempts < env.maxAttempts
    ensures Does(env, s, Operated(o, op, s.Ticked().Now(env)), Declined(env, s, o, op))
  {
    assert s.log + [] == s.log;
  }

  lemma ExhaustDoes(env: Env, s: State, o: OrderId, op: Operation)
    requires o in s.orders && s.orders[o].Allows(op) && (op.Reject? || op.Expire?)
    requires s.orders[o].offerAttempts == env.maxAttempts && s.orders[o].orderId == o
    ensures Does(env, s, Exhausted(o, op, s.Ticked().Now(env), s.Ticked().Ticked().Now(env)), Decline(env, s, o, op))
  {
  }

  lemma RejectLeads(env: Env, polite: bool, s: State, o: OrderId, d: DriverId)
    requires Inv(env, s)
    ensures Leads(env, polite, s, RejectOffer(env, s, o, d).state)
  {
    hide Leads, Inv, Decline;
    var op := Reject(d, s.Now(env));
    if o in s.orders && s.orders[o].Allows(op) {
      DeclineLeads(env, polite, s, o, op);
    } else {
      LeadsOne(env, polite, s, Idle(multiset{}), RejectOffer(env, s, o, d).state);
    }
  }

  lemma ExpireLeads(env: Env, polite: bool, s: State, o: OrderId, n: nat)
    requires Inv(env, s)
    ensures Leads(env, polite, s, ExpireOffer(env, s, o, n))
  {
    hide Leads, Inv, Decline;
    var op := Expire(n, s.Now(env));
    if o in s.orders && s.orders[o].Allows(op) {
      DeclineLeads(env, polite, s, o, op);
    } else {
      LeadsOne(env, polite, s, Idle(multiset{}), ExpireOffer(env, s, o, n));
    }
  }

  /** Whatever was delivered before: after its expiry message, attempt `n` is not an open offer. */
  lemma DeliveryEndsOffer(env: Env, s: State, o: OrderId, n: nat)
    requires Inv(env, s)
    ensures var s' := ExpireOffer(env, s, o, n);
      !(o in s'.orders && s'.orders[o].status == Offered && s'.orders[o].offerAttempts == n)
  {
    if o in s.orders && s.orders[o].status == Offered && s.orders[o].offerAttempts == n {
      assert Proper(env.maxAttempts, s.orders[o]);
      assert s.orders[o].Allows(Expire(n, s.Now(env)));
    }
  }

  lemma DeliveryLeads(env: Env, polite: bool, s: State, t: Timer, ack: bool)
    requires Inv(env, s)
    ensures Leads(env, polite, s, DeliverExpiry(env, s, t, ack))
  {
    hide Leads, Inv, ExpireOffer;
    var s1 := ExpireOffer(env, s, t.orderId, t.attemptNo);
    ExpireLeads(env, polite, s, t.orderId, t.attemptNo);
    if ack {
      DeliveryEndsOffer(env, s, t.orderId, t.attemptNo);
      LeadsOne(env, polite, s1, Idle(multiset{t}), DeliverExpiry(env, s, t, ack));
      LeadsOn(env, polite, s, s1, DeliverExpiry(env, s, t, ack));
    }
  }

  lemma ForceLeads(env: Env, polite: bool, s: State, o: OrderId, d: DriverId, known: bool)
    requires Inv(env, s) && (polite ==> d !in s.pool.busy)
    ensures Leads(env, polite, s, ForceAssign(env, s, o, d, known).state)
  {
    hide Leads, Inv;
    var op := Force(d, s.Now(env));
    var t := ForceAssign(env, s, o, d, known).state;
    if known && o in s.orders && s.orders[o].Allows(op) {
      LeadsOne(env, polite, s, Operated(o, op, 0), t);
    } else {
      LeadsOne(env, polite, s, Idle(multiset{}), t);
    }
  }

  lemma NextLeads(env: Env, polite: bool, s: State, c: Command)
    requires Inv(env, s) && CreatedOnce(s, c) && (polite ==> ForcesFreeDriver(s, c))
    ensures Leads(env, polite, s, Next(env, s, c))
  {
    hide Leads, Inv, HandleOrderCreated, UpdateAvailability, CompleteDelivery, CancelOrder,
      DeliverExpiry, AcceptOffer, RejectOffer, ForceAssign;
    match c {
      case OrderCreated(e, msg) => OrderCreatedLeads(env, polite, s, e, msg);
      case AvailabilityChanged(e, d, isAvailable, changedAt) =>
        AvailabilityLeads(env, polite, s, e, d, isAvailable, changedAt);
      case DeliveryCompleted(e, o) => CompleteLeads(env, polite, s, e, o);
      case OrderCancelled(e, o) => CancelLeads(env, polite, s, e, o);
      case OfferExpired(t, ack) => DeliveryLeads(env, polite, s, t, ack);
      case DriverAccepts(o, d) => AcceptLeads(env, polite, s, o, d);
      case DriverRejects(o, d) => RejectLeads(env, polite, s, o, d);
      case AdminForces(o, d, known) => ForceLeads(env, polite, s, o, d, known);
    }
  }

  /** Every legal run is a path of small steps. */
  lemma {:induction false} RunLeads(env: Env, polite: bool, s: State, cs: seq<Command>)
    requires Inv(env, s) && LegalRun(env, s, cs) && (polite ==> PoliteRun(env, s, cs))
    ensures Leads(env, polite, s, Run(env, s, cs))
    decreases |cs|
  {
    hide Leads, Inv, Next;
    if cs == [] {
      LeadsHere(env, polite, s);
    } else {
      var t := Next(env, s, cs[0]);
      NextLeads(env, polite, s, cs[0]);
      LeadsKeepsInv(env, polite, s, t);
      RunLeads(env, polite, t, cs[1..]);
      LeadsOn(env, polite, s, t, Run(env, t, cs[1..]));
    }
  }
}
