/**
  What each use case answers and leaves behind, in terms of statuses, drivers and clock readings, from
  any state a run can reach.
 */
module Outcomes {
  import opened Wrappers
  import opened Domain
  import opened ValueObjects
  import opened AssignmentModel
  import opened Ranking
  import opened PoolModel
  import opened RepositoryModel
  import opened DispatchModel
  import opened Invariants
  import opened Paths
  import opened Retry
  import opened Theorems

  // ----- Vocabulary -----

  /** What no operation on an order may touch. */
  ghost predicate SameOrder(p: AssignmentProps, q: AssignmentProps) {
    && q.orderId == p.orderId && q.customerId == p.customerId && q.pickup == p.pickup && q.dropoff == p.dropoff
    && q.items == p.items && q.scheduledFor == p.scheduledFor && q.createdAt == p.createdAt
  }

  /** `after` starts with the attempts of `before`, the last of which has been answered. */
  ghost predicate ClosesLast(before: seq<OfferAttempt>, after: seq<OfferAttempt>, outcome: OfferOutcome, at: Time) {
    var k := |before| - 1;
    && 0 <= k < |after| && after[..k] == before[..k]
    && after[k].id == before[k].id && after[k].driverId == before[k].driverId
    && after[k].attemptNo == before[k].attemptNo && after[k].offeredAt == before[k].offeredAt
    && after[k].expiresAt == before[k].expiresAt
    && after[k].outcome == outcome && after[k].respondedAt == Some(at)
  }

  /** An open offer of `at`, the n-th of its order. */
  ghost predicate OpenOffer(env: Env, a: OfferAttempt, d: DriverId, n: nat, at: Time) {
    && a.driverId == d && a.attemptNo == n && a.outcome == Pending
    && a.offeredAt == at && a.respondedAt == None && a.expiresAt == at + env.ttlSeconds * 1000
  }

  ghost predicate SameOthers(m: Orders, m': Orders, o: OrderId) {
    forall x :: x != o ==> (x in m <==> x in m') && (x in m ==> m'[x] == m[x])
  }

  /** The driver is off duty; whoever still wants work goes to the queue, stamped `at`. */
  ghost predicate LetsGo(p: Pool, d: DriverId, at: Time, p': Pool) {
    && p'.willing == p.willing && p'.busy == p.busy - {d}
    && p'.available == if d in p.willing then p.available[d := at] else p.available
  }

  /** `x` is queued, not excluded, and nobody else such has waited longer. */
  ghost predicate FirstInLine(p: Pool, tried: seq<DriverId>, x: DriverId) {
    && x in p.available && x !in tried
    && (forall y :: y in p.available && y !in tried ==>
          p.available[x] < p.available[y] || (p.available[x] == p.available[y] && x <= y))
  }

  ghost predicate SomebodyLeft(p: Pool, tried: seq<DriverId>) {
    exists x :: x in p.available && x !in tried
  }

  /** One offer of order `o`, made to `d`, and everything that comes with it. */
  ghost predicate Offers(env: Env, s: State, s': State, o: OrderId, d: DriverId) {
    && o in s.orders && o in s'.orders && SameOthers(s.orders, s'.orders, o)
    && var p, q, at := s.orders[o], s'.orders[o], env.clock(s.ticks);
    && SameOrder(p, q) && q.status == Offered && q.assignedDriverId == p.assignedDriverId && q.updatedAt == at
    && q.offerAttempts == p.offerAttempts + 1
    && |q.attempts| == |p.attempts| + 1 && q.attempts[..|p.attempts|] == p.attempts
    && OpenOffer(env, q.attempts[|p.attempts|], d, q.offerAttempts, at)
    && q.attempts[|p.attempts|].id == s.nextAttemptId
    && s'.pool.willing == s.pool.willing && s'.pool.busy == s.pool.busy + {d}
    && s'.pool.available == s.pool.available - {d}
    && s'.timers == s.timers + multiset{Timer(o, q.offerAttempts)}
    && s'.log == s.log && s'.processed == s.processed
    && s'.ticks == s.ticks + 1 && s'.nextAttemptId == s.nextAttemptId + 1
  }

  // ----- Attempt -----

  lemma ClaimOutcome(p: Pool, tried: seq<DriverId>)
    ensures p.Claim(tried).Some? <==> SomebodyLeft(p, tried)
    ensures p.Claim(tried).Some? ==> FirstInLine(p, tried, p.Claim(tried).value)
  {
    ClaimIsFifo(p, tried);
    if p.Claim(tried).Some? {
      assert WaitsLongest(p, tried, p.Claim(tried).value);
    }
  }

  lemma OfferOutcome(env: Env, s: State, o: OrderId, d: DriverId)
    requires s.IsParked(o)
    ensures Offers(env, s, MakeOffer(env, s.(pool := s.pool.Take(d)), o, d), o, d)
  {
  }

  /** An attempt on a parked order goes to the first in line it has not tried; otherwise nothing happens. */
  lemma AttemptOutcome(env: Env, s: State, o: OrderId) returns (d: Option<DriverId>)
    ensures d.Some? <==>
      o in s.orders && s.orders[o].status == AwaitingDriver && SomebodyLeft(s.pool, s.orders[o].TriedDriverIds())
    ensures d == None ==> Attempt(env, s, o) == s
    ensures d.Some? ==>
      FirstInLine(s.pool, s.orders[o].TriedDriverIds(), d.value) && Offers(env, s, Attempt(env, s, o), o, d.value)
  {
    hide Offers, MakeOffer, FirstInLine, SomebodyLeft, Pool.Claim;
    if !s.IsParked(o) {
      return None;
    }
    d := s.pool.Claim(s.orders[o].TriedDriverIds());
    ClaimOutcome(s.pool, s.orders[o].TriedDriverIds());
    if d.Some? {
      OfferOutcome(env, s, o, d.value);
    }
  }

  // ----- A retry pass -----

  /** An order a pass made an offer of: parked before, on offer now, one attempt more. */
  ghost predicate Promoted(env: Env, s: State, s': State, o: OrderId) {
    && o in s.orders && o in s'.orders
    && var p, q := s.orders[o], s'.orders[o];
    && p.status == AwaitingDriver && q.status == Offered && SameOrder(p, q)
    && q.assignedDriverId == p.assignedDriverId && q.offerAttempts == p.offerAttempts + 1
    && |q.attempts| == |p.attempts| + 1 && q.attempts[..|p.attempts|] == p.attempts
    && var a := q.attempts[|p.attempts|];
    && OpenOffer(env, a, a.driverId, q.offerAttempts, a.offeredAt) && q.updatedAt == a.offeredAt
    && a.driverId in s.pool.available && a.driverId !in s'.pool.available && a.driverId !in p.TriedDriverIds()
    && exists k: nat :: s.ticks <= k < s'.ticks && a.offeredAt == env.clock(k)
  }

  function OffersMade(m: Orders, o: OrderId): nat {
    if o in m then m[o].offerAttempts else 0
  }

  /** One message for each offer made between two states. */
  function NewMessages(m: Orders, m': Orders, t: Timer): nat {
    if OffersMade(m, t.orderId) < t.attemptNo <= OffersMade(m', t.orderId) then 1 else 0
  }

  /** All that a pass does: offers to parked orders, each with its driver and its message. */
  ghost predicate OnlyOffers(env: Env, s: State, s': State) {
    && s'.log == s.log && s'.processed == s.processed && s'.pool.willing == s.pool.willing
    && s'.orders.Keys == s.orders.Keys && s'.ticks >= s.ticks && s'.nextAttemptId >= s.nextAttemptId
    && (forall o :: o in s.orders && s'.orders[o] != s.orders[o] ==> Promoted(env, s, s', o))
    && (forall d :: d in s'.pool.available ==> d in s.pool.available && s'.pool.available[d] == s.pool.available[d])
    && (forall d :: d in s'.pool.busy <==> d in s.pool.busy || (d in s.pool.available && d !in s'.pool.available))
    && (forall d :: d in s.pool.available && d !in s'.pool.available ==>
          exists o :: Holds(s'.orders, o, d) && Promoted(env, s, s', o))
    && (forall t :: s'.timers[t] == s.timers[t] + NewMessages(s.orders, s'.orders, t))
  }

  lemma OnlyOffersHere(env: Env, s: State)
    ensures OnlyOffers(env, s, s)
  {
  }

  lemma OneIsPromoted(env: Env, s: State, s': State, o: OrderId, d: DriverId)
    requires o in s.orders && s.orders[o].status == AwaitingDriver && Offers(env, s, s', o, d)
    requires d in s.pool.available && d !in s.orders[o].TriedDriverIds()
    ensures Promoted(env, s, s', o) && Holds(s'.orders, o, d)
    ensures s'.orders[o].offerAttempts == s.orders[o].offerAttempts + 1
  {
    hide DeclinedDrivers;
    var k := s.ticks;
    assert s'.orders[o].attempts[|s.orders[o].attempts|].offeredAt == env.clock(k);
  }

  lemma OneIsOnlyOffers(env: Env, s: State, s': State, o: OrderId, d: DriverId)
    requires o in s.orders && s.orders[o].status == AwaitingDriver && Offers(env, s, s', o, d)
    requires d in s.pool.available && d !in s.orders[o].TriedDriverIds()
    ensures OnlyOffers(env, s, s')
  {
    OneIsPromoted(env, s, s', o, d);
    hide Promoted, Holds, OpenOffer, SameOrder;
  }

  lemma PromotedEarlier(env: Env, s: State, t: State, u: State, o: OrderId)
    requires Promoted(env, s, t, o) && OnlyOffers(env, t, u)
    ensures Promoted(env, s, u, o) && u.orders[o] == t.orders[o]
  {
  }

  lemma PromotedLater(env: Env, s: State, t: State, u: State, o: OrderId)
    requires OnlyOffers(env, s, t) && Promoted(env, t, u, o)
    ensures Promoted(env, s, u, o) && o in s.orders && t.orders[o] == s.orders[o]
  {
  }

  lemma CountsGrow(env: Env, s: State, s': State)
    requires OnlyOffers(env, s, s')
    ensures forall o :: o in s.orders ==> o in s'.orders && s.orders[o].offerAttempts <= s'.orders[o].offerAttempts
  {
    hide OpenOffer, SameOrder, NewMessages;
  }

  lemma MessagesAddUp(env: Env, s: State, t: State, u: State, x: Timer)
    requires OnlyOffers(env, s, t) && OnlyOffers(env, t, u)
    ensures NewMessages(s.orders, u.orders, x)
         == NewMessages(s.orders, t.orders, x) + NewMessages(t.orders, u.orders, x)
  {
    CountsGrow(env, s, t);
    CountsGrow(env, t, u);
    hide Promoted;
  }

  lemma OnlyOffersOn(env: Env, s: State, t: State, u: State)
    requires OnlyOffers(env, s, t) && OnlyOffers(env, t, u)
    ensures OnlyOffers(env, s, u)
  {
    hide Promoted, NewMessages;
    forall o | o in s.orders && u.orders[o] != s.orders[o] ensures Promoted(env, s, u, o) {
      if t.orders[o] != s.orders[o] {
        PromotedEarlier(env, s, t, u, o);
      } else {
        PromotedLater(env, s, t, u, o);
      }
    }
    forall d | d in s.pool.available && d !in u.pool.available
      ensures exists o :: Holds(u.orders, o, d) && Promoted(env, s, u, o)
    {
      if d in t.pool.available {
        var o :| Holds(u.orders, o, d) && Promoted(env, t, u, o);
        PromotedLater(env, s, t, u, o);
      } else {
        var o :| Holds(t.orders, o, d) && Promoted(env, s, t, o);
        PromotedEarlier(env, s, t, u, o);
        assert Holds(u.orders, o, d);
      }
    }
    forall x ensures u.timers[x] == s.timers[x] + NewMessages(s.orders, u.orders, x) {
      MessagesAddUp(env, s, t, u, x);
    }
  }

  lemma AttemptOnlyOffers(env: Env, s: State, o: OrderId)
    ensures OnlyOffers(env, s, Attempt(env, s, o))
  {
    hide OnlyOffers, Offers, Attempt;
    OnlyOffersHere(env, s);
    var d := AttemptOutcome(env, s, o);
    if d.Some? {
      OneIsOnlyOffers(env, s, Attempt(env, s, o), o, d.value);
    }
  }

  /** A retry pass makes offers of parked orders to queued drivers, with a message each, and does nothing else. */
  lemma {:induction false} PassOutcome(env: Env, s: State, list: seq<OrderId>)
    ensures OnlyOffers(env, s, RetryEach(env, s, list))
    decreases |list|
  {
    hide OnlyOffers, Attempt;
    OnlyOffersHere(env, s);
    if list != [] {
      var t := Attempt(env, s, list[0]);
      AttemptOnlyOffers(env, s, list[0]);
      PassOutcome(env, t, list[1..]);
      OnlyOffersOn(env, s, t, RetryEach(env, t, list[1..]));
    }
  }

  // ----- Accept -----

  /** On offer, and the offer is this driver's. */
  ghost predicate OnOfferTo(s: State, o: OrderId, d: DriverId) {
    && o in s.orders && s.orders[o].status == Offered
    && s.orders[o].attempts != [] && s.orders[o].attempts[|s.orders[o].attempts| - 1].driverId == d
  }

  /** Order `o` went from another status to assigned to `d`, and that was announced at `at`. */
  ghost predicate NewlyAssigned(s: State, s': State, o: OrderId, d: DriverId, at: Time) {
    && o in s.orders && s.orders[o].status != Assigned
    && o in s'.orders && s'.orders[o].status == Assigned && s'.orders[o].assignedDriverId == Some(d)
    && s'.log == s.log + [DriverAssigned(o, d, at)]
  }

  /** What a driver who answers an offer is told, whatever the answer. */
  ghost predicate Replies(s: State, o: OrderId, d: DriverId, r: Reply) {
    && (r == Success(()) <==> OnOfferTo(s, o, d))
    && (r == Failure(AssignmentNotFound) <==> o !in s.orders)
    && (r == Failure(NoActiveOffer) <==> o in s.orders && s.orders[o].status != Offered)
    && (r == Failure(NotOfferedDriver) <==> o in s.orders && s.orders[o].status == Offered && !OnOfferTo(s, o, d))
  }

  /** The assignment an effective accept leaves, and nothing else changed but the log and the clock. */
  ghost predicate Accepts(env: Env, s: State, s': State, o: OrderId) {
    && o in s.orders && o in s'.orders && SameOthers(s.orders, s'.orders, o) && SameOrder(s.orders[o], s'.orders[o])
    && |s'.orders[o].attempts| == |s.orders[o].attempts|
    && ClosesLast(s.orders[o].attempts, s'.orders[o].attempts, Accepted, env.clock(s.ticks))
    && s'.orders[o].offerAttempts == s.orders[o].offerAttempts && s'.orders[o].updatedAt == env.clock(s.ticks)
    && SameWorld(s.(orders := s'.orders, log := s'.log), s')
  }

  lemma AcceptEffect(env: Env, s: State, o: OrderId, d: DriverId)
    requires OnOfferTo(s, o, d) && s.orders[o].orderId == o
    ensures var h := AcceptOffer(env, s, o, d);
      h.reply == Success(()) && NewlyAssigned(s, h.state, o, d, env.clock(s.ticks)) && Accepts(env, s, h.state, o)
  {
  }

  lemma AcceptRefused(env: Env, s: State, o: OrderId, d: DriverId)
    requires !OnOfferTo(s, o, d)
    ensures var h := AcceptOffer(env, s, o, d);
      && h.reply != Success(()) && Replies(s, o, d, h.reply) && SameWorld(s, h.state)
      && !NewlyAssigned(s, h.state, o, d, env.clock(s.ticks))
  {
  }

  lemma AcceptOutcome(env: Env, s: State, o: OrderId, d: DriverId)
    requires Inv(env, s)
    ensures var h := AcceptOffer(env, s, o, d);
      && Replies(s, o, d, h.reply)
      && (h.reply == Success(()) <==> NewlyAssigned(s, h.state, o, d, env.clock(s.ticks)))
      && (h.reply != Success(()) ==> SameWorld(s, h.state))
      && (h.reply == Success(()) ==> Accepts(env, s, h.state, o))
  {
    hide Inv, AcceptOffer, NewlyAssigned, Accepts;
    if OnOfferTo(s, o, d) {
      OrderIsProper(env, s, o);
      AcceptEffect(env, s, o, d);
    } else {
      AcceptRefused(env, s, o, d);
    }
  }

  // ----- Reject and expire -----

  /** The offer is closed as `outcome` and its driver let go: the order is parked, or about to be failed. */
  ghost predicate ClosedAndFreed(env: Env, s: State, t: State, o: OrderId, outcome: OfferOutcome) {
    && o in s.orders && o in t.orders && SameOthers(s.orders, t.orders, o)
    && var p, q := s.orders[o], t.orders[o];
    && p.attempts != [] && SameOrder(p, q) && q.status == AwaitingDriver && q.assignedDriverId == p.assignedDriverId
    && q.offerAttempts == p.offerAttempts && q.updatedAt == env.clock(s.ticks)
    && |q.attempts| == |p.attempts| && ClosesLast(p.attempts, q.attempts, outcome, env.clock(s.ticks))
    && LetsGo(s.pool, p.attempts[|p.attempts| - 1].driverId, env.clock(s.ticks + 1), t.pool)
    && t.timers == s.timers && t.log == s.log && t.processed == s.processed && t.nextAttemptId == s.nextAttemptId
    && t.ticks == s.ticks + 2
  }

  /** The order is out of attempts: failed, and announced. */
  ghost predicate Fails(env: Env, t: State, s': State, o: OrderId) {
    && o in t.orders && o in s'.orders && SameOthers(t.orders, s'.orders, o)
    && var p, q, at := t.orders[o], s'.orders[o], env.clock(t.ticks);
    && SameOrder(p, q) && q.status == Failed && q.assignedDriverId == p.assignedDriverId && q.updatedAt == at
    && q.offerAttempts == p.offerAttempts && q.attempts == p.attempts
    && s'.log == t.log + [AssignmentFailed(o, at)]
    && SameWorld(t.(orders := s'.orders, log := s'.log), s')
  }

  /** A declined offer: closed, its driver let go, and then failed or offered on to the first in line. */
  ghost predicate MovesOn(env: Env, s: State, s': State, o: OrderId, outcome: OfferOutcome) {
    exists t, x: Option<DriverId> :: MovesOnBy(env, s, t, x, s', o, outcome)
  }

  ghost predicate MovesOnBy(
    env: Env, s: State, t: State, x: Option<DriverId>, s': State, o: OrderId, outcome: OfferOutcome)
  {
    && ClosedAndFreed(env, s, t, o, outcome)
    && (s.orders[o].offerAttempts == env.maxAttempts ==> Fails(env, t, s', o))
    && (s.orders[o].offerAttempts != env.maxAttempts ==>
          && (x.Some? <==> SomebodyLeft(t.pool, t.orders[o].TriedDriverIds()))
          && (x == None ==> s' == t)
          && (x.Some? ==> FirstInLine(t.pool, t.orders[o].TriedDriverIds(), x.value) && Offers(env, t, s', o, x.value)))
  }

  lemma ClosingAndFreeing(env: Env, s: State, o: OrderId, op: Operation)
    requires o in s.orders && Sound(s.orders[o]) && s.orders[o].Allows(op) && (op.Reject? || op.Expire?)
    requires op.now == s.Now(env)
    ensures ClosedAndFreed(env, s, Declined(env, s, o, op), o, if op.Reject? then Rejected else Expired)
  {
    hide DistinctDrivers, DeclinedDrivers;
  }

  lemma FailOutcome(env: Env, t: State, o: OrderId)
    requires t.IsParked(o) && t.orders[o].orderId == o && t.orders[o].offerAttempts >= env.maxAttempts
    ensures Fails(env, t, FailOrRetry(env, t, o), o)
  {
  }

  lemma DeclineOutcome(env: Env, s: State, o: OrderId, op: Operation)
    requires Inv(env, s) && o in s.orders && s.orders[o].Allows(op) && (op.Reject? || op.Expire?)
    requires op.now == s.Now(env)
    ensures MovesOn(env, s, Decline(env, s, o, op), o, if op.Reject? then Rejected else Expired)
  {
    hide Inv, Attempt, FirstInLine, SomebodyLeft, Offers, Fails, AssignmentProps.After, OutcomesFit, ClosesLast;
    OrderIsProper(env, s, o);
    var outcome := if op.Reject? then Rejected else Expired;
    var t, s' := Declined(env, s, o, op), Decline(env, s, o, op);
    ClosingAndFreeing(env, s, o, op);
    var x: Option<DriverId> := None;
    if s.orders[o].offerAttempts == env.maxAttempts {
      StepKeepsIdentity(s.orders[o], op);
      FailOutcome(env, t, o);
    } else {
      x := AttemptOutcome(env, t, o);
    }
    hide Decline;
    assert MovesOnBy(env, s, t, x, s', o, outcome);
  }

  lemma RejectOutcome(env: Env, s: State, o: OrderId, d: DriverId)
    requires Inv(env, s)
    ensures var (s', r) := (RejectOffer(env, s, o, d).state, RejectOffer(env, s, o, d).reply);
      && Replies(s, o, d, r)
      && (r != Success(()) ==> SameWorld(s, s'))
      && (r == Success(()) ==> MovesOn(env, s, s', o, Rejected))
  {
    hide Inv, Decline, MovesOn;
    if OnOfferTo(s, o, d) {
      DeclineOutcome(env, s, o, Reject(d, s.Now(env)));
    }
    if o in s.orders {
      OrderIsProper(env, s, o);
    }
  }

  /** An expiry message acts on the open attempt it names, and on nothing else; acknowledged, it leaves the queue. */
  lemma ExpireOutcome(env: Env, s: State, t: Timer, ack: bool) returns (u: State)
    requires Inv(env, s)
    ensures Next(env, s, OfferExpired(t, ack)) == if ack then u.(timers := u.timers - multiset{t}) else u
    ensures if t.orderId in s.orders && s.orders[t.orderId].status == Offered
               && s.orders[t.orderId].offerAttempts == t.attemptNo
      then MovesOn(env, s, u, t.orderId, Expired)
      else SameWorld(s, u)
  {
    hide Inv, Decline, MovesOn;
    var o, op := t.orderId, Expire(t.attemptNo, s.Now(env));
    if o in s.orders {
      OrderIsProper(env, s, o);
      if s.orders[o].Allows(op) {
        DeclineOutcome(env, s, o, op);
      }
    }
    u := ExpireOffer(env, s, t.orderId, t.attemptNo);
  }

  // ----- Cancel and complete -----

  /** Order `o` ended as `status`; an open offer was closed as expired, and whoever the order held is let go. */
  ghost predicate Ends(env: Env, s: State, t: State, o: OrderId, status: AssignmentStatus) {
    && o in s.orders && o in t.orders && SameOthers(s.orders, t.orders, o)
    && var p, q := s.orders[o], t.orders[o];
    && SameOrder(p, q) && q.status == status && q.assignedDriverId == p.assignedDriverId
    && q.offerAttempts == p.offerAttempts && q.updatedAt == env.clock(s.ticks) && |q.attempts| == |p.attempts|
    && (p.status == Offered ==>
          && p.attempts != [] && ClosesLast(p.attempts, q.attempts, Expired, env.clock(s.ticks))
          && LetsGo(s.pool, p.attempts[|p.attempts| - 1].driverId, env.clock(s.ticks + 1), t.pool))
    && (p.status == Assigned ==>
          && p.assignedDriverId.Some? && q.attempts == p.attempts
          && LetsGo(s.pool, p.assignedDriverId.value, env.clock(s.ticks + 1), t.pool))
    && (p.status == AwaitingDriver ==> q.attempts == p.attempts && t.pool == s.pool)
  }

  /** The event is recorded and nothing was published, sent or offered. */
  ghost predicate OnlyRecords(s: State, t: State, e: EventId) {
    t.processed == s.processed + {e} && t.log == s.log && t.timers == s.timers && t.nextAttemptId == s.nextAttemptId
  }

  lemma HoldsSomebody(env: Env, s: State, o: OrderId)
    requires Inv(env, s) && o in s.orders
    ensures s.orders[o].status == Assigned ==> s.orders[o].assignedDriverId.Some?
    ensures s.orders[o].status == Offered ==> s.orders[o].attempts != []
  {
    OrderIsProper(env, s, o);
  }

  /** After a retry pass an order that was not parked is as it was. */
  lemma PassKeeps(env: Env, t: State, o: OrderId)
    requires o in t.orders && t.orders[o].status != AwaitingDriver
    ensures var s' := RetryParked(env, t); o in s'.orders && s'.orders[o] == t.orders[o]
  {
    RetryFrame(env, t, RetryList(t));
  }

  /**
    A new cancellation of a live order ends it and lets its driver go; a completed, cancelled, failed or
    unknown order is left alone. A retry pass follows in every case, and leaves the order as it ended.
   */
  lemma CancelOutcome(env: Env, s: State, e: EventId, o: OrderId) returns (t: State)
    requires Inv(env, s) && e !in s.processed
    ensures OnlyRecords(s, t, e)
    ensures o in s.orders && s.orders[o].status in {AwaitingDriver, Offered, Assigned} ==> Ends(env, s, t, o, Cancelled)
    ensures !(o in s.orders && s.orders[o].status in {AwaitingDriver, Offered, Assigned}) ==>
      t.orders == s.orders && t.pool == s.pool
    ensures Next(env, s, OrderCancelled(e, o)) == RetryParked(env, t)
    ensures o in s.orders ==> o in t.orders && o in RetryParked(env, t).orders
                              && RetryParked(env, t).orders[o] == t.orders[o]
  {
    hide Inv, RetryParked;
    var (s1, freed) := CancelInTransaction(env, s, e, o);
    t := match freed case None => s1 case Some(d) => s1.Freed(env, d);
    if o in s.orders {
      HoldsSomebody(env, s, o);
      PassKeeps(env, t, o);
    }
  }

  /**
    A new completion of an assigned order ends it as completed and lets its driver go, and a retry pass
    follows; on any other order it is recorded and that is all.
   */
  lemma CompleteOutcome(env: Env, s: State, e: EventId, o: OrderId) returns (t: State)
    requires Inv(env, s) && e !in s.processed
    ensures OnlyRecords(s, t, e)
    ensures o in s.orders && s.orders[o].status == Assigned ==>
      && Ends(env, s, t, o, Completed) && Next(env, s, DeliveryCompleted(e, o)) == RetryParked(env, t)
      && o in RetryParked(env, t).orders && RetryParked(env, t).orders[o] == t.orders[o]
    ensures !(o in s.orders && s.orders[o].status == Assigned) ==>
      t.orders == s.orders && t.pool == s.pool && Next(env, s, DeliveryCompleted(e, o)) == t
  {
    hide Inv, RetryParked;
    var (s1, freed) := CompleteInTransaction(env, s, e, o);
    t := match freed case None => s1 case Some(d) => s1.Freed(env, d);
    if o in s.orders {
      HoldsSomebody(env, s, o);
      if s.orders[o].status == Assigned {
        PassKeeps(env, t, o);
      }
    }
  }

  // ----- Availability -----

  /** Signing on: willing, and queued with the message's own time unless on an order; then a retry pass. */
  lemma SignOnOutcome(env: Env, s: State, e: EventId, d: DriverId, at: Time) returns (t: State)
    requires e !in s.processed
    ensures OnlyRecords(s, t, e) && t.orders == s.orders && t.ticks == s.ticks
    ensures t.pool.willing == s.pool.willing + {d} && t.pool.busy == s.pool.busy
    ensures t.pool.available == if d in s.pool.busy then s.pool.available else s.pool.available[d := at]
    ensures Next(env, s, AvailabilityChanged(e, d, true, at)) == RetryParked(env, t)
  {
    hide RetryParked;
    t := s.(processed := s.processed + {e}, pool := s.pool.OnWilling(d, at));
  }

  /** Signing off: neither willing nor queued; a driver on an order stays on it. */
  lemma SignOffOutcome(env: Env, s: State, e: EventId, d: DriverId, at: Time)
    requires e !in s.processed
    ensures var s' := Next(env, s, AvailabilityChanged(e, d, false, at));
      && OnlyRecords(s, s', e) && s'.orders == s.orders && s'.ticks == s.ticks
      && s'.pool.willing == s.pool.willing - {d} && s'.pool.available == s.pool.available - {d}
      && s'.pool.busy == s.pool.busy
  {
  }

  // ----- Created -----

  /** What the message says, checked and normalised, and nothing offered yet. */
  ghost predicate AsAnnounced(msg: OrderCreatedMessage, p: AssignmentProps, at: Time) {
    && p.orderId == msg.orderId && p.customerId == msg.customerId && p.scheduledFor == msg.scheduledFor
    && AddressSnapshot.Of(msg.pickup) == Success(p.pickup) && AddressSnapshot.Of(msg.dropoff) == Success(p.dropoff)
    && ItemsOf(msg.items) == Success(p.items) && p.createdAt == at
  }

  /** The first complaint, pickup before dropoff before items. */
  ghost predicate Refused(msg: OrderCreatedMessage, err: DomainError) {
    || AddressSnapshot.Of(msg.pickup) == Failure(err)
    || (AddressSnapshot.Of(msg.pickup).Success? && AddressSnapshot.Of(msg.dropoff) == Failure(err))
    || (AddressSnapshot.Of(msg.pickup).Success? && AddressSnapshot.Of(msg.dropoff).Success?
        && ItemsOf(msg.items) == Failure(err))
  }

  /**
    A new message whose addresses and items are in order is recorded, stored as it says and attempted
    once. A refused one leaves no record.
   */
  lemma CreatedOutcome(env: Env, s: State, e: EventId, msg: OrderCreatedMessage) returns (t: State)
    requires e !in s.processed
    ensures var h := HandleOrderCreated(env, s, e, msg);
      && (h.reply == Success(()) <==>
            && AddressSnapshot.Of(msg.pickup).Success? && AddressSnapshot.Of(msg.dropoff).Success?
            && ItemsOf(msg.items).Success?)
      && (forall err :: h.reply == Failure(err) <==> Refused(msg, err))
      && (h.reply != Success(()) ==> SameWorld(s, h.state))
      && (h.reply == Success(()) ==>
            && OnlyRecords(s, t, e) && t.pool == s.pool
            && msg.orderId in t.orders && t.orders == s.orders[msg.orderId := t.orders[msg.orderId]]
            && AsAnnounced(msg, t.orders[msg.orderId], env.clock(s.ticks)) && IsNew(t.orders[msg.orderId])
            && t.orders[msg.orderId].updatedAt == env.clock(s.ticks)
            && h.state == Attempt(env, t, msg.orderId)
            && msg.orderId in h.state.orders
            && AsAnnounced(msg, h.state.orders[msg.orderId], env.clock(s.ticks)))
  {
    hide Attempt, AddressSnapshot.Of, ItemsOf;
    t := s;
    if Build(msg, s.Now(env)).Success? {
      t := Announced(s, e, msg.orderId, Build(msg, s.Now(env)).value);
      BuiltIsNew(msg, s.Now(env));
      AttemptKeepsOrder(env, t, msg.orderId);
    }
  }

  lemma AttemptKeepsOrder(env: Env, s: State, o: OrderId)
    requires o in s.orders
    ensures o in Attempt(env, s, o).orders && SameOrder(s.orders[o], Attempt(env, s, o).orders[o])
  {
    hide Attempt, OpenOffer;
    var d := AttemptOutcome(env, s, o);
  }

  // ----- Force-assign -----

  /** The assignment a force-assign leaves: the driver off the queue and on duty, free before or not. */
  ghost predicate Forces(env: Env, s: State, s': State, o: OrderId, d: DriverId) {
    && o in s.orders && o in s'.orders && SameOthers(s.orders, s'.orders, o) && SameOrder(s.orders[o], s'.orders[o])
    && s'.orders[o].attempts == s.orders[o].attempts && s'.orders[o].offerAttempts == s.orders[o].offerAttempts
    && s'.orders[o].updatedAt == env.clock(s.ticks)
    && s'.pool.willing == s.pool.willing && s'.pool.busy == s.pool.busy + {d}
    && s'.pool.available == s.pool.available - {d}
    && SameWorld(s.(orders := s'.orders, log := s'.log, pool := s'.pool), s')
  }

  lemma ForceEffect(env: Env, s: State, o: OrderId, d: DriverId)
    requires o in s.orders && s.orders[o].orderId == o && s.orders[o].status in {AwaitingDriver, Failed}
    ensures var h := ForceAssign(env, s, o, d, true);
      h.reply == Success(()) && NewlyAssigned(s, h.state, o, d, env.clock(s.ticks)) && Forces(env, s, h.state, o, d)
  {
  }

  lemma ForceOutcome(env: Env, s: State, o: OrderId, d: DriverId, known: bool)
    requires Inv(env, s)
    ensures var h := ForceAssign(env, s, o, d, known);
      && (h.reply == Failure(DriverNotAssignable) <==> !known)
      && (h.reply == Failure(AssignmentNotFound) <==> known && o !in s.orders)
      && (h.reply == Failure(ForceAssignNotAllowed) <==>
            known && o in s.orders && s.orders[o].status in {Offered, Assigned, Completed, Cancelled})
      && (h.reply == Success(()) <==> known && o in s.orders && s.orders[o].status in {AwaitingDriver, Failed})
      && (h.reply == Success(()) <==> NewlyAssigned(s, h.state, o, d, env.clock(s.ticks)))
      && (h.reply != Success(()) ==> SameWorld(s, h.state))
      && (h.reply == Success(()) ==> Forces(env, s, h.state, o, d))
  {
    hide Inv, Forces, AssignmentProps.After;
    if o in s.orders {
      OrderIsProper(env, s, o);
      if known && s.orders[o].status in {AwaitingDriver, Failed} {
        ForceEffect(env, s, o, d);
      }
    }
  }

  // ----- Let go, then passed on -----

  /** A driver who was let go before a pass is off duty after it, or on the order the pass gave them. */
  lemma LetGoIsFree(env: Env, p: Pool, t: State, d: DriverId, at: Time)
    requires LetsGo(p, d, at, t.pool)
    ensures var s' := RetryParked(env, t);
      d in s'.pool.busy ==> exists o :: Holds(s'.orders, o, d) && Promoted(env, t, s', o)
  {
    hide Promoted, RetryEach, RetryList;
    PassOutcome(env, t, RetryList(t));
  }

  // ----- Messages -----

  ghost predicate Sends(s: State, s': State) {
    forall t :: s'.timers[t] == s.timers[t] + NewMessages(s.orders, s'.orders, t)
  }

  lemma SendsNothing(s: State, s': State)
    requires s'.timers == s.timers && forall o :: OffersMade(s'.orders, o) == OffersMade(s.orders, o)
    ensures Sends(s, s')
  {
  }

  /** First a step that makes no offers, then one that makes them. */
  lemma SendsAfter(s: State, t: State, s': State)
    requires t.timers == s.timers && forall o :: OffersMade(t.orders, o) == OffersMade(s.orders, o)
    requires Sends(t, s')
    ensures Sends(s, s')
  {
  }
}
