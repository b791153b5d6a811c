/** Every status change of an order in a run of the service, and how many there can be. */
module Lifetimes {
  import opened Wrappers
  import opened Domain
  import opened AssignmentModel
  import opened PoolModel
  import opened RepositoryModel
  import opened DispatchModel
  import opened Invariants
  import opened Paths

  // ----- The operations a use case applies to order `o`, one by one -----

  function AttemptOps(env: Env, s: State, x: OrderId, o: OrderId): seq<Operation> {
    if x != o || !s.IsParked(o) then [] else
    match s.pool.Claim(s.orders[o].TriedDriverIds())
    case None => []
    case Some(d) => [AttemptedOffer(env, s, d)]
  }

  function FailOrRetryOps(env: Env, s: State, x: OrderId, o: OrderId): seq<Operation> {
    if x == o && s.IsParked(o) && s.orders[o].offerAttempts >= env.maxAttempts then [Fail(s.Now(env))]
    else AttemptOps(env, s, x, o)
  }

  function RetryOps(env: Env, s: State, list: seq<OrderId>, o: OrderId): seq<Operation>
    decreases |list|
  {
    if list == [] then [] else
    AttemptOps(env, s, list[0], o) + RetryOps(env, Attempt(env, s, list[0]), list[1..], o)
  }

  function RetryParkedOps(env: Env, s: State, o: OrderId): seq<Operation> {
    RetryOps(env, s, RetryList(s), o)
  }

  /** An operation on order `x` that may or may not take effect, as seen by order `o`. */
  function OwnOps(s: State, x: OrderId, op: Operation, o: OrderId): seq<Operation> {
    if x == o && o in s.orders && s.orders[o].Allows(op) then [op] else []
  }

  /** A decline and what follows it: the failure or the next offer is an operation of its own. */
  function DeclineOps(env: Env, s: State, x: OrderId, op: Operation, o: OrderId): seq<Operation>
    requires op.Reject? || op.Expire?
  {
    if x !in s.orders || !s.orders[x].Allows(op) then [] else
    OwnOps(s, x, op, o) + FailOrRetryOps(env, Declined(env, s, x, op), x, o)
  }

  function CreatedOps(env: Env, s: State, e: EventId, msg: OrderCreatedMessage, o: OrderId): seq<Operation> {
    if e in s.processed then [] else
    match Build(msg, s.Now(env))
    case Failure(_) => []
    case Success(p) => AttemptOps(env, Announced(s, e, msg.orderId, p), msg.orderId, o)
  }

  function CompletedOps(env: Env, s: State, e: EventId, x: OrderId, o: OrderId): seq<Operation> {
    if e in s.processed then [] else
    var (s1, freed) := CompleteInTransaction(env, s, e, x);
    OwnOps(s, x, Complete(s.Now(env)), o)
    + match freed case None => [] case Some(d) => RetryParkedOps(env, s1.Freed(env, d), o)
  }

  function CancelledOps(env: Env, s: State, e: EventId, x: OrderId, o: OrderId): seq<Operation> {
    var (s1, freed) := CancelInTransaction(env, s, e, x);
    (if e in s.processed then [] else OwnOps(s, x, Operation.Cancel(s.Now(env)), o))
    + RetryParkedOps(env, match freed case None => s1 case Some(d) => s1.Freed(env, d), o)
  }

  function CommandOps(env: Env, s: State, c: Command, o: OrderId): seq<Operation> {
    match c
    case OrderCreated(e, msg) => CreatedOps(env, s, e, msg, o)
    case AvailabilityChanged(e, d, isAvailable, changedAt) =>
      if e in s.processed || !isAvailable then []
      else RetryParkedOps(env, s.(processed := s.processed + {e}, pool := s.pool.OnWilling(d, changedAt)), o)
    case DeliveryCompleted(e, x) => CompletedOps(env, s, e, x, o)
    case OrderCancelled(e, x) => CancelledOps(env, s, e, x, o)
    case OfferExpired(t, _) => DeclineOps(env, s, t.orderId, Expire(t.attemptNo, s.Now(env)), o)
    case DriverAccepts(x, d) => OwnOps(s, x, Operation.Accept(d, s.Now(env)), o)
    case DriverRejects(x, d) => DeclineOps(env, s, x, Reject(d, s.Now(env)), o)
    case AdminForces(x, d, known) => if known then OwnOps(s, x, Force(d, s.Now(env)), o) else []
  }

  /** All operations a run applies to order `o`, in order. */
  function RunOps(env: Env, s: State, cs: seq<Command>, o: OrderId): seq<Operation>
    decreases |cs|
  {
    if cs == [] then [] else CommandOps(env, s, cs[0], o) + RunOps(env, Next(env, s, cs[0]), cs[1..], o)
  }

  // ----- They are a life of the order -----

  /**
    `ops` account for order `o` between two points of a run: they lead from its stored state, or from
    the new assignment if it was created in between, to its state at the end.
   */
  ghost predicate Accounts(max: nat, m: Orders, ops: seq<Operation>, m': Orders, o: OrderId) {
    if o in m then o in m' && Life(max, m[o], ops, m'[o])
    else if o in m' then exists p :: IsNew(p) && p.orderId == o && Life(max, p, ops, m'[o])
    else ops == []
  }

  lemma AccountsHere(max: nat, m: Orders, m': Orders, o: OrderId)
    requires o in m <==> o in m'
    requires o in m ==> m'[o] == m[o]
    ensures Accounts(max, m, [], m', o)
  {
  }

  lemma AccountsOne(max: nat, m: Orders, op: Operation, m': Orders, o: OrderId)
    requires o in m && o in m' && m[o].Allows(op) && (op.Offer? ==> m[o].offerAttempts < max)
    requires m'[o] == m[o].After(op)
    ensures Accounts(max, m, [op], m', o)
  {
    LifeOfOne(max, m[o], op);
  }

  lemma AccountsOn(
    max: nat, m: Orders, ops: seq<Operation>, m': Orders, more: seq<Operation>, m'': Orders, o: OrderId)
    requires Accounts(max, m, ops, m', o) && Accounts(max, m', more, m'', o)
    ensures Accounts(max, m, ops + more, m'', o)
  {
    hide Life;
    if o in m {
      LifeOn(max, m[o], ops, m'[o], more, m''[o]);
    } else if o in m' {
      var p :| IsNew(p) && p.orderId == o && Life(max, p, ops, m'[o]);
      LifeOn(max, p, ops, m'[o], more, m''[o]);
    } else {
      assert ops + more == more;
    }
  }

  lemma AttemptAccounts(env: Env, s: State, x: OrderId, o: OrderId)
    requires Inv(env, s)
    ensures Accounts(env.maxAttempts, s.orders, AttemptOps(env, s, x, o), Attempt(env, s, x).orders, o)
  {
    hide Inv, Accounts, Life, AssignmentProps.After;
    var m, m' := s.orders, Attempt(env, s, x).orders;
    if AttemptOps(env, s, x, o) == [] {
      AccountsHere(env.maxAttempts, m, m', o);
    } else {
      OrderIsProper(env, s, o);
      AccountsOne(env.maxAttempts, m, AttemptOps(env, s, x, o)[0], m', o);
    }
  }

  lemma {:induction false} RetryAccounts(env: Env, s: State, list: seq<OrderId>, o: OrderId)
    requires Inv(env, s)
    ensures Accounts(env.maxAttempts, s.orders, RetryOps(env, s, list, o), RetryEach(env, s, list).orders, o)
    decreases |list|
  {
    hide Inv, Accounts, Leads, Attempt, AttemptOps;
    if list == [] {
      AccountsHere(env.maxAttempts, s.orders, s.orders, o);
    } else {
      var t := Attempt(env, s, list[0]);
      AttemptAccounts(env, s, list[0], o);
      AttemptLeads(env, false, s, list[0]);
      LeadsKeepsInv(env, false, s, t);
      RetryAccounts(env, t, list[1..], o);
      AccountsOn(env.maxAttempts, s.orders, AttemptOps(env, s, list[0], o), t.orders,
                 RetryOps(env, t, list[1..], o), RetryEach(env, t, list[1..]).orders, o);
    }
  }

  lemma FailOrRetryAccounts(env: Env, s: State, x: OrderId, o: OrderId)
    requires (s.IsParked(x) && s.orders[x].offerAttempts >= env.maxAttempts) || Inv(env, s)
    ensures Accounts(env.maxAttempts, s.orders, FailOrRetryOps(env, s, x, o), FailOrRetry(env, s, x).orders, o)
  {
    hide Inv, Accounts, Attempt, AttemptOps, AssignmentProps.After;
    if s.IsParked(x) && s.orders[x].offerAttempts >= env.maxAttempts {
      if x == o {
        AccountsOne(env.maxAttempts, s.orders, Fail(s.Now(env)), FailOrRetry(env, s, x).orders, o);
      } else {
        AttemptElsewhere(env, s, x, o);
        AccountsHere(env.maxAttempts, s.orders, FailOrRetry(env, s, x).orders, o);
      }
    } else {
      AttemptAccounts(env, s, x, o);
      AttemptOfUnparked(env, s, x);
    }
  }

  lemma AttemptElsewhere(env: Env, s: State, x: OrderId, o: OrderId)
    requires x != o
    ensures AttemptOps(env, s, x, o) == []
  {
  }

  lemma AttemptOfUnparked(env: Env, s: State, x: OrderId)
    ensures !s.IsParked(x) ==> Attempt(env, s, x) == s
  {
  }

  lemma OwnAccounts(env: Env, s: State, x: OrderId, op: Operation, o: OrderId, m': Orders)
    requires x in s.orders && s.orders[x].Allows(op) && !op.Offer? && m' == s.orders[x := s.orders[x].After(op)]
    ensures Accounts(env.maxAttempts, s.orders, OwnOps(s, x, op, o), m', o)
  {
    hide Accounts, AssignmentProps.After;
    if x == o {
      AccountsOne(env.maxAttempts, s.orders, op, m', o);
    } else {
      AccountsHere(env.maxAttempts, s.orders, m', o);
    }
  }

  lemma DeclineAccounts(env: Env, s: State, x: OrderId, op: Operation, o: OrderId)
    requires Inv(env, s) && x in s.orders && s.orders[x].Allows(op) && (op.Reject? || op.Expire?)
    ensures Accounts(env.maxAttempts, s.orders, DeclineOps(env, s, x, op, o), Decline(env, s, x, op).orders, o)
  {
    hide Inv, Accounts, Leads, FailOrRetry, FailOrRetryOps, OwnOps, Does;
    var t := Declined(env, s, x, op);
    OwnAccounts(env, s, x, op, o, t.orders);
    if s.orders[x].offerAttempts < env.maxAttempts {
      DeclineDoes(env, s, x, op);
      LeadsOne(env, false, s, Operated(x, op, s.Ticked().Now(env)), t);
      LeadsKeepsInv(env, false, s, t);
    }
    FailOrRetryAccounts(env, t, x, o);
    AccountsOn(env.maxAttempts, s.orders, OwnOps(s, x, op, o), t.orders,
               FailOrRetryOps(env, t, x, o), FailOrRetry(env, t, x).orders, o);
  }

  lemma CreatedAccounts(env: Env, s: State, e: EventId, msg: OrderCreatedMessage, o: OrderId)
    requires Inv(env, s) && (e !in s.processed ==> msg.orderId !in s.orders)
    ensures Accounts(env.maxAttempts, s.orders, CreatedOps(env, s, e, msg, o),
                     HandleOrderCreated(env, s, e, msg).state.orders, o)
  {
    hide Inv, Accounts, Leads, Attempt, AttemptOps, Build;
    AccountsHere(env.maxAttempts, s.orders, s.orders, o);
    if e !in s.processed && Build(msg, s.Now(env)).Success? {
      var p := Build(msg, s.Now(env)).value;
      BuiltIsNew(msg, s.Now(env));
      var t := Announced(s, e, msg.orderId, p);
      LeadsOne(env, false, s, Placed(p), t);
      LeadsKeepsInv(env, false, s, t);
      PlacedAccounts(env.maxAttempts, s.orders, p, o);
      AttemptAccounts(env, t, msg.orderId, o);
      var ops := AttemptOps(env, t, msg.orderId, o);
      AccountsOn(env.maxAttempts, s.orders, [], t.orders, ops, Attempt(env, t, msg.orderId).orders, o);
      assert [] + ops == ops;
    }
  }

  lemma PlacedAccounts(max: nat, m: Orders, p: AssignmentProps, o: OrderId)
    requires IsNew(p) && p.orderId !in m
    ensures Accounts(max, m, [], m[p.orderId := p], o)
  {
    if p.orderId == o {
      assert Life(max, p, [], p);
    }
  }

  /** After a step that keeps the invariant, a retry pass. */
  lemma RetryAfterAccounts(env: Env, s: State, ops: seq<Operation>, m: Micro, t: State, o: OrderId)
    requires Inv(env, s) && Does(env, s, m, t) && Accounts(env.maxAttempts, s.orders, ops, t.orders, o)
    ensures Accounts(env.maxAttempts, s.orders, ops + RetryParkedOps(env, t, o), RetryParked(env, t).orders, o)
  {
    hide Inv, Accounts, Leads, Does, RetryOps, RetryEach;
    LeadsOne(env, false, s, m, t);
    LeadsKeepsInv(env, false, s, t);
    RetryAccounts(env, t, RetryList(t), o);
    AccountsOn(env.maxAttempts, s.orders, ops, t.orders, RetryParkedOps(env, t, o), RetryParked(env, t).orders, o);
  }

  lemma AvailabilityAccounts(
    env: Env, s: State, e: EventId, d: DriverId, isAvailable: bool, changedAt: Time, o: OrderId)
    requires Inv(env, s)
    ensures var c := AvailabilityChanged(e, d, isAvailable, changedAt);
      Accounts(env.maxAttempts, s.orders, CommandOps(env, s, c, o), Next(env, s, c).orders, o)
  {
    hide Inv, Accounts, RetryParked, RetryParkedOps;
    AccountsHere(env.maxAttempts, s.orders, s.orders, o);
    if e !in s.processed && isAvailable {
      var t := s.(processed := s.processed + {e}, pool := s.pool.OnWilling(d, changedAt));
      RetryAfterAccounts(env, s, [], Willing(d, changedAt), t, o);
      assert [] + RetryParkedOps(env, t, o) == RetryParkedOps(env, t, o);
    }
  }

  lemma CompletedAccounts(env: Env, s: State, e: EventId, x: OrderId, o: OrderId)
    requires Inv(env, s)
    ensures Accounts(env.maxAttempts, s.orders, CompletedOps(env, s, e, x, o), CompleteDelivery(env, s, e, x).orders, o)
  {
    hide Inv, Accounts, RetryParked, RetryParkedOps, Does, AssignmentProps.After;
    var op := Complete(s.Now(env));
    var (s1, freed) := CompleteInTransaction(env, s, e, x);
    CompleteDoes(env, s, e, x);
    match freed {
      case None =>
        IdleCompletion(env, s, e, x, o);
        AccountsHere(env.maxAttempts, s.orders, s1.orders, o);
      case Some(d) =>
        OwnAccounts(env, s, x, op, o, s1.orders);
        RetryAfterAccounts(env, s, OwnOps(s, x, op, o), Operated(x, op, s1.Now(env)), s1.Freed(env, d), o);
    }
  }

  lemma IdleCompletion(env: Env, s: State, e: EventId, x: OrderId, o: OrderId)
    requires Inv(env, s) && CompleteInTransaction(env, s, e, x).1 == None
    ensures CompletedOps(env, s, e, x, o) == []
    ensures CompleteInTransaction(env, s, e, x).0.orders == s.orders
  {
    hide Inv;
    if x in s.orders {
      OrderIsProper(env, s, x);
    }
  }

  lemma CancelledAccounts(env: Env, s: State, e: EventId, x: OrderId, o: OrderId)
    requires Inv(env, s)
    ensures Accounts(env.maxAttempts, s.orders, CancelledOps(env, s, e, x, o), CancelOrder(env, s, e, x).orders, o)
  {
    hide Inv, Accounts, RetryParked, RetryParkedOps;
    var op := Operation.Cancel(s.Now(env));
    var (s1, freed) := CancelInTransaction(env, s, e, x);
    var t := match freed case None => s1 case Some(d) => s1.Freed(env, d);
    if e in s.processed || x !in s.orders || !s.orders[x].Allows(op) {
      AccountsHere(env.maxAttempts, s.orders, s1.orders, o);
      RetryAfterAccounts(env, s, [], Idle(multiset{}), t, o);
    } else {
      OwnAccounts(env, s, x, op, o, s1.orders);
      RetryAfterAccounts(env, s, OwnOps(s, x, op, o), Operated(x, op, s1.Now(env)), t, o);
    }
  }

  /** Accept and force-assign: one operation on one order, or none. */
  lemma SingleAccounts(env: Env, s: State, c: Command, o: OrderId)
    requires c.DriverAccepts? || c.AdminForces?
    ensures Accounts(env.maxAttempts, s.orders, CommandOps(env, s, c, o), Next(env, s, c).orders, o)
  {
    hide Accounts, AssignmentProps.After;
    var op := if c.DriverAccepts? then Operation.Accept(c.driverId, s.Now(env)) else Force(c.driverId, s.Now(env));
    AccountsHere(env.maxAttempts, s.orders, s.orders, o);
    if c.orderId in s.orders && s.orders[c.orderId].Allows(op) {
      OwnAccounts(env, s, c.orderId, op, o, s.orders[c.orderId := s.orders[c.orderId].After(op)]);
    }
  }

  lemma CommandAccounts(env: Env, s: State, c: Command, o: OrderId)
    requires Inv(env, s) && CreatedOnce(s, c)
    ensures Accounts(env.maxAttempts, s.orders, CommandOps(env, s, c, o), Next(env, s, c).orders, o)
  {
    hide Inv, Accounts, Decline, HandleOrderCreated, CompleteDelivery, CancelOrder, CreatedOps, CompletedOps,
      CancelledOps;
    AccountsHere(env.maxAttempts, s.orders, s.orders, o);
    match c {
      case OrderCreated(e, msg) => CreatedAccounts(env, s, e, msg, o);
      case AvailabilityChanged(e, d, isAvailable, changedAt) =>
        AvailabilityAccounts(env, s, e, d, isAvailable, changedAt, o);
      case DeliveryCompleted(e, x) => CompletedAccounts(env, s, e, x, o);
      case OrderCancelled(e, x) => CancelledAccounts(env, s, e, x, o);
      case OfferExpired(t, _) =>
        var op := Expire(t.attemptNo, s.Now(env));
        if t.orderId in s.orders && s.orders[t.orderId].Allows(op) {
          DeclineAccounts(env, s, t.orderId, op, o);
        }
      case DriverRejects(x, d) =>
        var op := Reject(d, s.Now(env));
        if x in s.orders && s.orders[x].Allows(op) {
          DeclineAccounts(env, s, x, op, o);
        }
      case _ => SingleAccounts(env, s, c, o);
    }
  }

  /**
    The operations a run applies to an order, creation's own offer included and a failure counted
    apart from the decline before it, lead one by one from where the order stood, or from its
    creation, to where it stands at the end.
   */
  lemma {:induction false} RunAccounts(env: Env, s: State, cs: seq<Command>, o: OrderId)
    requires Inv(env, s) && LegalRun(env, s, cs)
    ensures Accounts(env.maxAttempts, s.orders, RunOps(env, s, cs, o), Run(env, s, cs).orders, o)
    decreases |cs|
  {
    hide Inv, Accounts, Leads, Next, CommandOps;
    if cs == [] {
      AccountsHere(env.maxAttempts, s.orders, s.orders, o);
    } else {
      var t := Next(env, s, cs[0]);
      CommandAccounts(env, s, cs[0], o);
      NextLeads(env, false, s, cs[0]);
      LeadsKeepsInv(env, false, s, t);
      RunAccounts(env, t, cs[1..], o);
      AccountsOn(env.maxAttempts, s.orders, CommandOps(env, s, cs[0], o), t.orders,
                 RunOps(env, t, cs[1..], o), Run(env, t, cs[1..]).orders, o);
    }
  }

  /** From any reachable state an order has at most its measure of status changes ahead. */
  lemma RemainingLife(env: Env, s: State, cs: seq<Command>, o: OrderId)
    requires Inv(env, s) && LegalRun(env, s, cs) && o in s.orders
    ensures o in Run(env, s, cs).orders
    ensures |RunOps(env, s, cs, o)|
         <= Measure(env.maxAttempts, s.orders[o]) - Measure(env.maxAttempts, Run(env, s, cs).orders[o])
  {
    hide Inv, Run, RunOps, LegalRun, Measure, Life;
    RunAccounts(env, s, cs, o);
    OrderIsProper(env, s, o);
    LifeIsBounded(env.maxAttempts, s.orders[o], RunOps(env, s, cs, o), Run(env, s, cs).orders[o]);
  }

  /** No run from scratch makes more than 2 * maxAttempts + 3 status changes in one order. */
  lemma BoundedLife(env: Env, cs: seq<Command>, o: OrderId)
    requires LegalRun(env, START, cs)
    ensures |RunOps(env, START, cs, o)| <= 2 * env.maxAttempts + 3
  {
    hide Inv, Run, RunOps, LegalRun, Life;
    StartIsFine(env);
    RunAccounts(env, START, cs, o);
    if o in Run(env, START, cs).orders {
      var ops, q := RunOps(env, START, cs, o), Run(env, START, cs).orders[o];
      var p :| IsNew(p) && p.orderId == o && Life(env.maxAttempts, p, ops, q);
      LifeIsBounded(env.maxAttempts, p, ops, q);
    }
  }

  lemma {:induction false} RunOpsSplit(env: Env, s: State, cs: seq<Command>, ds: seq<Command>, o: OrderId)
    ensures RunOps(env, s, cs + ds, o) == RunOps(env, s, cs, o) + RunOps(env, Run(env, s, cs), ds, o)
    decreases |cs|
  {
    hide Next, CommandOps;
    if cs == [] {
      assert cs + ds == ds;
    } else {
      assert (cs + ds)[1..] == cs[1..] + ds;
      RunOpsSplit(env, Next(env, s, cs[0]), cs[1..], ds, o);
    }
  }

  lemma RunOpsOfOne(env: Env, s: State, c: Command, o: OrderId)
    ensures RunOps(env, s, [c], o) == CommandOps(env, s, c, o)
  {
    hide Next, CommandOps;
    assert [c][1..] == [];
  }
}
