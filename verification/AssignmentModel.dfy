/** What an assignment is and what one operation on it does, as values. */
module AssignmentModel {
  import opened Wrappers
  import opened Domain
  import opened ValueObjects

  datatype AssignmentStatus = AwaitingDriver | Offered | Assigned | Completed | Cancelled | Failed

  predicate IsTerminal(s: AssignmentStatus) {
    s == Completed || s == Cancelled || s == Failed
  }

  /** `Pending` is the outcome the service calls "offered". */
  datatype OfferOutcome = Pending | Accepted | Rejected | Expired {
    predicate Declined() {
      Rejected? || Expired?
    }
  }

  datatype OfferAttempt = OfferAttempt(
    id: AttemptId,
    driverId: DriverId,
    attemptNo: nat,
    outcome: OfferOutcome,
    offeredAt: Time,
    respondedAt: Option<Time>,
    expiresAt: Time)
  {
    function Resolve(outcome: OfferOutcome, now: Time): OfferAttempt {
      this.(outcome := outcome, respondedAt := Some(now))
    }
  }

  datatype DomainEvent =
    | DriverAssigned(orderId: OrderId, driverId: DriverId, occurredAt: Time)
    | AssignmentFailed(orderId: OrderId, occurredAt: Time)

  datatype Operation =
    | Offer(id: AttemptId, driverId: DriverId, now: Time, expiresAt: Time)
    | Accept(driverId: DriverId, now: Time)
    | Reject(driverId: DriverId, now: Time)
    | Expire(attemptNo: nat, now: Time)
    | Fail(now: Time)
    | Complete(now: Time)
    | Cancel(now: Time)
    | Force(driverId: DriverId, now: Time)

  /** `attempts.filter(rejected or expired).map(driverId)`. */
  function DeclinedDrivers(attempts: seq<OfferAttempt>): seq<DriverId> {
    if attempts == [] then [] else
    (if attempts[0].outcome.Declined() then [attempts[0].driverId] else []) + DeclinedDrivers(attempts[1..])
  }

  lemma {:induction false} DeclinedDriversAre(attempts: seq<OfferAttempt>, d: DriverId)
    ensures d in DeclinedDrivers(attempts)
       <==> exists i :: 0 <= i < |attempts| && attempts[i].outcome in {Rejected, Expired} && attempts[i].driverId == d
  {
    if attempts != [] {
      DeclinedDriversAre(attempts[1..], d);
      if i :| 0 <= i < |attempts| && attempts[i].outcome.Declined() && attempts[i].driverId == d {
        assert i > 0 ==> attempts[1..][i - 1] == attempts[i];
      }
      if j :| 0 <= j < |attempts[1..]| && attempts[1..][j].outcome.Declined() && attempts[1..][j].driverId == d {
        assert attempts[j + 1] == attempts[1..][j];
      }
    }
  }

  datatype AssignmentProps = AssignmentProps(
    orderId: OrderId,
    customerId: CustomerId,
    pickup: AddressSnapshot,
    dropoff: AddressSnapshot,
    items: seq<OrderItemLine>,
    scheduledFor: Option<Time>,
    status: AssignmentStatus,
    assignedDriverId: Option<DriverId>,
    offerAttempts: nat,
    attempts: seq<OfferAttempt>,
    createdAt: Time,
    updatedAt: Time)
  {
    function CurrentAttempt(): Option<OfferAttempt> {
      if attempts == [] then None else Some(attempts[|attempts| - 1])
    }

    function TriedDriverIds(): seq<DriverId> {
      DeclinedDrivers(attempts)
    }

    /** The driver an offered or assigned order keeps off the queue. */
    function Holder(): Option<DriverId> {
      if status == Assigned then assignedDriverId
      else if status == Offered && attempts != [] then Some(attempts[|attempts| - 1].driverId)
      else None
    }

    /** When an operation takes effect; otherwise the aggregate throws or ignores it. */
    predicate Allows(op: Operation) {
      match op
      case Offer(_, _, _, _) => status == AwaitingDriver
      case Accept(d, _) => status == Offered && attempts != [] && attempts[|attempts| - 1].driverId == d
      case Reject(d, _) => status == Offered && attempts != [] && attempts[|attempts| - 1].driverId == d
      case Expire(n, _) =>
        && status == Offered && attempts != []
        && attempts[|attempts| - 1].attemptNo == n && attempts[|attempts| - 1].outcome == Pending
      case Fail(_) => status == AwaitingDriver
      case Complete(_) => status == Assigned
      case Cancel(_) => !IsTerminal(status)
      case Force(_, _) => status == AwaitingDriver || status == Failed
    }

    function Resolved(outcome: OfferOutcome, now: Time): seq<OfferAttempt>
      requires attempts != []
    {
      attempts[|attempts| - 1 := attempts[|attempts| - 1].Resolve(outcome, now)]
    }

    function After(op: Operation): AssignmentProps
      requires Allows(op)
    {
      match op
      case Offer(id, d, now, expiresAt) =>
        this.(attempts := attempts + [OfferAttempt(id, d, offerAttempts + 1, Pending, now, None, expiresAt)],
              offerAttempts := offerAttempts + 1, status := Offered, updatedAt := now)
      case Accept(d, now) =>
        this.(attempts := Resolved(Accepted, now), status := Assigned, assignedDriverId := Some(d), updatedAt := now)
      case Reject(_, now) =>
        this.(attempts := Resolved(Rejected, now), status := AwaitingDriver, updatedAt := now)
      case Expire(_, now) =>
        this.(attempts := Resolved(Expired, now), status := AwaitingDriver, updatedAt := now)
      case Fail(now) =>
        this.(status := Failed, updatedAt := now)
      case Complete(now) =>
        this.(status := Completed, updatedAt := now)
      case Cancel(now) =>
        this.(attempts := if status == Offered && attempts != [] then Resolved(Expired, now) else attempts,
              status := Cancelled, updatedAt := now)
      case Force(d, now) =>
        this.(status := Assigned, assignedDriverId := Some(d), updatedAt := now)
    }

    /** The events an effective operation leaves in the aggregate's buffer. */
    function EventsOf(op: Operation): seq<DomainEvent> {
      match op
      case Accept(d, now) => [DriverAssigned(orderId, d, now)]
      case Force(d, now) => [DriverAssigned(orderId, d, now)]
      case Fail(now) => [AssignmentFailed(orderId, now)]
      case _ => []
    }
  }

  /** `q` is what a call of `op` makes of `p`: the effect if it is allowed, nothing otherwise. */
  ghost predicate IsStep(p: AssignmentProps, op: Operation, q: AssignmentProps) {
    if p.Allows(op) then q == p.After(op) else q == p
  }

  function FromOrderCreated(
    orderId: OrderId, customerId: CustomerId, pickup: AddressSnapshot, dropoff: AddressSnapshot,
    items: seq<OrderItemLine>, scheduledFor: Option<Time>, now: Time): AssignmentProps
  {
    AssignmentProps(orderId, customerId, pickup, dropoff, items, scheduledFor,
                    AwaitingDriver, None, 0, [], now, now)
  }

  // ----- What every reachable assignment looks like -----

  ghost predicate AllDeclined(attempts: seq<OfferAttempt>) {
    forall i :: 0 <= i < |attempts| ==> attempts[i].outcome.Declined()
  }

  /** Declined offers, then one whose outcome is `last`, made to `d`. */
  ghost predicate LastIs(attempts: seq<OfferAttempt>, last: OfferOutcome, d: DriverId) {
    && attempts != []
    && AllDeclined(attempts[..|attempts| - 1])
    && attempts[|attempts| - 1].outcome == last
    && attempts[|attempts| - 1].driverId == d
  }

  /** Attempts carry the numbers 1, 2, .., offerAttempts in list order. */
  ghost predicate Numbered(p: AssignmentProps) {
    && |p.attempts| == p.offerAttempts
    && (forall i :: 0 <= i < |p.attempts| ==> p.attempts[i].attemptNo == i + 1)
  }

  /** No driver is offered the same order twice. */
  ghost predicate DistinctDrivers(p: AssignmentProps) {
    forall i, j :: 0 <= i < j < |p.attempts| ==> p.attempts[i].driverId != p.attempts[j].driverId
  }

  ghost predicate OutcomesFit(p: AssignmentProps) {
    match p.status
    case AwaitingDriver => p.assignedDriverId == None && AllDeclined(p.attempts)
    case Failed => p.assignedDriverId == None && AllDeclined(p.attempts)
    case Offered =>
      && p.assignedDriverId == None && p.attempts != []
      && LastIs(p.attempts, Pending, p.attempts[|p.attempts| - 1].driverId)
    case Cancelled =>
      AllDeclined(p.attempts)
      || (p.assignedDriverId.Some? && LastIs(p.attempts, Accepted, p.assignedDriverId.value))
    case _ =>
      && p.assignedDriverId.Some?
      && (AllDeclined(p.attempts) || LastIs(p.attempts, Accepted, p.assignedDriverId.value))
  }

  ghost predicate Sound(p: AssignmentProps) {
    Numbered(p) && DistinctDrivers(p) && OutcomesFit(p)
  }

  /** Offers made against the limit: room for one more while parked, none left once failed. */
  ghost predicate Within(max: nat, p: AssignmentProps) {
    && p.offerAttempts <= max
    && (p.status == AwaitingDriver ==> p.offerAttempts < max)
    && (p.status == Failed ==> p.offerAttempts == max)
  }

  ghost predicate Proper(max: nat, p: AssignmentProps) {
    Sound(p) && Within(max, p)
  }

  lemma OfferKeepsSound(p: AssignmentProps, op: Operation)
    requires Sound(p) && op.Offer? && p.Allows(op) && op.driverId !in p.TriedDriverIds()
    ensures Sound(p.After(op))
  {
    var q := p.After(op);
    assert q.attempts[..|q.attempts| - 1] == p.attempts;
    forall i | 0 <= i < |p.attempts| ensures p.attempts[i].driverId != op.driverId {
      DeclinedDriversAre(p.attempts, op.driverId);
    }
  }

  lemma ResolveKeepsSound(p: AssignmentProps, op: Operation)
    requires Sound(p) && !op.Offer? && p.Allows(op)
    ensures Sound(p.After(op))
  {
  }

  /** Every operation of the aggregate keeps `Sound`, whatever the order of calls. */
  lemma OperationKeepsSound(p: AssignmentProps, op: Operation)
    requires Sound(p) && p.Allows(op)
    requires op.Offer? ==> op.driverId !in p.TriedDriverIds()
    ensures Sound(p.After(op))
  {
    if op.Offer? { OfferKeepsSound(p, op); } else { ResolveKeepsSound(p, op); }
  }

  /** The state machine, line by line: from which statuses an operation takes effect, and where it leads. */
  lemma StatusTable(p: AssignmentProps, op: Operation)
    requires Sound(p)
    ensures op.Offer? ==> (p.Allows(op) <==> p.status == AwaitingDriver)
    ensures op.Accept? || op.Reject? ==>
      (p.Allows(op) <==> p.status == Offered && p.attempts[|p.attempts| - 1].driverId == op.driverId)
    ensures op.Expire? ==> (p.Allows(op) <==> p.status == Offered && p.offerAttempts == op.attemptNo)
    ensures op.Fail? ==> (p.Allows(op) <==> p.status == AwaitingDriver)
    ensures op.Complete? ==> (p.Allows(op) <==> p.status == Assigned)
    ensures op.Cancel? ==> (p.Allows(op) <==> p.status in {AwaitingDriver, Offered, Assigned})
    ensures op.Force? ==> (p.Allows(op) <==> p.status in {AwaitingDriver, Failed})
    ensures p.Allows(op) ==>
      p.After(op).status == match op
                            case Offer(_, _, _, _) => Offered
                            case Accept(_, _) => Assigned
                            case Reject(_, _) => AwaitingDriver
                            case Expire(_, _) => AwaitingDriver
                            case Fail(_) => Failed
                            case Complete(_) => Completed
                            case Cancel(_) => Cancelled
                            case Force(_, _) => Assigned
    ensures p.Allows(op) && (op.Accept? || op.Reject? || op.Expire?) ==>
      var k := |p.attempts| - 1;
      && p.After(op).attempts[..k] == p.attempts[..k]
      && p.After(op).attempts[k].outcome == (if op.Accept? then Accepted else if op.Reject? then Rejected else Expired)
      && p.After(op).attempts[k].respondedAt == Some(op.now)
  {
  }

  // ----- Bounded life -----

  /** Falls with every status change; the failed state is left only by a force-assign. */
  ghost function Measure(max: nat, p: AssignmentProps): int {
    match p.status
    case AwaitingDriver => 2 * (max - p.offerAttempts) + 3
    case Offered => 2 * (max - p.offerAttempts) + 4
    case Failed => 2
    case Assigned => 1
    case _ => 0
  }

  /** An operation that takes effect is a status change, and the measure falls with it. */
  lemma OperationLowersMeasure(max: nat, p: AssignmentProps, op: Operation)
    requires p.Allows(op) && p.offerAttempts <= max
    requires op.Offer? ==> p.offerAttempts < max
    ensures p.After(op).status != p.status
    ensures 0 <= Measure(max, p.After(op)) < Measure(max, p) <= 2 * max + 4
  {
  }

  // ----- History is only appended to -----

  /** A past attempt: its offer is fixed, and once answered so is its answer. */
  ghost predicate SameAttempt(before: OfferAttempt, after: OfferAttempt) {
    && after.id == before.id && after.driverId == before.driverId && after.attemptNo == before.attemptNo
    && after.offeredAt == before.offeredAt && after.expiresAt == before.expiresAt
    && (before.outcome != Pending ==> after == before)
  }

  ghost predicate Continues(p: AssignmentProps, q: AssignmentProps) {
    && q.orderId == p.orderId && q.customerId == p.customerId && q.createdAt == p.createdAt
    && q.pickup == p.pickup && q.dropoff == p.dropoff && q.items == p.items && q.scheduledFor == p.scheduledFor
    && (p.assignedDriverId.Some? ==> q.assignedDriverId == p.assignedDriverId)
    && |p.attempts| <= |q.attempts|
    && (forall i :: 0 <= i < |p.attempts| ==> SameAttempt(p.attempts[i], q.attempts[i]))
  }

  lemma OperationContinues(p: AssignmentProps, op: Operation)
    requires Sound(p) && p.Allows(op)
    ensures Continues(p, p.After(op))
  {
  }

  // ----- Consequences -----

  function DriversOffered(attempts: seq<OfferAttempt>): set<DriverId> {
    set i | 0 <= i < |attempts| :: attempts[i].driverId
  }

  lemma {:induction false} DistinctDriversCount(attempts: seq<OfferAttempt>)
    requires forall i, j :: 0 <= i < j < |attempts| ==> attempts[i].driverId != attempts[j].driverId
    ensures |DriversOffered(attempts)| == |attempts|
  {
    if attempts != [] {
      var n := |attempts| - 1;
      DistinctDriversCount(attempts[..n]);
      assert DriversOffered(attempts) == DriversOffered(attempts[..n]) + {attempts[n].driverId};
    }
  }

  /** A failed order was declined by exactly `max` different drivers, and by nobody else. */
  lemma FailureNeedsExhaustion(max: nat, p: AssignmentProps)
    requires Proper(max, p) && p.status == Failed
    ensures |p.attempts| == max && AllDeclined(p.attempts)
    ensures |DriversOffered(p.attempts)| == max
    ensures forall d :: d in p.TriedDriverIds() <==> d in DriversOffered(p.attempts)
  {
    DistinctDriversCount(p.attempts);
    forall d ensures d in p.TriedDriverIds() <==> d in DriversOffered(p.attempts) {
      DeclinedDriversAre(p.attempts, d);
    }
  }

  /** An attempt still pending is the current attempt of an offered order, and nowhere else. */
  lemma PendingIsCurrent(p: AssignmentProps, i: nat)
    requires Sound(p) && i < |p.attempts|
    ensures p.attempts[i].outcome == Pending <==> p.status == Offered && i == |p.attempts| - 1
  {
  }

  /**
    `ops`, each taking effect on what the ones before it left, lead from `p` to `q`; offers stop at
    `max`. Every member of `ops` is one status change.
   */
  ghost predicate Life(max: nat, p: AssignmentProps, ops: seq<Operation>, q: AssignmentProps)
    decreases |ops|
  {
    if ops == [] then q == p else
    && p.Allows(ops[0])
    && (ops[0].Offer? ==> p.offerAttempts < max)
    && Life(max, p.After(ops[0]), ops[1..], q)
  }

  lemma {:induction false} LifeOn(
    max: nat, p: AssignmentProps, ops: seq<Operation>, q: AssignmentProps, more: seq<Operation>, r: AssignmentProps)
    requires Life(max, p, ops, q) && Life(max, q, more, r)
    ensures Life(max, p, ops + more, r)
    decreases |ops|
  {
    if ops == [] {
      assert ops + more == more;
    } else {
      LifeOn(max, p.After(ops[0]), ops[1..], q, more, r);
      assert (ops + more)[1..] == ops[1..] + more;
    }
  }

  /** However it goes, no order lives through more than 2 * max + 3 operations. */
  lemma {:induction false} LifeIsBounded(max: nat, p: AssignmentProps, ops: seq<Operation>, q: AssignmentProps)
    requires p.offerAttempts <= max && Life(max, p, ops, q)
    ensures |ops| <= Measure(max, p) - Measure(max, q)
    ensures p.status == AwaitingDriver ==> |ops| <= 2 * max + 3
    ensures q.offerAttempts <= max && (ops != [] ==> Measure(max, q) >= 0)
    decreases |ops|
  {
    if ops != [] {
      OperationLowersMeasure(max, p, ops[0]);
      LifeIsBounded(max, p.After(ops[0]), ops[1..], q);
    }
  }

  /** How a life ends: completed by a completion, cancelled by a cancellation, and nothing after either. */
  lemma {:induction false} LifeEnds(max: nat, p: AssignmentProps, ops: seq<Operation>, q: AssignmentProps)
    requires Life(max, p, ops, q)
    ensures q.status == Completed <==> p.status == Completed || exists i :: 0 <= i < |ops| && ops[i].Complete?
    ensures q.status == Cancelled <==> p.status == Cancelled || exists i :: 0 <= i < |ops| && ops[i].Cancel?
    ensures p.status in {Completed, Cancelled} ==> q == p
    ensures p.status == Assigned ==> q.status in {Assigned, Completed, Cancelled}
    decreases |ops|
  {
    if ops != [] {
      var t := p.After(ops[0]);
      LifeEnds(max, t, ops[1..], q);
      assert t.status == Completed <==> ops[0].Complete?;
      assert t.status == Cancelled <==> ops[0].Cancel?;
      if i :| 0 <= i < |ops[1..]| && ops[1..][i].Complete? {
        assert ops[i + 1].Complete?;
      }
      if i :| 0 <= i < |ops[1..]| && ops[1..][i].Cancel? {
        assert ops[i + 1].Cancel?;
      }
      if i :| 1 <= i < |ops| && ops[i].Complete? {
        assert ops[1..][i - 1].Complete?;
      }
      if i :| 1 <= i < |ops| && ops[i].Cancel? {
        assert ops[1..][i - 1].Cancel?;
      }
    }
  }

  /** The bound is exact: decline every offer, fail, force-assign, complete. */
  lemma {:induction false} LifeBoundIsAttained(max: nat, p: AssignmentProps)
    returns (ops: seq<Operation>, q: AssignmentProps)
    requires p.status == AwaitingDriver && p.offerAttempts <= max
    ensures Life(max, p, ops, q) && |ops| == 2 * (max - p.offerAttempts) + 3
    decreases max - p.offerAttempts
  {
    if p.offerAttempts == max {
      var p1 := p.After(Fail(0));
      var p2 := p1.After(Force(0, 0));
      q := p2.After(Complete(0));
      LifeOfOne(max, p2, Complete(0));
      ops := LifeWith(max, p1, Force(0, 0), [Complete(0)], q);
      ops := LifeWith(max, p, Fail(0), ops, q);
    } else {
      var p1 := p.After(Offer(0, 0, 0, 0));
      ops, q := LifeBoundIsAttained(max, p1.After(Reject(0, 0)));
      ops := LifeWith(max, p1, Reject(0, 0), ops, q);
      ops := LifeWith(max, p, Offer(0, 0, 0, 0), ops, q);
    }
  }

  lemma LifeOfOne(max: nat, p: AssignmentProps, op: Operation)
    requires p.Allows(op) && (op.Offer? ==> p.offerAttempts < max)
    ensures Life(max, p, [op], p.After(op))
  {
    assert [op][1..] == [];
  }

  lemma LifeWith(max: nat, p: AssignmentProps, op: Operation, rest: seq<Operation>, q: AssignmentProps)
    returns (ops: seq<Operation>)
    requires p.Allows(op) && (op.Offer? ==> p.offerAttempts < max) && Life(max, p.After(op), rest, q)
    ensures ops == [op] + rest && Life(max, p, ops, q)
  {
    ops := [op] + rest;
    assert ops[1..] == rest;
  }
}
