/** The aggregate root: an object whose methods check its status and overwrite its fields. */
module Aggregate {
  import opened Wrappers
  import opened Domain
  import opened ValueObjects
  import opened AssignmentModel

  class Assignment {
    const orderId: OrderId
    const customerId: CustomerId
    const pickup: AddressSnapshot
    const dropoff: AddressSnapshot
    const items: seq<OrderItemLine>
    const scheduledFor: Option<Time>
    const createdAt: Time
    var status: AssignmentStatus
    var assignedDriverId: Option<DriverId>
    var offerAttempts: nat
    var attempts: seq<OfferAttempt>
    var updatedAt: Time
    var events: seq<DomainEvent>

    function Props(): AssignmentProps
      reads this
    {
      AssignmentProps(orderId, customerId, pickup, dropoff, items, scheduledFor,
                      status, assignedDriverId, offerAttempts, attempts, createdAt, updatedAt)
    }

    constructor FromPersistence(p: AssignmentProps)
      ensures Props() == p && events == []
    {
      orderId, customerId, pickup, dropoff := p.orderId, p.customerId, p.pickup, p.dropoff;
      items, scheduledFor, createdAt := p.items, p.scheduledFor, p.createdAt;
      status, assignedDriverId := p.status, p.assignedDriverId;
      offerAttempts, attempts, updatedAt := p.offerAttempts, p.attempts, p.updatedAt;
      events := [];
    }

    /** One call: the step of the state, and its events added to the buffer. */
    twostate predicate Did(op: Operation)
      reads this
    {
      && IsStep(old(Props()), op, Props())
      && events == old(events) + if old(Props()).Allows(op) then old(Props()).EventsOf(op) else []
    }

    /** The last attempt has its answer; the ones before it, and the count, are as they were. */
    twostate predicate AnsweredLast(outcome: OfferOutcome, now: Time)
      reads this
    {
      && offerAttempts == old(offerAttempts) && |attempts| == |old(attempts)| > 0
      && attempts[..|attempts| - 1] == old(attempts)[..|attempts| - 1]
      && attempts[|attempts| - 1] == old(attempts)[|attempts| - 1].(outcome := outcome, respondedAt := Some(now))
    }

    method OfferTo(id: AttemptId, driverId: DriverId, now: Time, expiresAt: Time) returns (r: Result<(), DomainError>)
      modifies this
      ensures Did(Offer(id, driverId, now, expiresAt))
      ensures r.Success? <==> old(status) == AwaitingDriver
      ensures r.Success? ==>
        && status == Offered && offerAttempts == old(offerAttempts) + 1 && assignedDriverId == old(assignedDriverId)
        && attempts
             == old(attempts) + [OfferAttempt(id, driverId, old(offerAttempts) + 1, Pending, now, None, expiresAt)]
      ensures !r.Success? ==> Props() == old(Props())
    {
      if status != AwaitingDriver {
        return Failure(InvariantViolation("cannot offer"));
      }
      var attemptNo := offerAttempts + 1;
      attempts := attempts + [OfferAttempt(id, driverId, attemptNo, Pending, now, None, expiresAt)];
      offerAttempts := attemptNo;
      status := Offered;
      updatedAt := now;
      return Success(());
    }

    /** Overwrites the outcome of the current attempt in place. */
    method ResolveCurrent(outcome: OfferOutcome, now: Time)
      requires attempts != []
      modifies this`attempts
      ensures attempts == old(Props()).Resolved(outcome, now)
    {
      var last := |attempts| - 1;
      attempts := attempts[last := attempts[last].(outcome := outcome, respondedAt := Some(now))];
    }

    method Accept(driverId: DriverId, now: Time) returns (r: Result<(), DomainError>)
      modifies this
      ensures Did(Operation.Accept(driverId, now))
      ensures r == AnswerReply(old(Props()), driverId)
      ensures r == Success(()) ==>
        && status == Assigned && assignedDriverId == Some(driverId) && AnsweredLast(Accepted, now)
        && events == old(events) + [DriverAssigned(orderId, driverId, now)]
      ensures r != Success(()) ==> Props() == old(Props()) && events == old(events)
    {
      if status != Offered {
        return Failure(NoActiveOffer);
      }
      if attempts == [] || attempts[|attempts| - 1].driverId != driverId {
        return Failure(NotOfferedDriver);
      }
      ResolveCurrent(Accepted, now);
      status := Assigned;
      assignedDriverId := Some(driverId);
      updatedAt := now;
      events := events + [DriverAssigned(orderId, driverId, now)];
      return Success(());
    }

    method RejectByDriver(driverId: DriverId, now: Time) returns (r: Result<(), DomainError>)
      modifies this
      ensures Did(Reject(driverId, now))
      ensures r == AnswerReply(old(Props()), driverId)
      ensures r == Success(()) ==>
        status == AwaitingDriver && assignedDriverId == old(assignedDriverId) && AnsweredLast(Rejected, now)
      ensures r != Success(()) ==> Props() == old(Props())
    {
      if status != Offered {
        return Failure(NoActiveOffer);
      }
      if attempts == [] || attempts[|attempts| - 1].driverId != driverId {
        return Failure(NotOfferedDriver);
      }
      ResolveCurrent(Rejected, now);
      status := AwaitingDriver;
      updatedAt := now;
      return Success(());
    }

    method ExpireOffer(attemptNo: nat, now: Time) returns (expired: bool)
      modifies this
      ensures Did(Expire(attemptNo, now))
      ensures expired <==>
        && old(status) == Offered && old(attempts) != []
        && old(attempts)[|old(attempts)| - 1].attemptNo == attemptNo
        && old(attempts)[|old(attempts)| - 1].outcome == Pending
      ensures expired ==>
        status == AwaitingDriver && assignedDriverId == old(assignedDriverId) && AnsweredLast(Expired, now)
      ensures !expired ==> Props() == old(Props())
    {
      if status != Offered {
        return false;
      }
      if attempts == [] {
        return false;
      }
      var cur := attempts[|attempts| - 1];
      if cur.attemptNo != attemptNo || cur.outcome != Pending {
        return false;
      }
      ResolveCurrent(Expired, now);
      status := AwaitingDriver;
      updatedAt := now;
      return true;
    }

    method MarkFailed(now: Time) returns (r: Result<(), DomainError>)
      modifies this
      ensures Did(Fail(now))
      ensures r.Success? <==> old(status) == AwaitingDriver
      ensures r.Success? ==> status == Failed && attempts == old(attempts)
                             && events == old(events) + [AssignmentFailed(orderId, now)]
      ensures !r.Success? ==> Props() == old(Props()) && events == old(events)
    {
      if status != AwaitingDriver {
        return Failure(InvariantViolation("cannot fail"));
      }
      status := Failed;
      updatedAt := now;
      events := events + [AssignmentFailed(orderId, now)];
      return Success(());
    }

    method MarkCompleted(now: Time) returns (completed: bool)
      modifies this
      ensures Did(Complete(now))
      ensures completed <==> old(status) == Assigned
      ensures completed ==>
        status == Completed && attempts == old(attempts) && assignedDriverId == old(assignedDriverId)
      ensures !completed ==> Props() == old(Props())
    {
      if status != Assigned {
        return false;
      }
      status := Completed;
      updatedAt := now;
      return true;
    }

    /** Returns the driver this order was keeping off the queue, so that the caller can free them. */
    method Cancel(now: Time) returns (freed: Option<DriverId>)
      modifies this
      ensures Did(Operation.Cancel(now))
      ensures old(status) in {AwaitingDriver, Offered, Assigned} ==>
        status == Cancelled && assignedDriverId == old(assignedDriverId)
      ensures old(status) == AwaitingDriver ==> freed == None && attempts == old(attempts)
      ensures old(status) == Offered && old(attempts) != [] ==>
        freed == Some(old(attempts)[|old(attempts)| - 1].driverId) && AnsweredLast(Expired, now)
      ensures old(status) == Assigned ==> freed == old(assignedDriverId) && attempts == old(attempts)
      ensures old(status) in {Completed, Cancelled, Failed} ==> freed == None && Props() == old(Props())
      ensures freed == old(Props()).Holder()
    {
      if IsTerminal(status) {
        return None;
      }
      freed := None;
      if status == Assigned {
        freed := assignedDriverId;
      } else if status == Offered {
        if attempts != [] {
          freed := Some(attempts[|attempts| - 1].driverId);
          ResolveCurrent(Expired, now);
        }
      }
      status := Cancelled;
      updatedAt := now;
    }

    method ForceAssign(driverId: DriverId, now: Time) returns (r: Result<(), DomainError>)
      modifies this
      ensures Did(Force(driverId, now))
      ensures r == if old(status) == AwaitingDriver || old(status) == Failed
                   then Success(()) else Failure(ForceAssignNotAllowed)
      ensures r == Success(()) ==>
        && status == Assigned && assignedDriverId == Some(driverId) && attempts == old(attempts)
        && events == old(events) + [DriverAssigned(orderId, driverId, now)]
      ensures r != Success(()) ==> Props() == old(Props()) && events == old(events)
    {
      if status != AwaitingDriver && status != Failed {
        return Failure(ForceAssignNotAllowed);
      }
      status := Assigned;
      assignedDriverId := Some(driverId);
      updatedAt := now;
      events := events + [DriverAssigned(orderId, driverId, now)];
      return Success(());
    }

    method PullEvents() returns (out: seq<DomainEvent>)
      modifies this`events
      ensures out == old(events) && events == []
    {
      out := events;
      events := [];
    }
  }

  /** What accept and reject tell the driver. */
  function AnswerReply(p: AssignmentProps, d: DriverId): Result<(), DomainError> {
    if p.status != Offered then Failure(NoActiveOffer)
    else if p.attempts == [] || p.attempts[|p.attempts| - 1].driverId != d then Failure(NotOfferedDriver)
    else Success(())
  }
}
