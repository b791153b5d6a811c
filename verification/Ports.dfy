/** The stateful adapters the use cases talk to. */
module Adapters {
  import opened Wrappers
  import opened Domain
  import opened AssignmentModel
  import opened RepositoryModel
  import opened DispatchModel
  import opened Aggregate

  class PrismaAssignmentRepository {
    var assignments: map<OrderId, AssignmentRow>
    var attempts: AttemptTable

    function Stored(): Tables
      reads this
    {
      Tables(assignments, attempts)
    }

    constructor ()
      ensures Stored() == EMPTY_TABLES
    {
      assignments, attempts := map[], map[];
    }

    /** `a` is what the rows of its order say, with no pending events. */
    ghost predicate IsLoaded(a: Assignment)
      reads this, a
    {
      RepositoryModel.ById(Stored(), a.orderId) == Success(Some(a.Props())) && a.events == []
    }

    /** A fresh aggregate rebuilt from the rows, with no pending events. */
    method ById(o: OrderId) returns (r: Result<Option<Assignment>, DomainError>)
      ensures match RepositoryModel.ById(Stored(), o)
              case Failure(e) => r == Failure(e)
              case Success(None) => r == Success(None)
              case Success(Some(p)) =>
                && r.Success? && r.value.Some? && fresh(r.value.value)
                && r.value.value.Props() == p && r.value.value.events == []
    {
      var loaded := RepositoryModel.ById(Stored(), o);
      if loaded.Failure? {
        return Failure(loaded.error);
      }
      if loaded.value == None {
        return Success(None);
      }
      var a := new Assignment.FromPersistence(loaded.value.value);
      return Success(Some(a));
    }

    /** Upsert the assignment row, then each attempt row in turn. */
    method Save(a: Assignment)
      modifies this
      ensures Stored() == RepositoryModel.Save(old(Stored()), a.Props())
    {
      var p := a.Props();
      assignments := assignments[p.orderId := ToPersistence(p)];
      for i := 0 to |p.attempts|
        invariant assignments == old(assignments)[p.orderId := ToPersistence(p)]
        invariant attempts == UpsertAttempts(old(attempts), p.orderId, p.attempts[..i])
      {
        var at := p.attempts[i];
        if at.id in attempts {
          attempts := attempts[at.id := attempts[at.id].(outcome := at.outcome, respondedAt := at.respondedAt)];
        } else {
          attempts := attempts[at.id := ToAttemptRow(p.orderId, at)];
        }
        assert p.attempts[..i + 1][..i] == p.attempts[..i];
      }
      assert p.attempts[..|p.attempts|] == p.attempts;
    }

    /** The page of parked orders, each rebuilt from its rows; one malformed row fails the call. */
    method AwaitingDriverOldestFirst(limit: nat) returns (r: Result<seq<Assignment>, DomainError>)
      ensures match r
              case Success(list) =>
                && OldestPage(assignments, limit, OrderIds(list))
                && (forall i :: 0 <= i < |list| ==> fresh(list[i]) && IsLoaded(list[i]))
              case Failure(e) =>
                exists page, o :: OldestPage(assignments, limit, page) && o in page
                               && RepositoryModel.ById(Stored(), o) == Failure(e)
    {
      var page := AwaitingOldestFirst(AwaitingRows(Stored()), limit);
      ListingIsOldestPage(Stored(), limit);
      PageIsStored(Stored(), limit, page);
      hide OldestPage, RepositoryModel.ById, IsLoaded, OrderIds, AwaitingRows, AwaitingOldestFirst;
      r := Rebuild(page);
    }

    method Rebuild(page: seq<OrderId>) returns (r: Result<seq<Assignment>, DomainError>)
      requires forall o :: o in page ==> o in assignments
      ensures match r
              case Success(list) =>
                OrderIds(list) == page && forall i :: 0 <= i < |list| ==> fresh(list[i]) && IsLoaded(list[i])
              case Failure(e) => exists o :: o in page && RepositoryModel.ById(Stored(), o) == Failure(e)
    {
      hide RepositoryModel.ById;
      var list := [];
      for i := 0 to |page|
        invariant |list| == i && OrderIds(list) == page[..i]
        invariant forall k :: 0 <= k < i ==> fresh(list[k]) && IsLoaded(list[k])
      {
        var a := ById(page[i]);
        if a.Failure? {
          return Failure(a.error);
        }
        LoadedId(Stored(), page[i]);
        list := list + [a.value.value];
      }
      assert page[..|page|] == page;
      return Success(list);
    }

    /** Any one order whose row is offered and that has a pending attempt for this driver. */
    method OfferedForDriver(d: DriverId) returns (r: Result<Option<Assignment>, DomainError>)
      ensures match r
              case Success(None) => forall o :: !OfferRow(Stored(), o, d)
              case Success(Some(a)) =>
                OfferRow(Stored(), a.orderId, d) && fresh(a) && IsLoaded(a)
              case Failure(e) => exists o :: OfferRow(Stored(), o, d) && RepositoryModel.ById(Stored(), o) == Failure(e)
    {
      var rows := attempts;
      while rows != map[]
        invariant forall id :: id in rows ==> id in attempts && rows[id] == attempts[id]
        invariant forall id :: id in attempts && id !in rows ==>
                    !(attempts[id].driverId == d && attempts[id].outcome == Pending
                      && attempts[id].orderId in assignments && assignments[attempts[id].orderId].status == Offered)
        decreases |rows|
      {
        var id :| id in rows;
        var row := rows[id];
        if row.driverId == d && row.outcome == Pending
           && row.orderId in assignments && assignments[row.orderId].status == Offered
        {
          assert OfferRow(Stored(), row.orderId, d);
          hide OfferRow, RepositoryModel.ById;
          r := ById(row.orderId);
          if r.Success? {
            LoadedId(Stored(), row.orderId);
          }
          return;
        }
        assert (rows - {id}).Keys == rows.Keys - {id};
        rows := rows - {id};
      }
      return Success(None);
    }
  }

  function OrderIds(list: seq<Assignment>): seq<OrderId> {
    seq(|list|, i requires 0 <= i < |list| => list[i].orderId)
  }

  lemma PageIsStored(s: Tables, limit: nat, page: seq<OrderId>)
    requires OldestPage(s.assignments, limit, page)
    ensures forall o :: o in page ==> o in s.assignments
  {
  }

  lemma LoadedId(s: Tables, o: OrderId)
    requires o in s.assignments && RepositoryModel.ById(s, o).Success?
    ensures RepositoryModel.ById(s, o).value.Some? && RepositoryModel.ById(s, o).value.value.orderId == o
  {
    hide ToDomain;
    LoadedFields(s, o);
  }

  class PrismaProcessedEventRepository {
    var seen: set<EventId>

    constructor ()
      ensures seen == {}
    {
      seen := {};
    }

    /** Insert under the unique key; a violation means the event was seen. */
    method RecordIfNew(e: EventId) returns (isNew: bool)
      modifies this
      ensures isNew <==> e !in old(seen)
      ensures seen == old(seen) + {e}
    {
      isNew := e !in seen;
      seen := seen + {e};
    }

    /** The enclosing transaction is abandoned. */
    method Rollback(snapshot: set<EventId>)
      modifies this
      ensures seen == snapshot
    {
      seen := snapshot;
    }
  }

  class RabbitMqOfferScheduler {
    var holding: multiset<Timer>

    constructor ()
      ensures holding == multiset{}
    {
      holding := multiset{};
    }

    method ScheduleExpiry(o: OrderId, attemptNo: nat)
      modifies this
      ensures holding == old(holding) + multiset{Timer(o, attemptNo)}
    {
      holding := holding + multiset{Timer(o, attemptNo)};
    }

    method Acknowledge(t: Timer)
      modifies this
      ensures holding == old(holding) - multiset{t}
    {
      holding := holding - multiset{t};
    }
  }

  class RabbitMqEventPublisher {
    var published: seq<DomainEvent>

    constructor ()
      ensures published == []
    {
      published := [];
    }

    method PublishAll(events: seq<DomainEvent>)
      modifies this
      ensures published == old(published) + events
    {
      for i := 0 to |events|
        invariant published == old(published) + events[..i]
      {
        published := published + [events[i]];
      }
      assert events[..|events|] == events;
    }
  }

  class SystemClock {
    const readings: nat -> Time
    var ticks: nat

    constructor (readings: nat -> Time)
      ensures this.readings == readings && ticks == 0
    {
      this.readings, ticks := readings, 0;
    }

    method Now() returns (t: Time)
      modifies this
      ensures t == readings(old(ticks)) && ticks == old(ticks) + 1
    {
      t := readings(ticks);
      ticks := ticks + 1;
    }
  }

  /** UUID v7: never the same id twice. */
  class AttemptIds {
    var next: AttemptId

    constructor ()
      ensures next == 0
    {
      next := 0;
    }

    method NewId() returns (id: AttemptId)
      modifies this
      ensures id == old(next) && next == id + 1
    {
      id := next;
      next := next + 1;
    }
  }
}
