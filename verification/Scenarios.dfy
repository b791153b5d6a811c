/** Runs of the service, from scratch: three in which a natural property fails, and one longest life. */
module Scenarios {
  import opened Wrappers
  import opened Domain
  import opened Text
  import opened ValueObjects
  import opened AssignmentModel
  import opened PoolModel
  import opened RepositoryModel
  import opened DispatchModel
  import opened Invariants
  import opened Paths
  import opened Lifetimes
  import opened Retry
  import opened Theorems

  const HOME := AddressFields(None, "Quay", "Oslo", "NO", 59.9, 10.7)

  function Parcel(o: OrderId): OrderCreatedMessage {
    OrderCreatedMessage(o, 0, HOME, HOME, [], None)
  }

  lemma ParcelBuilds(o: OrderId, now: Time)
    ensures var r := Build(Parcel(o), now);
      && r.Success? && r.value.orderId == o && r.value.status == AwaitingDriver && r.value.offerAttempts == 0
      && r.value.attempts == [] && r.value.createdAt == now
  {
    TrimIsIdempotent("Quay");
    TrimIsIdempotent("Oslo");
  }

  // ----- The only driver is 7 -----

  /** Every order but `o` is parked and has been declined by driver 7 once. */
  ghost predicate AllTried(s: State, o: OrderId) {
    forall o' :: o' in s.orders && o' != o ==> s.IsParked(o') && 7 in s.orders[o'].TriedDriverIds()
  }

  /** Orders 1 to `n` are known, each announced by the event of its number. */
  ghost predicate Known(s: State, n: nat) {
    && (forall o :: o in s.orders <==> 1 <= o <= n)
    && (forall e :: e in s.processed <==> 0 <= e <= n)
  }

  /** Driver 7 is queued. */
  ghost predicate Free(s: State, n: nat) {
    && Known(s, n) && AllTried(s, 0)
    && s.pool == Pool({7}, s.pool.available, {}) && s.pool.available.Keys == {7}
  }

  /** Order `n` has its first offer out, to driver 7. */
  ghost predicate OnOffer(s: State, n: nat) {
    && Known(s, n) && AllTried(s, n) && s.pool == Pool({7}, map[], {7})
    && n >= 1 && s.orders[n].status == Offered && s.orders[n].offerAttempts == 1
    && |s.orders[n].attempts| == 1 && s.orders[n].attempts[0].driverId == 7
  }

  /** Created before anything that is still to happen. */
  ghost predicate Past(env: Env, s: State) {
    forall o, k: nat :: o in s.orders && k >= s.ticks ==> s.orders[o].createdAt < env.clock(k)
  }

  ghost predicate ClockRises(env: Env) {
    forall j: nat, k: nat :: j < k ==> env.clock(j) < env.clock(k)
  }

  lemma OnlySevenIsClaimed(p: Pool, tried: seq<DriverId>)
    requires p.available.Keys <= {7}
    ensures p.Claim(tried) == if 7 in p.available && 7 !in tried then Some(7) else None
  {
    ClaimIsFifo(p, tried);
    ClaimedIsEligible(p, tried);
  }

  lemma Opening(env: Env)
    ensures Free(Next(env, START, AvailabilityChanged(0, 7, true, 0)), 0)
    ensures Past(env, Next(env, START, AvailabilityChanged(0, 7, true, 0)))
  {
    var t := START.(processed := {0}, pool := EMPTY_POOL.OnWilling(7, 0));
    assert Parked(t.orders) == map[];
    assert RetryList(t) == [];
  }

  /** Order `o` announced by event `e`, before its first attempt. */
  function Arrived(env: Env, s: State, e: EventId, o: OrderId): State
    requires Build(Parcel(o), s.Now(env)).Success?
  {
    Announced(s, e, o, Build(Parcel(o), s.Now(env)).value)
  }

  lemma Arriving(env: Env, s: State, e: EventId, o: OrderId)
    requires e !in s.processed && s.pool.available.Keys <= {7}
    ensures Build(Parcel(o), s.Now(env)).Success?
    ensures Next(env, s, OrderCreated(e, Parcel(o)))
         == if 7 !in s.pool.available then Arrived(env, s, e, o)
            else MakeOffer(env, Arrived(env, s, e, o).(pool := s.pool.Take(7)), o, 7)
    ensures 7 !in s.pool.available ==> CommandOps(env, s, OrderCreated(e, Parcel(o)), o) == []
  {
    hide Build, MakeOffer;
    ParcelBuilds(o, s.Now(env));
    OnlySevenIsClaimed(s.pool, []);
  }

  lemma Creating(env: Env, s: State, n: nat)
    requires Free(s, n)
    ensures OnOffer(Next(env, s, OrderCreated(n + 1, Parcel(n + 1))), n + 1)
    ensures Past(env, s) && ClockRises(env) ==> Past(env, Next(env, s, OrderCreated(n + 1, Parcel(n + 1))))
  {
    hide Build, Next, Past, ClockRises, OnOffer, MakeOffer;
    Arriving(env, s, n + 1, n + 1);
    ParcelBuilds(n + 1, s.Now(env));
    var t := Next(env, s, OrderCreated(n + 1, Parcel(n + 1)));
    var u := Arrived(env, s, n + 1, n + 1).(pool := s.pool.Take(7));
    assert u.pool.available == map[];
    FirstOffer(env, u, n + 1);
    if Past(env, s) && ClockRises(env) {
      OneMoreIsPast(env, s, t, n + 1);
    }
  }

  lemma FirstOffer(env: Env, s: State, n: nat)
    requires n >= 1 && Known(s, n) && AllTried(s, n) && s.pool == Pool({7}, map[], {7})
    requires s.IsParked(n) && s.orders[n].attempts == [] && s.orders[n].offerAttempts == 0
    ensures var t := MakeOffer(env, s, n, 7);
      && OnOffer(t, n) && t.ticks > s.ticks && t.orders.Keys == s.orders.Keys
      && (forall o :: o in t.orders ==> t.orders[o].createdAt == s.orders[o].createdAt)
  {
  }

  lemma OneMoreIsPast(env: Env, s: State, t: State, n: OrderId)
    requires Past(env, s) && ClockRises(env) && t.ticks > s.ticks
    requires n in t.orders && t.orders[n].createdAt == s.Now(env)
    requires forall o :: o in t.orders && o != n ==> o in s.orders && t.orders[o].createdAt == s.orders[o].createdAt
    ensures Past(env, t)
  {
  }

  /** Order `n` is on offer to driver 7, order `n + 1` has been created since and is parked. */
  ghost predicate OneWaits(s: State, n: nat) {
    && (forall o :: o in s.orders <==> 1 <= o <= n + 1)
    && (forall o :: o in s.orders && o != n ==> s.IsParked(o))
    && (forall o :: o in s.orders && o < n ==> 7 in s.orders[o].TriedDriverIds())
    && n + 1 in s.orders && s.orders[n + 1].attempts == []
    && n in s.orders && s.orders[n].status == Offered
    && |s.orders[n].attempts| == 1 && s.orders[n].attempts[0].driverId == 7
    && s.pool == Pool({7}, map[], {7}) && n + 2 !in s.processed
  }

  lemma CreatingInVain(env: Env, s: State, n: nat)
    requires OnOffer(s, n)
    ensures var s' := Next(env, s, OrderCreated(n + 1, Parcel(n + 1)));
      && CreatedOnce(s, OrderCreated(n + 1, Parcel(n + 1)))
      && OneWaits(s', n)
      && (Past(env, s) ==>
            forall o :: o in s'.orders && o != n + 1 ==> s'.orders[o].createdAt < s'.orders[n + 1].createdAt)
  {
    hide Build, Next;
    Arriving(env, s, n + 1, n + 1);
    ParcelBuilds(n + 1, s.Now(env));
  }

  // ----- One driver, two orders -----

  /** Driver 7 signs on, then orders 1 and 2 arrive. */
  const TWO_ORDERS := [AvailabilityChanged(0, 7, true, 0), OrderCreated(1, Parcel(1)), OrderCreated(2, Parcel(2))]

  lemma TwoOrders(env: Env)
    ensures LegalRun(env, START, TWO_ORDERS) && OneWaits(Reached(env, TWO_ORDERS), 1)
    ensures Inv(env, Reached(env, TWO_ORDERS)) && Saturated(Reached(env, TWO_ORDERS))
  {
    hide Next, OnOffer, Inv;
    var c0, c1, c2 := TWO_ORDERS[0], TWO_ORDERS[1], TWO_ORDERS[2];
    Opening(env);
    var s1 := Next(env, START, c0);
    Creating(env, s1, 0);
    var s2 := Next(env, s1, c1);
    CreatingInVain(env, s2, 1);
    var s3 := Next(env, s2, c2);
    assert LegalRun(env, s2, [c2]) && Run(env, s2, [c2]) == s3 by { RunOne(env, s2, c2); }
    assert [c1, c2][1..] == [c2] && TWO_ORDERS[1..] == [c1, c2];
    assert LegalRun(env, s1, [c1, c2]) && Run(env, s1, [c1, c2]) == s3;
    assert LegalRun(env, START, TWO_ORDERS) && Reached(env, TWO_ORDERS) == s3;
    ReachedInv(env, TWO_ORDERS);
    NobodyQueued(s3, 1);
  }

  lemma NobodyQueued(s: State, n: nat)
    requires OneWaits(s, n)
    ensures Saturated(s)
  {
  }

  /** A legal run, saturated before a rejection and not after: order 2 stays parked beside driver 7. */
  lemma RejectCanStarve(env: Env)
    ensures LegalRun(env, START, TWO_ORDERS + [DriverRejects(1, 7)])
    ensures Saturated(Reached(env, TWO_ORDERS))
    ensures !Saturated(Reached(env, TWO_ORDERS + [DriverRejects(1, 7)]))
  {
    hide Run, LegalRun, Inv, Saturated, Next;
    var s := Reached(env, TWO_ORDERS);
    TwoOrders(env);
    RunSplits(env, START, TWO_ORDERS, [DriverRejects(1, 7)]);
    RunOne(env, s, DriverRejects(1, 7));
    NextKeepsSaturatedIff(env, s, DriverRejects(1, 7));
    assert s.IsParked(2) && 7 !in s.orders[2].TriedDriverIds();
  }

  /** A legal run that puts driver 7 on two orders. */
  lemma ForceCanShare(env: Env)
    ensures LegalRun(env, START, TWO_ORDERS + [AdminForces(2, 7, true)])
    ensures var s := Reached(env, TWO_ORDERS + [AdminForces(2, 7, true)]);
      Holds(s.orders, 1, 7) && Holds(s.orders, 2, 7) && !Exclusive(s.orders, s.pool.busy)
  {
    hide Run, LegalRun, Inv, Saturated, Next, Exclusive;
    var s := Reached(env, TWO_ORDERS);
    TwoOrders(env);
    RunSplits(env, START, TWO_ORDERS, [AdminForces(2, 7, true)]);
    RunOne(env, s, AdminForces(2, 7, true));
    ForcingBusyDriverSharesThem(env, s, 1, 2, 7);
  }

  // ----- A page of orders that driver 7 declined -----

  lemma Declining(env: Env, s: State, n: nat)
    requires OnOffer(s, n) && env.maxAttempts >= 2
    ensures Free(Next(env, s, DriverRejects(n, 7)), n)
    ensures Past(env, s) ==> Past(env, Next(env, s, DriverRejects(n, 7)))
  {
    var op := Reject(7, s.Now(env));
    var t := Declined(env, s, n, op);
    TriedAfterDecline(s.orders[n], op);
    OnlySevenIsClaimed(t.pool, t.orders[n].TriedDriverIds());
    assert Next(env, s, DriverRejects(n, 7)) == t;
  }

  /** Driver 7 signs on and declines orders 1 to `n` as they come. */
  function Rounds(n: nat): seq<Command> {
    if n == 0 then [AvailabilityChanged(0, 7, true, 0)]
    else Rounds(n - 1) + [OrderCreated(n, Parcel(n)), DriverRejects(n, 7)]
  }

  lemma {:induction false} RoundsAreDeclined(env: Env, n: nat)
    requires env.maxAttempts >= 2 && ClockRises(env)
    ensures LegalRun(env, START, Rounds(n)) && Free(Reached(env, Rounds(n)), n) && Past(env, Reached(env, Rounds(n)))
  {
    hide Next, Run, LegalRun, Free, OnOffer, Past;
    if n == 0 {
      Opening(env);
      RunOne(env, START, Rounds(0)[0]);
    } else {
      RoundsAreDeclined(env, n - 1);
      var s, c, c' := Reached(env, Rounds(n - 1)), OrderCreated(n, Parcel(n)), DriverRejects(n, 7);
      var t := Next(env, s, c);
      Creating(env, s, n - 1);
      Declining(env, t, n);
      NewToKnown(s, n - 1, c);
      RunTwo(env, s, c, c');
      RunSplits(env, START, Rounds(n - 1), [c, c']);
    }
  }

  lemma NewToKnown(s: State, n: nat, c: Command)
    requires Free(s, n) && c == OrderCreated(n + 1, Parcel(n + 1))
    ensures CreatedOnce(s, c)
  {
  }

  lemma RunTwo(env: Env, s: State, c: Command, c': Command)
    ensures Run(env, s, [c, c']) == Next(env, Next(env, s, c), c')
    ensures LegalRun(env, s, [c, c']) <==> CreatedOnce(s, c) && CreatedOnce(Next(env, s, c), c')
  {
    hide Next;
    assert [c, c'][1..] == [c'];
    RunOne(env, Next(env, s, c), c');
  }

  /** The numbers 1 to `n`. */
  function UpTo(n: nat): (r: set<nat>)
    ensures |r| == n && forall k :: k in r <==> 1 <= k <= n
  {
    if n == 0 then {} else UpTo(n - 1) + {n}
  }

  lemma {:induction false} ListedSize(list: seq<OrderId>, a: set<OrderId>)
    requires forall o :: o in a ==> o in list
    ensures |a| <= |list|
    decreases |list|
  {
    if list != [] {
      ListedSize(list[1..], a - {list[0]});
    }
  }

  /** The youngest of more than a page of parked orders is not listed. */
  lemma YoungestIsNotListed(s: State, o: OrderId)
    requires |Parked(s.orders)| > RETRY_LIMIT && s.IsParked(o)
    requires forall a :: s.IsParked(a) && a != o ==> s.orders[a].createdAt < s.orders[o].createdAt
    ensures o !in RetryList(s)
  {
    hide RetryList;
    var list := RetryList(s);
    ListedByAge(s);
    if o in list {
      ListedSize(list, Parked(s.orders).Keys);
    }
  }

  /** Orders 1 to `n` are parked and were declined by driver 7, who has the next one; a younger one waits. */
  ghost predicate FullPage(s: State, n: nat) {
    && s.IsParked(n + 2) && s.orders[n + 2].attempts == []
    && (forall o: nat :: s.IsParked(o) <==> (1 <= o <= n || o == n + 2))
    && (forall o: nat :: s.IsParked(o) && o != n + 2 ==>
          7 in s.orders[o].TriedDriverIds() && s.orders[o].createdAt < s.orders[n + 2].createdAt)
    && Holds(s.orders, n + 1, 7) && s.orders[n + 1].status == Assigned
    && s.pool == Pool({7}, map[], {7}) && n + 3 !in s.processed
  }

  lemma FullPageDoesNotServe(s: State)
    requires FullPage(s, RETRY_LIMIT)
    ensures !PageServes(s, 7)
  {
    hide RetryList;
    var n := RETRY_LIMIT;
    assert s.IsParked(n + 2) && 7 !in s.orders[n + 2].TriedDriverIds();
    FullPageSize(s, n);
    YoungestIsNotListed(s, n + 2);
    ListedByAge(s);
  }

  lemma FullPageSize(s: State, n: nat)
    requires FullPage(s, n)
    ensures |Parked(s.orders)| == n + 1
  {
    var keys := Parked(s.orders).Keys;
    forall o: nat ensures o in keys <==> (1 <= o <= n || o == n + 2) {
      assert o in Parked(s.orders) <==> s.IsParked(o);
    }
    hide FullPage, Parked;
    assert keys == UpTo(n) + {n + 2};
  }

  lemma Accepting(env: Env, s: State, n: nat)
    requires OneWaits(s, n + 1)
    requires forall o :: o in s.orders && o != n + 2 ==> s.orders[o].createdAt < s.orders[n + 2].createdAt
    ensures FullPage(Next(env, s, DriverAccepts(n + 1, 7)), n)
  {
    var t := Next(env, s, DriverAccepts(n + 1, 7));
    var op := Operation.Accept(7, s.Now(env));
    assert s.orders[n + 1].Allows(op);
    assert t.orders == s.orders[n + 1 := s.orders[n + 1].After(op)];
    assert t.orders[n + 1].Holder() == Some(7);
    hide AssignmentProps.After, AssignmentProps.Allows, AssignmentProps.Holder, Next;
    assert forall o :: t.IsParked(o) <==> s.IsParked(o);
  }

  /**
    The commands before the one that fails: fifty orders come and are declined by driver 7, the next
    is accepted by them, and another has come in the meantime.
   */
  function FillThePage(): seq<Command> {
    var n := RETRY_LIMIT;
    Rounds(n) + [OrderCreated(n + 1, Parcel(n + 1)), OrderCreated(n + 2, Parcel(n + 2))] + [DriverAccepts(n + 1, 7)]
  }

  lemma PageFills(env: Env)
    requires env.maxAttempts >= 2 && ClockRises(env)
    ensures LegalRun(env, START, FillThePage()) && FullPage(Reached(env, FillThePage()), RETRY_LIMIT)
  {
    hide Next, Run, LegalRun, Free, OnOffer, OneWaits, FullPage;
    var n := RETRY_LIMIT;
    RoundsAreDeclined(env, n);
    var s := Reached(env, Rounds(n));
    var c, c', a := OrderCreated(n + 1, Parcel(n + 1)), OrderCreated(n + 2, Parcel(n + 2)), DriverAccepts(n + 1, 7);
    NewToKnown(s, n, c);
    Creating(env, s, n);
    var t := Next(env, s, c);
    CreatingInVain(env, t, n + 1);
    var u := Next(env, t, c');
    RunTwo(env, s, c, c');
    RunSplits(env, START, Rounds(n), [c, c']);
    Accepting(env, u, n);
    RunOne(env, u, a);
    RunSplits(env, START, Rounds(n) + [c, c'], [a]);
  }

  /**
    Wherever orders get a second try and the clock rises, the service reaches a state with more than
    a page of parked orders in which freeing a driver leaves one of them waiting: the driver comes
    back from a delivery, the pass offers them to nobody, and the youngest order has not tried them.
   */
  lemma PageCanStarve(env: Env)
    requires env.maxAttempts >= 2 && ClockRises(env)
    ensures var cs, c := FillThePage(), DeliveryCompleted(RETRY_LIMIT + 3, RETRY_LIMIT + 1);
      && LegalRun(env, START, cs + [c])
      && Saturated(Reached(env, cs)) && !Saturated(Reached(env, cs + [c]))
  {
    hide Run, LegalRun, Inv, Saturated, Next, Reached, FillThePage, PageServes;
    var cs, c := FillThePage(), DeliveryCompleted(RETRY_LIMIT + 3, RETRY_LIMIT + 1);
    PageFills(env);
    var s := Reached(env, cs);
    ReachedInv(env, cs);
    assert Saturated(s) by { FullPageIsSaturated(s, RETRY_LIMIT); }
    FullPageDoesNotServe(s);
    NextKeepsSaturatedIff(env, s, c);
    ReachedOne(env, cs, c);
  }

  lemma FullPageIsSaturated(s: State, n: nat)
    requires FullPage(s, n)
    ensures Saturated(s)
  {
  }

  // ----- A longest life -----

  /** Order 1 arrives; drivers 1 to `n` sign on one after the other and decline it. */
  function Rejections(n: nat): seq<Command> {
    if n == 0 then [OrderCreated(0, Parcel(1))]
    else Rejections(n - 1) + [AvailabilityChanged(n, n, true, 0)] + [DriverRejects(1, n)]
  }

  ghost predicate TriedUpTo(attempts: seq<OfferAttempt>, n: nat) {
    forall d :: d in DeclinedDrivers(attempts) <==> 1 <= d <= n
  }

  /** Order 1, alone in the service and in state `status`, was declined by drivers 1 to `n`, all queued. */
  ghost predicate DeclinedBy(s: State, n: nat, status: AssignmentStatus) {
    && s.orders.Keys == {1} && s.orders[1].status == status
    && s.orders[1].offerAttempts == n && TriedUpTo(s.orders[1].attempts, n)
    && s.pool == Pool(UpTo(n), s.pool.available, {}) && s.pool.available.Keys == UpTo(n)
    && (forall e :: e in s.processed <==> 0 <= e <= n)
  }

  /** Driver `n` has the offer. */
  ghost predicate OfferedTo(s: State, n: nat) {
    && n >= 1 && s.orders.Keys == {1} && s.orders[1].status == Offered && s.orders[1].offerAttempts == n
    && s.orders[1].attempts != [] && s.orders[1].attempts[|s.orders[1].attempts| - 1].driverId == n
    && TriedUpTo(s.orders[1].attempts[..|s.orders[1].attempts| - 1], n - 1)
    && s.pool == Pool(UpTo(n), s.pool.available, {n}) && s.pool.available.Keys == UpTo(n - 1)
    && (forall e :: e in s.processed <==> 0 <= e <= n)
  }

  lemma DeclinedAppend(attempts: seq<OfferAttempt>, a: OfferAttempt, d: DriverId)
    ensures d in DeclinedDrivers(attempts + [a])
       <==> d in DeclinedDrivers(attempts) || (a.outcome.Declined() && a.driverId == d)
  {
    DeclinedDriversAre(attempts + [a], d);
    DeclinedDriversAre(attempts, d);
    if i :| 0 <= i < |attempts| && attempts[i].outcome.Declined() && attempts[i].driverId == d {
      assert (attempts + [a])[i] == attempts[i];
    }
    assert (attempts + [a])[|attempts|] == a;
  }

  lemma OnlyParked(s: State)
    requires s.orders.Keys == {1}
    ensures RetryList(s) == if s.IsParked(1) then [1] else []
  {
    hide RetryList;
    ListedByAge(s);
    assert Parked(s.orders).Keys == if s.IsParked(1) then {1} else {};
  }

  lemma RetryOne(env: Env, s: State, o: OrderId)
    requires RetryList(s) == [o]
    ensures RetryParked(env, s) == Attempt(env, s, o)
    ensures RetryParkedOps(env, s, o) == AttemptOps(env, s, o, o)
  {
    hide Attempt, AttemptOps, RetryList;
    assert [o][1..] == [];
    assert RetryEach(env, Attempt(env, s, o), []) == Attempt(env, s, o);
    assert RetryOps(env, Attempt(env, s, o), [], o) == [];
    assert AttemptOps(env, s, o, o) + [] == AttemptOps(env, s, o, o);
  }

  /** The next driver's arrival, before the retry pass. */
  function Arrival(s: State, n: nat): State {
    s.(processed := s.processed + {n}, pool := s.pool.OnWilling(n, 0))
  }

  lemma SigningOn(env: Env, s: State, n: nat)
    requires n >= 1 && DeclinedBy(s, n - 1, AwaitingDriver)
    ensures var t, c := Arrival(s, n), AvailabilityChanged(n, n, true, 0);
      && t.IsParked(1) && Next(env, s, c) == MakeOffer(env, t.(pool := t.pool.Take(n)), 1, n)
      && |CommandOps(env, s, c, 1)| == 1
  {
    hide RetryParked, RetryParkedOps, RetryList, MakeOffer, Pool.Claim;
    var t := Arrival(s, n);
    var tried := t.orders[1].TriedDriverIds();
    OnlyParked(t);
    RetryOne(env, t, 1);
    ClaimIsFifo(t.pool, tried);
    assert WaitsLongest(t.pool, tried, n);
  }

  lemma ArrivalPool(s: State, n: nat)
    requires n >= 1 && DeclinedBy(s, n - 1, AwaitingDriver)
    ensures var pool := s.pool.OnWilling(n, 0).Take(n);
      pool == Pool(UpTo(n), pool.available, {n}) && pool.available.Keys == UpTo(n - 1)
  {
  }

  lemma OfferArrived(env: Env, s: State, n: nat)
    requires n >= 1 && s.orders.Keys == {1} && s.IsParked(1)
    requires s.orders[1].offerAttempts == n - 1 && TriedUpTo(s.orders[1].attempts, n - 1)
    requires s.pool == Pool(UpTo(n), s.pool.available, {n}) && s.pool.available.Keys == UpTo(n - 1)
    requires forall e :: e in s.processed <==> 0 <= e <= n
    ensures OfferedTo(MakeOffer(env, s, 1, n), n)
  {
    hide DeclinedDrivers, UpTo, TriedUpTo;
    var t := MakeOffer(env, s, 1, n);
    assert t.orders[1].attempts[..|t.orders[1].attempts| - 1] == s.orders[1].attempts;
  }

  lemma SignOn(env: Env, s: State, n: nat)
    requires n >= 1 && DeclinedBy(s, n - 1, AwaitingDriver)
    ensures OfferedTo(Next(env, s, AvailabilityChanged(n, n, true, 0)), n)
    ensures |CommandOps(env, s, AvailabilityChanged(n, n, true, 0), 1)| == 1
  {
    SigningOn(env, s, n);
    ArrivalPool(s, n);
    hide Next, CommandOps, TriedUpTo, UpTo, Pool.OnWilling, Pool.Take, MakeOffer, OfferedTo;
    OfferArrived(env, Arrival(s, n).(pool := s.pool.OnWilling(n, 0).Take(n)), n);
  }

  /** After the decline is saved and the driver freed. */
  lemma TurningDown(env: Env, s: State, n: nat)
    requires OfferedTo(s, n)
    ensures s.orders[1].Allows(Reject(n, s.Now(env)))
    ensures DeclinedBy(Declined(env, s, 1, Reject(n, s.Now(env))), n, AwaitingDriver)
  {
    var p, op := s.orders[1], Reject(n, s.Now(env));
    var t, k := Declined(env, s, 1, op), |p.attempts| - 1;
    assert t.orders[1].attempts == p.attempts[..k] + [p.attempts[k].Resolve(Rejected, op.now)];
    forall d: DriverId ensures d in DeclinedDrivers(t.orders[1].attempts) <==> 1 <= d <= n {
      DeclinedAppend(p.attempts[..k], p.attempts[k].Resolve(Rejected, op.now), d);
    }
    FreedPool(s, n, s.Ticked().Now(env));
    hide DeclinedDrivers, UpTo, Pool.FreeDriver;
  }

  lemma FreedPool(s: State, n: nat, now: Time)
    requires OfferedTo(s, n)
    ensures var pool := s.pool.FreeDriver(n, now);
      pool == Pool(UpTo(n), pool.available, {}) && pool.available.Keys == UpTo(n)
  {
  }

  /** Everybody queued has tried it: fail at the limit, else stay parked. */
  lemma Settling(env: Env, s: State, n: nat)
    requires DeclinedBy(s, n, AwaitingDriver) && n <= env.maxAttempts
    ensures DeclinedBy(FailOrRetry(env, s, 1), n, if n < env.maxAttempts then AwaitingDriver else Failed)
    ensures |FailOrRetryOps(env, s, 1, 1)| == if n < env.maxAttempts then 0 else 1
  {
    hide Attempt, AttemptOps, UpTo;
    if n < env.maxAttempts {
      NobodyLeft(env, s, n);
    } else {
      hide DeclinedDrivers;
    }
  }

  lemma NobodyLeft(env: Env, s: State, n: nat)
    requires DeclinedBy(s, n, AwaitingDriver)
    ensures Attempt(env, s, 1) == s && AttemptOps(env, s, 1, 1) == []
  {
    hide MakeOffer, DeclinedDrivers;
    ClaimIsFifo(s.pool, s.orders[1].TriedDriverIds());
    assert s.pool.Claim(s.orders[1].TriedDriverIds()) == None;
    hide Pool.Claim, TriedUpTo, UpTo;
  }

  lemma TurnDown(env: Env, s: State, n: nat)
    requires OfferedTo(s, n) && n <= env.maxAttempts
    ensures DeclinedBy(Next(env, s, DriverRejects(1, n)), n, if n < env.maxAttempts then AwaitingDriver else Failed)
    ensures |CommandOps(env, s, DriverRejects(1, n), 1)| == if n < env.maxAttempts then 1 else 2
  {
    hide FailOrRetry, FailOrRetryOps, DeclinedBy;
    var op := Reject(n, s.Now(env));
    TurningDown(env, s, n);
    Settling(env, Declined(env, s, 1, op), n);
  }

  lemma {:induction false} DeclinesInTurn(env: Env, n: nat)
    requires n <= env.maxAttempts
    ensures LegalRun(env, START, Rejections(n))
    ensures DeclinedBy(Reached(env, Rejections(n)), n, if n < env.maxAttempts then AwaitingDriver else Failed)
    ensures |RunOps(env, START, Rejections(n), 1)| == 2 * n + if n < env.maxAttempts then 0 else 1
  {
    hide Next, CommandOps, Run, LegalRun, RunOps, DeclinedBy, OfferedTo;
    if n == 0 {
      FirstArrival(env);
    } else {
      var cs, c, c' := Rejections(n - 1), AvailabilityChanged(n, n, true, 0), DriverRejects(1, n);
      var s := Reached(env, cs);
      DeclinesInTurn(env, n - 1);
      SignOn(env, s, n);
      OneMore(env, cs, c);
      TurnDown(env, Reached(env, cs + [c]), n);
      OneMore(env, cs + [c], c');
    }
  }

  lemma OneMore(env: Env, cs: seq<Command>, c: Command)
    ensures Reached(env, cs + [c]) == Next(env, Reached(env, cs), c)
    ensures LegalRun(env, START, cs + [c]) <==> LegalRun(env, START, cs) && CreatedOnce(Reached(env, cs), c)
    ensures |RunOps(env, START, cs + [c], 1)|
         == |RunOps(env, START, cs, 1)| + |CommandOps(env, Reached(env, cs), c, 1)|
  {
    hide Next, CommandOps, Run, LegalRun, RunOps;
    ReachedOne(env, cs, c);
    RunOpsSplit(env, START, cs, [c], 1);
    RunOpsOfOne(env, Reached(env, cs), c, 1);
  }

  lemma FirstArrival(env: Env)
    ensures LegalRun(env, START, Rejections(0)) && DeclinedBy(Reached(env, Rejections(0)), 0, AwaitingDriver)
    ensures RunOps(env, START, Rejections(0), 1) == []
  {
    hide Build, Next, CommandOps, Run, RunOps, LegalRun;
    var c := OrderCreated(0, Parcel(1));
    RunOne(env, START, c);
    RunOpsOfOne(env, START, c, 1);
    ParcelBuilds(1, START.Now(env));
    Arriving(env, START, 0, 1);
  }

  /** Every driver declines, an admin steps in, the order is delivered. */
  function LongestLife(max: nat): seq<Command> {
    Rejections(max) + [AdminForces(1, 0, true)] + [DeliveryCompleted(max + 1, 1)]
  }

  /** The bound on status changes is reached by a run, whatever the number of attempts. */
  lemma BoundIsReached(env: Env)
    ensures LegalRun(env, START, LongestLife(env.maxAttempts))
    ensures |RunOps(env, START, LongestLife(env.maxAttempts), 1)| == 2 * env.maxAttempts + 3
  {
    hide Run, LegalRun, RunOps, Next, CommandOps, DeclinedBy;
    var n := env.maxAttempts;
    var cs, c, c' := Rejections(n), AdminForces(1, 0, true), DeliveryCompleted(n + 1, 1);
    DeclinesInTurn(env, n);
    OneMore(env, cs, c);
    OneMore(env, cs + [c], c');
    LastTwo(env, Reached(env, cs));
    BoundedLife(env, LongestLife(n), 1);
  }

  lemma LastTwo(env: Env, s: State)
    requires DeclinedBy(s, env.maxAttempts, Failed)
    ensures var c, c' := AdminForces(1, 0, true), DeliveryCompleted(env.maxAttempts + 1, 1);
      |CommandOps(env, s, c, 1)| == 1 && |CommandOps(env, Next(env, s, c), c', 1)| >= 1
  {
  }
}
