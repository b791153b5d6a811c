/** The retry pass over parked orders: what it achieves, and when every run keeps it. */
module Retry {
  import opened Wrappers
  import opened Domain
  import opened Ranking
  import opened ValueObjects
  import opened AssignmentModel
  import opened PoolModel
  import opened RepositoryModel
  import opened DispatchModel
  import opened Invariants
  import opened Paths

  /** A parked order and a queued driver it has not tried: somebody waits for nothing. */
  ghost predicate Starves(s: State, o: OrderId, d: DriverId) {
    s.IsParked(o) && d in s.pool.available && d !in s.orders[o].TriedDriverIds()
  }

  ghost predicate Served(s: State, o: OrderId) {
    forall d :: !Starves(s, o, d)
  }

  ghost predicate Saturated(s: State) {
    forall o, d :: !Starves(s, o, d)
  }

  // ----- One attempt -----

  lemma AttemptIsIdleWhenServed(env: Env, s: State, o: OrderId)
    requires Served(s, o)
    ensures Attempt(env, s, o) == s
  {
    if s.IsParked(o) {
      ClaimIsFifo(s.pool, s.orders[o].TriedDriverIds());
      assert forall d :: d in s.pool.available ==> Starves(s, o, d) || d in s.orders[o].TriedDriverIds();
    }
  }

  /** A parked order that is not served is offered its longest-waiting eligible driver. */
  lemma AttemptOffers(env: Env, s: State, o: OrderId) returns (d: DriverId)
    requires !Served(s, o)
    ensures s.IsParked(o)
    ensures WaitsLongest(s.pool, s.orders[o].TriedDriverIds(), d)
    ensures Attempt(env, s, o) == MakeOffer(env, s.(pool := s.pool.Take(d)), o, d)
  {
    var x :| Starves(s, o, x);
    ClaimIsFifo(s.pool, s.orders[o].TriedDriverIds());
    d := s.pool.Claim(s.orders[o].TriedDriverIds()).value;
  }

  /** What an attempt may and may not touch. */
  lemma AttemptFrame(env: Env, s: State, o: OrderId)
    ensures var s' := Attempt(env, s, o);
      && s'.orders.Keys == s.orders.Keys
      && (forall o' :: o' in s.orders && o' != o ==> s'.orders[o'] == s.orders[o'])
      && (forall d :: d in s'.pool.available ==> d in s.pool.available)
      && (s'.orders == s.orders || (s.IsParked(o) && s'.orders[o].status == Offered))
      && (forall d :: Holds(s'.orders, o, d) && !Holds(s.orders, o, d) ==>
            d in s.pool.available && d !in s'.pool.available)
  {
    hide Attempt, Served;
    if Served(s, o) {
      AttemptIsIdleWhenServed(env, s, o);
    } else {
      var d := AttemptOffers(env, s, o);
    }
  }

  lemma AttemptServes(env: Env, s: State, o: OrderId)
    ensures Served(Attempt(env, s, o), o)
  {
    if Served(s, o) {
      AttemptIsIdleWhenServed(env, s, o);
    } else {
      var d := AttemptOffers(env, s, o);
    }
  }

  lemma AttemptKeepsServed(env: Env, s: State, o: OrderId, o': OrderId)
    requires Served(s, o')
    ensures Served(Attempt(env, s, o), o')
  {
    hide Attempt;
    AttemptFrame(env, s, o);
    AttemptServes(env, s, o);
    if o' != o {
      forall d ensures !Starves(Attempt(env, s, o), o', d) {
        assert !Starves(s, o', d);
      }
    }
  }

  // ----- A pass over any list -----

  lemma {:induction false} RetryFrame(env: Env, s: State, list: seq<OrderId>)
    ensures var s' := RetryEach(env, s, list);
      && s'.orders.Keys == s.orders.Keys
      && (forall o :: s'.IsParked(o) ==> s.IsParked(o) && s'.orders[o] == s.orders[o])
      && (forall o :: s.IsParked(o) && !s'.IsParked(o) ==> s'.orders[o].status == Offered)
      && (forall o :: o in s.orders && !s.IsParked(o) ==> s'.orders[o] == s.orders[o])
      && (forall d :: d in s'.pool.available ==> d in s.pool.available)
    decreases |list|
  {
    hide Attempt;
    if list != [] {
      AttemptFrame(env, s, list[0]);
      RetryFrame(env, Attempt(env, s, list[0]), list[1..]);
    }
  }

  lemma {:induction false} RetryKeepsServed(env: Env, s: State, list: seq<OrderId>, o: OrderId)
    requires Served(s, o)
    ensures Served(RetryEach(env, s, list), o)
    decreases |list|
  {
    hide Attempt, Served;
    if list != [] {
      AttemptKeepsServed(env, s, list[0], o);
      RetryKeepsServed(env, Attempt(env, s, list[0]), list[1..], o);
    }
  }

  lemma {:induction false} RetryServesListed(env: Env, s: State, list: seq<OrderId>)
    ensures forall o :: o in list ==> Served(RetryEach(env, s, list), o)
    decreases |list|
  {
    hide Attempt, Served;
    if list != [] {
      var t := Attempt(env, s, list[0]);
      AttemptServes(env, s, list[0]);
      RetryKeepsServed(env, t, list[1..], list[0]);
      RetryServesListed(env, t, list[1..]);
      assert list == [list[0]] + list[1..];
    }
  }

  /** Maximal: each listed parked order ends on offer, or untouched with every driver still queued tried. */
  lemma RetryIsMaximal(env: Env, s: State, list: seq<OrderId>)
    ensures var s' := RetryEach(env, s, list);
      forall o :: o in list && s.IsParked(o) ==>
        && o in s'.orders
        && (s'.orders[o].status == Offered
            || (s'.orders[o] == s.orders[o]
                && forall d :: d in s'.pool.available ==> d in s.orders[o].TriedDriverIds()))
  {
    hide RetryEach;
    var s' := RetryEach(env, s, list);
    RetryServesListed(env, s, list);
    RetryFrame(env, s, list);
    forall o, d | o in list && s'.IsParked(o) && d in s'.pool.available ensures d in s'.orders[o].TriedDriverIds() {
      assert Served(s', o) && !Starves(s', o, d);
    }
  }

  lemma {:induction false} RetryCountsOffers(env: Env, s: State, list: seq<OrderId>)
    ensures RetryEach(env, s, list).nextAttemptId >= s.nextAttemptId
    ensures (exists o :: o in list && !Served(s, o)) ==> RetryEach(env, s, list).nextAttemptId > s.nextAttemptId
    decreases |list|
  {
    hide Served;
    if list != [] {
      var t := Attempt(env, s, list[0]);
      RetryCountsOffers(env, t, list[1..]);
      if Served(s, list[0]) {
        AttemptIsIdleWhenServed(env, s, list[0]);
        assert list == [list[0]] + list[1..];
      } else {
        var d := AttemptOffers(env, s, list[0]);
      }
    }
  }

  lemma {:induction false} RetryIdlesWhenServed(env: Env, s: State, list: seq<OrderId>)
    requires forall o :: o in list ==> Served(s, o)
    ensures RetryEach(env, s, list) == s
    decreases |list|
  {
    hide Attempt, Served;
    if list != [] {
      AttemptIsIdleWhenServed(env, s, list[0]);
      RetryIdlesWhenServed(env, s, list[1..]);
    }
  }

  /** A pass changes nothing exactly when it has no offer to make. */
  lemma RetryIdlesIff(env: Env, s: State, list: seq<OrderId>)
    ensures RetryEach(env, s, list) == s <==> forall o :: o in list ==> Served(s, o)
  {
    hide RetryEach, Served;
    RetryCountsOffers(env, s, list);
    if forall o :: o in list ==> Served(s, o) {
      RetryIdlesWhenServed(env, s, list);
    }
  }

  // ----- Priority -----

  /** The pass took `o` from parked to on offer with `d`. */
  ghost predicate Receives(s: State, s': State, o: OrderId, d: DriverId) {
    s.IsParked(o) && !s'.IsParked(o) && Holds(s'.orders, o, d)
  }

  lemma {:induction false} ReceivedWasQueued(env: Env, s: State, list: seq<OrderId>, o: OrderId, d: DriverId)
    requires Receives(s, RetryEach(env, s, list), o, d)
    ensures d in s.pool.available
    decreases |list|
  {
    hide Attempt;
    if list != [] {
      var t := Attempt(env, s, list[0]);
      AttemptFrame(env, s, list[0]);
      RetryFrame(env, t, list[1..]);
      if t.IsParked(o) {
        ReceivedWasQueued(env, t, list[1..], o, d);
      }
    }
  }

  lemma {:induction false} EarlierGoesFirst(env: Env, s: State, list: seq<OrderId>, i: nat, j: nat, d: DriverId)
    requires i < j < |list| && (forall k, l :: 0 <= k < l < |list| ==> list[k] != list[l])
    requires s.IsParked(list[i]) && Receives(s, RetryEach(env, s, list), list[j], d)
    ensures list[i] in RetryEach(env, s, list).orders
    ensures RetryEach(env, s, list).orders[list[i]].status == Offered || d in s.orders[list[i]].TriedDriverIds()
    decreases |list|
  {
    hide Attempt;
    var t, rest := Attempt(env, s, list[0]), list[1..];
    AttemptFrame(env, s, list[0]);
    RetryFrame(env, t, rest);
    assert t.IsParked(list[j]);
    if i == 0 {
      AttemptServes(env, s, list[0]);
      ReceivedWasQueued(env, t, rest, list[j], d);
      assert !Starves(t, list[0], d);
    } else {
      assert rest[i - 1] == list[i] && rest[j - 1] == list[j];
      EarlierGoesFirst(env, t, rest, i - 1, j - 1, d);
    }
  }

  lemma AgeOrders(m: map<OrderId, Time>, s: seq<OrderId>, i: nat, j: nat)
    requires Ordered(m, s) && i < |s| && j < |s| && m[s[i]] < m[s[j]]
    ensures i < j
  {
  }

  /** The listing is a prefix of the parked orders by age. */
  lemma ListedByAge(s: State)
    ensures var list := RetryList(s);
      && (forall k, l :: 0 <= k < l < |list| ==> list[k] != list[l])
      && (forall o :: o in list ==> s.IsParked(o))
      && (forall a, b :: s.IsParked(a) && b in list && s.orders[a].createdAt < s.orders[b].createdAt ==>
            exists i, j :: 0 <= i < j < |list| && list[i] == a && list[j] == b)
      && |list| == (if |Parked(s.orders)| <= 50 then |Parked(s.orders)| else 50)
      && (|Parked(s.orders)| <= 50 ==> forall o :: s.IsParked(o) ==> o in list)
  {
    var m := Parked(s.orders);
    var all, list := Ranked(m), RetryList(s);
    RankedLength(m);
    assert list <= all;
    forall k, l | 0 <= k < l < |list| ensures list[k] != list[l] {
      assert Before(m, all[k], all[l]);
    }
    forall o | o in list ensures s.IsParked(o) {
      assert o in all;
    }
    forall a, b | s.IsParked(a) && b in list && s.orders[a].createdAt < s.orders[b].createdAt
      ensures exists i, j :: 0 <= i < j < |list| && list[i] == a && list[j] == b
    {
      assert a in m && a in all;
      var i :| 0 <= i < |all| && all[i] == a;
      var j :| 0 <= j < |list| && list[j] == b;
      assert all[j] == b;
      AgeOrders(m, all, i, j);
      assert list[i] == a;
    }
    if |m| <= RETRY_LIMIT {
      forall o | s.IsParked(o) ensures o in list {
        assert o in m;
      }
    }
  }

  /**
    No priority inversion: if the pass gives driver `d` to an order, every older parked order was
    itself offered a driver by the pass or had already tried `d`.
   */
  lemma NoPriorityInversion(env: Env, s: State, a: OrderId, b: OrderId, d: DriverId)
    requires s.IsParked(a) && b in RetryList(s) && s.orders[a].createdAt < s.orders[b].createdAt
    requires Receives(s, RetryParked(env, s), b, d)
    ensures a in RetryParked(env, s).orders
    ensures RetryParked(env, s).orders[a].status == Offered || d in s.orders[a].TriedDriverIds()
  {
    hide RetryList, RetryEach;
    ListedByAge(s);
    var list := RetryList(s);
    var i, j :| 0 <= i < j < |list| && list[i] == a && list[j] == b;
    EarlierGoesFirst(env, s, list, i, j, d);
  }

  // ----- Saturation -----

  /** With at most one page of parked orders, a pass leaves nobody waiting for nothing. */
  lemma RetrySaturates(env: Env, s: State)
    requires |Parked(s.orders)| <= 50
    ensures Saturated(RetryParked(env, s))
  {
    hide RetryList, RetryEach;
    ListedByAge(s);
    RetryServesListed(env, s, RetryList(s));
    RetryFrame(env, s, RetryList(s));
    forall o, d ensures !Starves(RetryParked(env, s), o, d) {
      if RetryParked(env, s).IsParked(o) {
        assert Served(RetryParked(env, s), o);
      }
    }
  }

  /** An immediate second pass changes nothing at all. */
  lemma RetryIsIdempotent(env: Env, s: State)
    requires |Parked(s.orders)| <= 50
    ensures RetryParked(env, RetryParked(env, s)) == RetryParked(env, s)
  {
    hide RetryList, RetryEach;
    RetrySaturates(env, s);
    RetryIdlesIff(env, RetryParked(env, s), RetryList(RetryParked(env, s)));
  }

  /**
    One pass over the oldest page is enough for driver `d`: someone listed has not tried them, or
    no parked order at all is left to try them.
   */
  ghost predicate PageServes(s: State, d: DriverId) {
    || (exists o :: o in RetryList(s) && s.IsParked(o) && d !in s.orders[o].TriedDriverIds())
    || (forall o :: s.IsParked(o) ==> d in s.orders[o].TriedDriverIds())
  }

  lemma {:induction false} PassTakesDriver(env: Env, s: State, list: seq<OrderId>, o: OrderId, d: DriverId)
    requires o in list && Starves(s, o, d) && forall a, x :: Starves(s, a, x) ==> x == d
    ensures d !in RetryEach(env, s, list).pool.available
    decreases |list|
  {
    hide Attempt;
    if Served(s, list[0]) {
      AttemptIsIdleWhenServed(env, s, list[0]);
      assert !Starves(s, list[0], d);
      PassTakesDriver(env, s, list[1..], o, d);
    } else {
      var x := AttemptOffers(env, s, list[0]);
      assert Starves(s, list[0], x);
      RetryFrame(env, Attempt(env, s, list[0]), list[1..]);
    }
  }

  /**
    Exactly when a pass leaves nobody waiting for nothing, once driver `d` is the only one anybody
    could wait for, as after they join the queue or are freed: the page they are offered to must
    reach an order that wants them, if there is one.
   */
  lemma PassSaturatesIff(env: Env, s: State, d: DriverId)
    requires d in s.pool.available && forall o, x :: Starves(s, o, x) ==> x == d
    ensures Saturated(RetryParked(env, s)) <==> PageServes(s, d)
  {
    hide RetryEach, RetryList;
    var s', list := RetryParked(env, s), RetryList(s);
    if o :| o in list && s.IsParked(o) && d !in s.orders[o].TriedDriverIds() {
      assert Starves(s, o, d);
      PassTakesDriver(env, s, list, o, d);
      RetryFrame(env, s, list);
      assert forall a, x :: Starves(s', a, x) ==> Starves(s, a, x);
    } else {
      ListedByAge(s);
      RetryIdlesWhenServed(env, s, list);
      if o :| s.IsParked(o) && d !in s.orders[o].TriedDriverIds() {
        assert Starves(s', o, d);
      }
    }
  }

  /** A page is always enough with at most 50 parked orders. */
  lemma SmallPageServes(s: State, d: DriverId)
    requires |Parked(s.orders)| <= 50
    ensures PageServes(s, d)
  {
    hide RetryList;
    ListedByAge(s);
  }

  /** It is also always enough when an order fails after its first decline. */
  lemma SingleTryServes(env: Env, s: State, d: DriverId)
    requires Inv(env, s) && env.maxAttempts == 1
    ensures PageServes(s, d)
  {
    hide RetryList, Inv;
    ListedByAge(s);
    forall o | s.IsParked(o) ensures s.orders[o].TriedDriverIds() == [] {
      OrderIsProper(env, s, o);
    }
    if o :| s.IsParked(o) {
      assert o in Parked(s.orders);
      assert RetryList(s)[0] in RetryList(s);
    }
  }

  /** The decline that a command carries out, if it does. */
  predicate Declines(s: State, c: Command) {
    match c
    case OfferExpired(t, _) =>
      && t.orderId in s.orders && s.orders[t.orderId].status == Offered
      && s.orders[t.orderId].offerAttempts == t.attemptNo
    case DriverRejects(o, d) => o in s.orders && s.orders[o].Allows(Reject(d, 0))
    case _ => false
  }

  lemma OthersStayServed(s: State, s': State, o: OrderId)
    requires Saturated(s) && Served(s', o)
    requires forall o' :: s'.IsParked(o') && o' != o ==> s.IsParked(o') && s'.orders[o'] == s.orders[o']
    requires forall d :: d in s'.pool.available ==> d in s.pool.available
    ensures Saturated(s')
  {
    forall o', d ensures !Starves(s', o', d) {
      assert !Starves(s, o', d);
    }
  }

  lemma CreationKeepsSaturated(env: Env, s: State, e: EventId, msg: OrderCreatedMessage)
    requires Saturated(s)
    ensures Saturated(HandleOrderCreated(env, s, e, msg).state)
  {
    hide Build, Attempt;
    if e in s.processed || Build(msg, s.Now(env)).Failure? {
      assert forall o, d :: Starves(s.Ticked(), o, d) ==> Starves(s, o, d);
    } else {
      var p := Build(msg, s.Now(env)).value;
      var s2 := Announced(s, e, msg.orderId, p);
      AttemptServes(env, s2, msg.orderId);
      AttemptFrame(env, s2, msg.orderId);
      OthersStayServed(s, Attempt(env, s2, msg.orderId), msg.orderId);
    }
  }

  /** The driver an order holds can be put back in the queue, with a retry pass after it. */
  ghost predicate Reabsorbed(s: State, o: OrderId) {
    o in s.orders ==>
      match s.orders[o].Holder() case None => true case Some(d) => d !in s.pool.willing || PageServes(s, d)
  }

  /** The driver an order holds can be put back in the queue, with no pass after it. */
  ghost predicate WantedByNobody(s: State, o: OrderId) {
    o in s.orders ==>
      match s.orders[o].Holder()
      case None => true
      case Some(d) => d !in s.pool.willing || forall o' :: s.IsParked(o') ==> d in s.orders[o'].TriedDriverIds()
  }

  /** Checked before a command: what it needs so that nobody is left waiting for nothing. */
  ghost predicate KeepsSaturation(s: State, c: Command) {
    match c
    case AvailabilityChanged(e, d, isAvailable, _) =>
      e in s.processed || !isAvailable || d in s.pool.busy || PageServes(s, d)
    case DeliveryCompleted(e, o) =>
      e in s.processed || !(o in s.orders && s.orders[o].status == Assigned) || Reabsorbed(s, o)
    case OrderCancelled(e, o) => e in s.processed || Reabsorbed(s, o)
    case OfferExpired(t, _) => Declines(s, c) ==> WantedByNobody(s, t.orderId)
    case DriverRejects(o, _) => Declines(s, c) ==> WantedByNobody(s, o)
    case _ => true
  }

  lemma SamePage(s: State, t: State, d: DriverId)
    requires forall o :: t.IsParked(o) ==> s.IsParked(o)
    requires forall o :: s.IsParked(o) ==> t.IsParked(o) && t.orders[o] == s.orders[o]
    ensures PageServes(t, d) <==> PageServes(s, d)
  {
    forall o ensures o in Parked(t.orders) <==> o in Parked(s.orders) {
      assert t.IsParked(o) <==> s.IsParked(o);
    }
    assert Parked(t.orders) == Parked(s.orders);
  }

  lemma AvailabilityKeepsSaturatedIff(env: Env, s: State, e: EventId, d: DriverId, isAvailable: bool, changedAt: Time)
    requires s.pool.Valid() && Saturated(s)
    ensures Saturated(UpdateAvailability(env, s, e, d, isAvailable, changedAt))
       <==> KeepsSaturation(s, AvailabilityChanged(e, d, isAvailable, changedAt))
  {
    hide RetryParked, PageServes;
    if e !in s.processed {
      var s1 := s.(processed := s.processed + {e});
      if isAvailable {
        var t := s1.(pool := s1.pool.OnWilling(d, changedAt));
        assert forall o, x :: Starves(t, o, x) && x != d ==> Starves(s, o, x);
        if d in s.pool.busy {
          SaturatedIdles(env, t);
        } else {
          SamePage(s, t, d);
          PassSaturatesIff(env, t, d);
        }
      } else {
        var t := s1.(pool := s1.pool.OnUnwilling(d));
        assert forall o, x :: Starves(t, o, x) ==> Starves(s, o, x);
      }
    }
  }

  lemma SaturatedIdles(env: Env, s: State)
    requires Saturated(s)
    ensures RetryParked(env, s) == s
  {
    RetryIdlesWhenServed(env, s, RetryList(s));
  }

  /** An order lets its driver go, and a retry pass follows. */
  lemma ReleaseKeepsSaturatedIff(env: Env, s: State, o: OrderId, s1: State, d: DriverId)
    requires s.pool.Valid() && Saturated(s) && Holds(s.orders, o, d)
    requires s1.pool == s.pool && o in s1.orders && s1.orders == s.orders[o := s1.orders[o]] && !s1.IsParked(o)
    ensures Saturated(RetryParked(env, s1.Freed(env, d))) <==> Reabsorbed(s, o)
  {
    hide RetryParked, PageServes;
    var t := s1.Freed(env, d);
    assert forall a, x :: Starves(t, a, x) && x != d ==> Starves(s, a, x);
    SamePage(s, t, d);
    if d in s.pool.willing {
      PassSaturatesIff(env, t, d);
    } else {
      assert forall a, x :: !Starves(t, a, x);
      SaturatedIdles(env, t);
    }
  }

  lemma CompletionKeepsSaturatedIff(env: Env, s: State, e: EventId, o: OrderId)
    requires Inv(env, s) && Saturated(s)
    ensures Saturated(CompleteDelivery(env, s, e, o)) <==> KeepsSaturation(s, DeliveryCompleted(e, o))
  {
    hide RetryParked, Saturated, Reabsorbed, Inv;
    var (s1, freed) := CompleteInTransaction(env, s, e, o);
    if o in s.orders {
      OrderIsProper(env, s, o);
    }
    PoolIsValid(env, s);
    match freed {
      case None => NobodyNewStarves(s, s1);
      case Some(d) => ReleaseKeepsSaturatedIff(env, s, o, s1, d);
    }
  }

  lemma PoolIsValid(env: Env, s: State)
    requires Inv(env, s)
    ensures s.pool.Valid()
  {
  }

  lemma NobodyNewStarves(s: State, t: State)
    requires Saturated(s) && forall o :: t.IsParked(o) ==> s.IsParked(o) && t.orders[o] == s.orders[o]
    requires forall d :: d in t.pool.available ==> d in s.pool.available
    ensures Saturated(t)
  {
    assert forall o, x :: Starves(t, o, x) ==> Starves(s, o, x);
  }

  lemma CancellationKeepsSaturatedIff(env: Env, s: State, e: EventId, o: OrderId)
    requires Inv(env, s) && Saturated(s)
    ensures Saturated(CancelOrder(env, s, e, o)) <==> KeepsSaturation(s, OrderCancelled(e, o))
  {
    hide RetryParked, Saturated, Inv, PageServes;
    var (s1, freed) := CancelInTransaction(env, s, e, o);
    PoolIsValid(env, s);
    match freed {
      case None =>
        NobodyNewStarves(s, s1);
        SaturatedIdles(env, s1);
      case Some(d) => ReleaseKeepsSaturatedIff(env, s, o, s1, d);
    }
  }

  /** Accepting, forcing, and declines that do not take effect: nobody new parks, nobody new queues. */
  lemma QuietKeepsSaturated(env: Env, s: State, c: Command)
    requires Inv(env, s) && Saturated(s) && !Declines(s, c)
    requires c.OfferExpired? || c.DriverAccepts? || c.DriverRejects? || c.AdminForces?
    ensures Saturated(Next(env, s, c))
  {
    hide Inv, Decline;
    if c.OfferExpired? && c.timer.orderId in s.orders {
      OrderIsProper(env, s, c.timer.orderId);
    }
    var t := Next(env, s, c);
    assert forall o, d :: Starves(t, o, d) ==> Starves(s, o, d);
  }

  // ----- Declines -----

  /**
    A reject or an expiry queues its driver again without a retry pass, so it keeps saturation
    exactly when that driver no longer wants work or every other parked order has tried them.
   */
  lemma DeclineKeepsSaturatedIff(env: Env, s: State, o: OrderId, op: Operation)
    requires Inv(env, s) && Saturated(s)
    requires o in s.orders && s.orders[o].Allows(op) && (op.Reject? || op.Expire?)
    ensures var d := s.orders[o].attempts[|s.orders[o].attempts| - 1].driverId;
      Saturated(Decline(env, s, o, op)) <==>
        d !in s.pool.willing
        || (forall o' :: s.IsParked(o') && o' != o ==> d in s.orders[o'].TriedDriverIds())
  {
    hide Inv, Saturated;
    DeclineServesItself(env, s, o, op);
    var d := s.orders[o].attempts[|s.orders[o].attempts| - 1].driverId;
    if o' :| d in s.pool.willing && s.IsParked(o') && o' != o && d !in s.orders[o'].TriedDriverIds() {
      assert Starves(Decline(env, s, o, op), o', d);
      NotSaturated(Decline(env, s, o, op), o', d);
    } else {
      DeclineSaturates(env, s, o, op);
    }
  }

  lemma NotSaturated(s: State, o: OrderId, d: DriverId)
    requires Starves(s, o, d)
    ensures !Saturated(s)
  {
  }

  /** After a decline: its own order is served, the others are as they were, and the driver queues if willing. */
  lemma DeclineServesItself(env: Env, s: State, o: OrderId, op: Operation)
    requires Inv(env, s) && o in s.orders && s.orders[o].Allows(op) && (op.Reject? || op.Expire?)
    ensures var s' := Decline(env, s, o, op); var d := s.orders[o].attempts[|s.orders[o].attempts| - 1].driverId;
      && Served(s', o)
      && (forall o' :: o' != o ==> (s'.IsParked(o') <==> s.IsParked(o')))
      && (forall o' :: o' != o && s.IsParked(o') ==> s'.orders[o'] == s.orders[o'])
      && (forall x :: x in s'.pool.available ==> x in s.pool.available || (x == d && d in s.pool.willing))
      && (d in s.pool.willing ==> d in s'.pool.available)
  {
    hide Inv, Attempt, Served;
    var p := s.orders[o];
    var d := p.attempts[|p.attempts| - 1].driverId;
    var t := Declined(env, s, o, op);
    OrderIsProper(env, s, o);
    assert t.IsParked(o) && t.orders[o] == p.After(op);
    if p.offerAttempts >= env.maxAttempts {
      FailedIsServed(env, t, o);
    } else {
      AttemptServes(env, t, o);
      AttemptFrame(env, t, o);
      TriedAfterDecline(p, op);
      AttemptSkipsTried(env, t, o, d);
    }
  }

  lemma FailedIsServed(env: Env, t: State, o: OrderId)
    requires t.IsParked(o) && t.orders[o].offerAttempts >= env.maxAttempts
    ensures Served(FailOrRetry(env, t, o), o)
  {
  }

  lemma TriedAfterDecline(p: AssignmentProps, op: Operation)
    requires p.Allows(op) && (op.Reject? || op.Expire?)
    ensures p.attempts[|p.attempts| - 1].driverId in p.After(op).TriedDriverIds()
  {
    var q := p.After(op);
    DeclinedDriversAre(q.attempts, p.attempts[|p.attempts| - 1].driverId);
    assert q.attempts[|p.attempts| - 1].outcome.Declined();
  }

  lemma AttemptSkipsTried(env: Env, t: State, o: OrderId, d: DriverId)
    requires t.IsParked(o) && d in t.orders[o].TriedDriverIds()
    ensures d in t.pool.available ==> d in Attempt(env, t, o).pool.available
  {
    if Served(t, o) {
      AttemptIsIdleWhenServed(env, t, o);
    } else {
      var x := AttemptOffers(env, t, o);
    }
  }

  lemma DeclineSaturates(env: Env, s: State, o: OrderId, op: Operation)
    requires Inv(env, s) && Saturated(s)
    requires o in s.orders && s.orders[o].Allows(op) && (op.Reject? || op.Expire?)
    requires var d := s.orders[o].attempts[|s.orders[o].attempts| - 1].driverId;
        d !in s.pool.willing
        || (forall o' :: s.IsParked(o') && o' != o ==> d in s.orders[o'].TriedDriverIds())
    ensures Saturated(Decline(env, s, o, op))
  {
    hide Inv, Decline;
    DeclineServesItself(env, s, o, op);
    var s' := Decline(env, s, o, op);
    forall o', x ensures !Starves(s', o', x) {
      assert !Starves(s, o', x);
    }
  }

  lemma DeclineMeetsIff(env: Env, s: State, o: OrderId, op: Operation)
    requires Inv(env, s) && Saturated(s)
    requires o in s.orders && s.orders[o].Allows(op) && (op.Reject? || op.Expire?)
    ensures Saturated(Decline(env, s, o, op)) <==> WantedByNobody(s, o)
  {
    hide Inv, Saturated, Decline;
    DeclineKeepsSaturatedIff(env, s, o, op);
  }

  // ----- Whole runs -----

  /** The exact condition, use case by use case. */
  lemma NextKeepsSaturatedIff(env: Env, s: State, c: Command)
    requires Inv(env, s) && Saturated(s)
    ensures Saturated(Next(env, s, c)) <==> KeepsSaturation(s, c)
  {
    hide Inv, Saturated, HandleOrderCreated, UpdateAvailability, CompleteDelivery, CancelOrder, Decline, WantedByNobody,
      Reabsorbed, PageServes;
    PoolIsValid(env, s);
    match c {
      case OrderCreated(e, msg) => CreationKeepsSaturated(env, s, e, msg);
      case AvailabilityChanged(e, d, isAvailable, changedAt) =>
        AvailabilityKeepsSaturatedIff(env, s, e, d, isAvailable, changedAt);
      case DeliveryCompleted(e, o) => CompletionKeepsSaturatedIff(env, s, e, o);
      case OrderCancelled(e, o) => CancellationKeepsSaturatedIff(env, s, e, o);
      case _ =>
        if Declines(s, c) {
          DeclineCommandIff(env, s, c);
        } else {
          QuietKeepsSaturated(env, s, c);
        }
    }
  }

  lemma DeclineCommandIff(env: Env, s: State, c: Command)
    requires Inv(env, s) && Saturated(s) && Declines(s, c)
    ensures Saturated(Next(env, s, c)) <==> KeepsSaturation(s, c)
  {
    hide Inv, Decline, WantedByNobody;
    match c {
      case OfferExpired(t, ack) =>
        OrderIsProper(env, s, t.orderId);
        var op := Expire(t.attemptNo, s.Now(env));
        DeclineMeetsIff(env, s, t.orderId, op);
        var s1 := Decline(env, s, t.orderId, op);
        assert forall o, d :: Starves(Next(env, s, c), o, d) <==> Starves(s1, o, d);
      case DriverRejects(o, d) =>
        DeclineMeetsIff(env, s, o, Reject(d, s.Now(env)));
    }
  }

  ghost predicate SaturatedThroughout(env: Env, s: State, cs: seq<Command>)
    decreases |cs|
  {
    Saturated(s) && (cs == [] || SaturatedThroughout(env, Next(env, s, cs[0]), cs[1..]))
  }

  ghost predicate KeepsThroughout(env: Env, s: State, cs: seq<Command>)
    decreases |cs|
  {
    cs == [] || (KeepsSaturation(s, cs[0]) && KeepsThroughout(env, Next(env, s, cs[0]), cs[1..]))
  }

  /**
    In a run no parked order is ever left beside a queued driver it has not tried, if and only if
    every command meets its condition when it comes.
   */
  lemma {:induction false} StaysSaturatedIff(env: Env, s: State, cs: seq<Command>)
    requires Inv(env, s) && Saturated(s) && LegalRun(env, s, cs)
    ensures SaturatedThroughout(env, s, cs) <==> KeepsThroughout(env, s, cs)
    decreases |cs|
  {
    hide Inv, Saturated, Next, Leads, KeepsSaturation;
    if cs != [] {
      var t := Next(env, s, cs[0]);
      NextKeepsSaturatedIff(env, s, cs[0]);
      NextLeads(env, false, s, cs[0]);
      LeadsKeepsInv(env, false, s, t);
      if Saturated(t) {
        StaysSaturatedIff(env, t, cs[1..]);
      }
    }
  }

  /** At most a page of parked orders at every point, and no decline takes effect. */
  predicate CalmRun(env: Env, s: State, cs: seq<Command>)
    decreases |cs|
  {
    |Parked(s.orders)| <= 50
    && (cs == [] || (!Declines(s, cs[0]) && CalmRun(env, Next(env, s, cs[0]), cs[1..])))
  }

  /** Such runs always meet the condition. */
  lemma {:induction false} CalmRunsKeep(env: Env, s: State, cs: seq<Command>)
    requires CalmRun(env, s, cs)
    ensures KeepsThroughout(env, s, cs)
    decreases |cs|
  {
    hide Next, PageServes;
    forall d ensures PageServes(s, d) {
      SmallPageServes(s, d);
    }
    if cs != [] {
      CalmRunsKeep(env, Next(env, s, cs[0]), cs[1..]);
    }
  }

  /** So with at most a page parked and no decline, nobody is ever left waiting for nothing. */
  lemma CalmRunsStaySaturated(env: Env, s: State, cs: seq<Command>)
    requires Inv(env, s) && Saturated(s) && LegalRun(env, s, cs) && CalmRun(env, s, cs)
    ensures SaturatedThroughout(env, s, cs)
  {
    hide Inv, Saturated, LegalRun, CalmRun, SaturatedThroughout, KeepsThroughout;
    CalmRunsKeep(env, s, cs);
    StaysSaturatedIff(env, s, cs);
  }
}
