/**
  The use cases cut at every repository, pool and schedule call, any number of them in flight at once.
  Two handlers never work on one order at the same time: the service takes no lock, so this is an
  assumption, built into the guards below. Force-assign is not among the handlers, because it saves
  before it marks the driver busy and never asks whether they are.
 */
module Interleaving {
  import opened Wrappers
  import opened Domain
  import opened AssignmentModel
  import opened PoolModel
  import opened RepositoryModel
  import opened DispatchModel
  import opened Invariants

  type HandlerId = nat

  /** Where a handler stands: which call it makes next and what it has in hand. */
  datatype Flight =
    | ReadForAttempt(o: OrderId, rest: seq<OrderId>)
    | Claiming(p: AssignmentProps, rest: seq<OrderId>)
    | SavingOffer(q: AssignmentProps, d: DriverId, rest: seq<OrderId>)
    | Scheduling(o: OrderId, attemptNo: nat, rest: seq<OrderId>)
    | SavingAnswer(q: AssignmentProps)
    | SavingRelease(q: AssignmentProps, held: Option<DriverId>, again: bool)
    | Freeing(o: OrderId, d: DriverId, again: bool)
    | ReadForFail(o: OrderId)
    | SavingFailed(q: AssignmentProps)
    | Listing
    | Passing(rest: seq<OrderId>)
  {
    /** The order this handler has to itself. */
    function Order(): Option<OrderId> {
      match this
      case ReadForAttempt(o, _) => Some(o)
      case Claiming(p, _) => Some(p.orderId)
      case SavingOffer(q, _, _) => Some(q.orderId)
      case Scheduling(o, _, _) => Some(o)
      case SavingAnswer(q) => Some(q.orderId)
      case SavingRelease(q, _, _) => Some(q.orderId)
      case Freeing(o, _, _) => Some(o)
      case ReadForFail(o) => Some(o)
      case SavingFailed(q) => Some(q.orderId)
      case _ => None
    }

    /** A driver who is busy on this handler's account: claimed but not saved, or saved but not freed. */
    function Carries(): Option<DriverId> {
      match this
      case SavingOffer(_, d, _) => Some(d)
      case Freeing(_, d, _) => Some(d)
      case _ => None
    }
  }

  /** `acks`: the expiry message a handler acknowledges when it is done. */
  datatype World = World(
    orders: Orders, pool: Pool, timers: multiset<Timer>, flights: map<HandlerId, Flight>, acks: map<HandlerId, Timer>)

  const QUIET := World(map[], EMPTY_POOL, multiset{}, map[], map[])

  datatype Move =
    | Begin(h: HandlerId, o: OrderId, op: Operation, ack: bool)
    | BeginCreated(h: HandlerId, p: AssignmentProps)
    | BeginWilling(h: HandlerId, d: DriverId, since: Time)
    | BeginRetry(h: HandlerId)
    | GoUnwilling(d: DriverId)
    | Advance(h: HandlerId, id: AttemptId, now: Time, expiresAt: Time)

  ghost predicate Unlocked(w: World, o: OrderId) {
    forall h :: h in w.flights ==> w.flights[h].Order() != Some(o)
  }

  /** The operations a request or message carries; the dispatch engine makes the others itself. */
  predicate IsRequest(op: Operation) {
    op.Accept? || op.Reject? || op.Expire? || op.Complete? || op.Cancel?
  }

  ghost predicate MayMove(w: World, m: Move) {
    match m
    case Begin(h, o, op, _) => h !in w.flights && IsRequest(op) && Unlocked(w, o)
    case BeginCreated(h, p) => h !in w.flights && p.orderId !in w.orders && Unlocked(w, p.orderId) && IsNew(p)
    case BeginWilling(h, _, _) => h !in w.flights
    case BeginRetry(h) => h !in w.flights
    case GoUnwilling(_) => true
    case Advance(h, _, _, _) =>
      && h in w.flights
      && (w.flights[h].Passing? && w.flights[h].rest != [] ==> Unlocked(w, w.flights[h].rest[0]))
  }

  /** Nothing but another handler on the same order holds a handler up, and that only where it takes the order. */
  lemma OnlyLocksBlock(w: World, h: HandlerId, o: OrderId, op: Operation, ack: bool, id: AttemptId, at: Time, exp: Time)
    ensures MayMove(w, Begin(h, o, op, ack)) <==>
      && h !in w.flights && (op.Accept? || op.Reject? || op.Expire? || op.Complete? || op.Cancel?)
      && (forall k :: k in w.flights ==> w.flights[k].Order() != Some(o))
    ensures MayMove(w, BeginRetry(h)) <==> h !in w.flights
    ensures h in w.flights && !(w.flights[h].Passing? && w.flights[h].rest != []) ==>
      MayMove(w, Advance(h, id, at, exp))
    ensures h in w.flights && w.flights[h].Passing? && w.flights[h].rest != [] ==>
      (MayMove(w, Advance(h, id, at, exp)) <==>
         forall k :: k in w.flights ==> w.flights[k].Order() != Some(w.flights[h].rest[0]))
  {
  }

  function Fly(w: World, h: HandlerId, f: Flight): World {
    w.(flights := w.flights[h := f])
  }

  function Land(w: World, h: HandlerId): World {
    var timers := if h in w.acks then w.timers - multiset{w.acks[h]} else w.timers;
    w.(flights := w.flights - {h}, acks := w.acks - {h}, timers := timers)
  }

  /** First call of a handler: read the order and step it in memory. */
  function Started(w: World, h: HandlerId, o: OrderId, op: Operation): World {
    if o in w.orders && w.orders[o].Allows(op) then
      var p := w.orders[o];
      if op.Accept? then Fly(w, h, SavingAnswer(p.After(op)))
      else Fly(w, h, SavingRelease(p.After(op), p.Holder(), op.Reject? || op.Expire?))
    else if op.Cancel? then Fly(w, h, Listing)
    else w
  }

  /** The message is acknowledged when its handler is done; unacknowledged, it will be delivered again. */
  function Acknowledging(w: World, h: HandlerId, t: Timer): World {
    if h in w.flights then w.(acks := w.acks[h := t]) else w.(timers := w.timers - multiset{t})
  }

  /** After the driver is back: retry this order, or list the parked ones. */
  function Resume(o: OrderId, again: bool): Flight {
    if again then ReadForFail(o) else Listing
  }

  /** The next repository or pool call of a handler in flight. */
  function Advanced(env: Env, w: World, h: HandlerId, id: AttemptId, now: Time, expiresAt: Time): World
    requires h in w.flights
  {
    match w.flights[h]
    case Listing => Fly(w, h, Passing(AwaitingOldestFirst(Parked(w.orders), RETRY_LIMIT)))
    case Passing(rest) => if rest == [] then Land(w, h) else Fly(w, h, ReadForAttempt(rest[0], rest[1..]))
    case ReadForAttempt(o, rest) =>
      if o in w.orders && w.orders[o].status == AwaitingDriver then Fly(w, h, Claiming(w.orders[o], rest))
      else Fly(w, h, Passing(rest))
    case Claiming(p, rest) =>
      (match w.pool.Claim(p.TriedDriverIds())
       case None => Fly(w, h, Passing(rest))
       case Some(d) =>
         if p.status != AwaitingDriver then Land(w.(pool := w.pool.Take(d)), h) else
         Fly(w.(pool := w.pool.Take(d)), h, SavingOffer(p.After(Offer(id, d, now, expiresAt)), d, rest)))
    case SavingOffer(q, _, rest) =>
      Fly(w.(orders := w.orders[q.orderId := q]), h, Scheduling(q.orderId, q.offerAttempts, rest))
    case Scheduling(o, n, rest) => Fly(w.(timers := w.timers + multiset{Timer(o, n)}), h, Passing(rest))
    case SavingAnswer(q) => Land(w.(orders := w.orders[q.orderId := q]), h)
    case SavingRelease(q, held, again) =>
      var w1 := w.(orders := w.orders[q.orderId := q]);
      Fly(w1, h, match held case Some(d) => Freeing(q.orderId, d, again) case None => Resume(q.orderId, again))
    case Freeing(o, d, again) => Fly(w.(pool := w.pool.FreeDriver(d, now)), h, Resume(o, again))
    case ReadForFail(o) =>
      if !(o in w.orders && w.orders[o].status == AwaitingDriver) then Land(w, h)
      else if w.orders[o].offerAttempts >= env.maxAttempts then Fly(w, h, SavingFailed(w.orders[o].After(Fail(now))))
      else Fly(w, h, ReadForAttempt(o, []))
    case SavingFailed(q) => Land(w.(orders := w.orders[q.orderId := q]), h)
  }

  function Moved(env: Env, w: World, m: Move): World
    requires m.Advance? ==> m.h in w.flights
  {
    match m
    case Begin(h, o, op, ack) =>
      var w1 := Started(w, h, o, op);
      if op.Expire? && ack then Acknowledging(w1, h, Timer(o, op.attemptNo)) else w1
    case BeginCreated(h, p) => Fly(w.(orders := w.orders[p.orderId := p]), h, ReadForAttempt(p.orderId, []))
    case BeginWilling(h, d, since) => Fly(w.(pool := w.pool.OnWilling(d, since)), h, Listing)
    case BeginRetry(h) => Fly(w, h, Listing)
    case GoUnwilling(d) => w.(pool := w.pool.OnUnwilling(d))
    case Advance(h, id, now, expiresAt) => Advanced(env, w, h, id, now, expiresAt)
  }

  // ----- Ownership -----

  datatype Owner = ByOrder(o: OrderId) | ByHandler(h: HandlerId)

  ghost predicate Owns(w: World, x: Owner, d: DriverId) {
    match x
    case ByOrder(o) => Holds(w.orders, o, d)
    case ByHandler(h) => h in w.flights && w.flights[h].Carries() == Some(d)
  }

  /** The busy drivers are the owned ones, and nobody has two owners. */
  ghost predicate Owned(w: World) {
    && (forall d :: d in w.pool.busy <==> exists x :: Owns(w, x, d))
    && (forall x, y, d :: Owns(w, x, d) && Owns(w, y, d) ==> x == y)
  }

  ghost predicate OneHandlerPerOrder(w: World) {
    forall h, h' :: h in w.flights && h' in w.flights && h != h' && w.flights[h].Order().Some?
      ==> w.flights[h'].Order() != w.flights[h].Order()
  }

  /** On its way to be failed or offered on by the handler that has it. */
  ghost predicate WillSettle(f: Flight, o: OrderId) {
    f.Order() == Some(o) && (f.ReadForFail? || f.SavingFailed? || (f.Freeing? && f.again))
  }

  ghost predicate OrderSound(max: nat, w: World, o: OrderId) {
    o in w.orders ==>
      && w.orders[o].orderId == o && Sound(w.orders[o]) && w.orders[o].offerAttempts <= max
      && (w.orders[o].status == Failed ==> w.orders[o].offerAttempts == max)
      && (w.orders[o].status == AwaitingDriver && w.orders[o].offerAttempts == max ==>
            exists h :: h in w.flights && WillSettle(w.flights[h], o))
  }

  ghost predicate OrdersSound(max: nat, w: World) {
    forall o :: o in w.orders ==> OrderSound(max, w, o)
  }

  /** What a handler has in hand agrees with what is stored. */
  ghost predicate InHand(max: nat, m: Orders, f: Flight) {
    match f
    case ReadForAttempt(o, _) => o in m && m[o].status == AwaitingDriver ==> m[o].offerAttempts < max
    case Claiming(p, _) => p.orderId in m && m[p.orderId] == p && p.status == AwaitingDriver && p.offerAttempts < max
    case SavingOffer(q, d, _) =>
      && q.orderId in m && m[q.orderId].Holder() == None
      && Sound(q) && q.status == Offered && q.Holder() == Some(d) && q.offerAttempts <= max
    case Scheduling(o, n, _) => o in m && m[o].status == Offered && m[o].offerAttempts == n
    case SavingAnswer(q) =>
      && q.orderId in m && m[q.orderId].Holder() == q.Holder()
      && Sound(q) && q.status == Assigned && q.offerAttempts <= max
    case SavingRelease(q, held, again) =>
      && q.orderId in m && m[q.orderId].Holder() == held
      && Sound(q) && q.Holder() == None && q.status != Failed && q.offerAttempts <= max
      && (q.status == AwaitingDriver ==> again) && (again ==> held.Some?)
    case Freeing(o, d, again) => o in m && m[o].Holder() == None
    case ReadForFail(o) => true
    case SavingFailed(q) =>
      && q.orderId in m && m[q.orderId].Holder() == None
      && Sound(q) && q.status == Failed && q.offerAttempts == max
    case _ => true
  }

  ghost predicate AllInHand(max: nat, w: World) {
    forall h :: h in w.flights ==> InHand(max, w.orders, w.flights[h])
  }

  ghost predicate WInv(env: Env, w: World) {
    && w.pool.Valid() && Owned(w) && OneHandlerPerOrder(w)
    && OrdersSound(env.maxAttempts, w) && AllInHand(env.maxAttempts, w)
  }

  // ----- Moving a driver between owners -----

  lemma OwnedSame(w: World, w': World)
    requires Owned(w) && w'.pool.busy == w.pool.busy
    requires forall x, d :: Owns(w', x, d) <==> Owns(w, x, d)
    ensures Owned(w')
  {
  }

  ghost predicate SameElsewhere(w: World, w': World, x: Owner, y: Owner, d: DriverId) {
    forall z, e :: (Owns(w', z, e) <==> Owns(w, z, e)) || (e == d && (z == x || z == y))
  }

  lemma OwnedHandover(w: World, w': World, x: Owner, y: Owner, d: DriverId)
    requires Owned(w) && w'.pool.busy == w.pool.busy && SameElsewhere(w, w', x, y, d)
    requires Owns(w, x, d) && !Owns(w', x, d) && Owns(w', y, d)
    ensures Owned(w')
  {
  }

  lemma OwnedGain(w: World, w': World, y: Owner, d: DriverId)
    requires Owned(w) && d !in w.pool.busy && w'.pool.busy == w.pool.busy + {d}
    requires SameElsewhere(w, w', y, y, d) && Owns(w', y, d)
    ensures Owned(w')
  {
  }

  lemma OwnedLoss(w: World, w': World, x: Owner, d: DriverId)
    requires Owned(w) && Owns(w, x, d) && w'.pool.busy == w.pool.busy - {d}
    requires SameElsewhere(w, w', x, x, d) && !Owns(w', x, d)
    ensures Owned(w')
  {
  }

  // ----- One handler moves, the others stand still -----

  ghost predicate Has(w: World, h: HandlerId, o: OrderId) {
    h in w.flights && w.flights[h].Order() == Some(o)
  }

  /** Nothing changes but handler `h` and orders that are its own before or after. */
  ghost predicate OnlyMoves(w: World, w': World, h: HandlerId) {
    && (forall h' :: h' != h ==> (h' in w'.flights <==> h' in w.flights))
    && (forall h' :: h' != h && h' in w.flights ==> w'.flights[h'] == w.flights[h'])
    && (forall o :: !Has(w, h, o) && !Has(w', h, o) ==> (o in w'.orders <==> o in w.orders))
    && (forall o :: !Has(w, h, o) && !Has(w', h, o) && o in w.orders ==> w'.orders[o] == w.orders[o])
    && (forall o, h' :: Has(w', h, o) && h' != h ==> !Has(w, h', o))
  }

  lemma OthersKeepOrders(max: nat, w: World, w': World, h: HandlerId)
    requires OrdersSound(max, w) && OnlyMoves(w, w', h)
    requires forall o :: Has(w, h, o) || Has(w', h, o) ==> OrderSound(max, w', o)
    ensures OrdersSound(max, w')
  {
  }

  lemma InHandElsewhere(max: nat, m: Orders, m': Orders, f: Flight)
    requires InHand(max, m, f)
    requires f.Order().Some? ==> (f.Order().value in m <==> f.Order().value in m')
    requires f.Order().Some? && f.Order().value in m ==> m'[f.Order().value] == m[f.Order().value]
    ensures InHand(max, m', f)
  {
  }

  lemma OthersKeepInHand(max: nat, w: World, w': World, h: HandlerId)
    requires AllInHand(max, w) && OneHandlerPerOrder(w) && OnlyMoves(w, w', h)
    requires h in w'.flights ==> InHand(max, w'.orders, w'.flights[h])
    ensures AllInHand(max, w') && OneHandlerPerOrder(w')
  {
    hide InHand, Flight.Order;
    forall k | k in w'.flights ensures InHand(max, w'.orders, w'.flights[k]) {
      if k != h {
        var f := w.flights[k];
        if f.Order().Some? {
          assert Has(w, k, f.Order().value);
          assert !Has(w, h, f.Order().value);
        }
        InHandElsewhere(max, w.orders, w'.orders, f);
      }
    }
    forall k, k' | k in w'.flights && k' in w'.flights && k != k' && w'.flights[k].Order().Some?
      ensures w'.flights[k'].Order() != w'.flights[k].Order()
    {
      var o := w'.flights[k].Order().value;
      assert Has(w', k, o);
      if k == h {
        assert !Has(w, k', o);
      } else if k' == h {
        assert Has(w, k, o);
        assert !Has(w', h, o);
      }
    }
  }

  lemma MoveKeepsInv(env: Env, w: World, w': World, h: HandlerId)
    requires WInv(env, w) && OnlyMoves(w, w', h) && w'.pool.Valid() && Owned(w')
    requires forall o :: Has(w, h, o) || Has(w', h, o) ==> OrderSound(env.maxAttempts, w', o)
    requires h in w'.flights ==> InHand(env.maxAttempts, w'.orders, w'.flights[h])
    ensures WInv(env, w')
  {
    hide Owned, OrdersSound, AllInHand, OneHandlerPerOrder, InHand, OnlyMoves, OrderSound;
    OthersKeepOrders(env.maxAttempts, w, w', h);
    OthersKeepInHand(env.maxAttempts, w, w', h);
  }

  /** The stored order a handler has, while it is out of tries, is waiting for that very handler. */
  lemma OwnOrderSound(env: Env, w: World, h: HandlerId, o: OrderId)
    requires WInv(env, w) && Has(w, h, o)
    ensures OrderSound(env.maxAttempts, w, o)
    ensures o in w.orders && w.orders[o].status == AwaitingDriver && w.orders[o].offerAttempts == env.maxAttempts
      ==> WillSettle(w.flights[h], o)
  {
  }

  // ----- First calls -----

  /** A new handler takes an order nobody has, and so far only read it. */
  lemma TakingKeepsInv(env: Env, w: World, h: HandlerId, o: OrderId, f: Flight)
    requires WInv(env, w) && h !in w.flights && Unlocked(w, o)
    requires f.Order() == Some(o) && f.Carries() == None && InHand(env.maxAttempts, w.orders, f)
    ensures WInv(env, Fly(w, h, f))
  {
    hide Sound, WillSettle, InHand;
    var w' := Fly(w, h, f);
    OwnedSame(w, w');
    if o in w.orders {
      UnlockedHasTries(env.maxAttempts, w, o);
    }
    assert forall o' :: Has(w', h, o') ==> o' == o;
    MoveKeepsInv(env, w, w', h);
  }

  lemma BeginKeepsInv(env: Env, w: World, h: HandlerId, o: OrderId, op: Operation)
    requires WInv(env, w) && h !in w.flights && IsRequest(op) && Unlocked(w, o)
    ensures WInv(env, Started(w, h, o, op))
  {
    hide Sound, Owned, OneHandlerPerOrder, AllInHand, InHand, AssignmentProps.Allows, AssignmentProps.After;
    if o in w.orders && w.orders[o].Allows(op) {
      var p := w.orders[o];
      RequestInHand(env.maxAttempts, w.orders, o, op);
      TakingKeepsInv(env, w, h, o,
                     if op.Accept? then SavingAnswer(p.After(op))
                     else SavingRelease(p.After(op), p.Holder(), op.Reject? || op.Expire?));
    } else if op.Cancel? {
      BeginListingKeepsInv(env, w, h, w.pool);
      assert w.(pool := w.pool) == w;
    }
  }

  lemma UnlockedHasTries(max: nat, w: World, o: OrderId)
    requires OrdersSound(max, w) && Unlocked(w, o) && o in w.orders
    ensures w.orders[o].status == AwaitingDriver ==> w.orders[o].offerAttempts < max
  {
    hide Sound;
  }

  lemma RequestInHand(max: nat, m: Orders, o: OrderId, op: Operation)
    requires o in m && m[o].orderId == o && Sound(m[o]) && m[o].offerAttempts <= max
    requires m[o].Allows(op) && IsRequest(op)
    ensures m[o].After(op).orderId == o
    ensures op.Accept? ==> InHand(max, m, SavingAnswer(m[o].After(op)))
    ensures !op.Accept? ==> InHand(max, m, SavingRelease(m[o].After(op), m[o].Holder(), op.Reject? || op.Expire?))
  {
  }

  /** A new handler changes nothing but the order it takes. */
  lemma TakingOnlyMoves(w: World, w': World, h: HandlerId, o: OrderId)
    requires h !in w.flights && Unlocked(w, o) && h in w'.flights && w'.flights == w.flights[h := w'.flights[h]]
    requires w'.flights[h].Order() == Some(o) && o in w'.orders && w'.orders == w.orders[o := w'.orders[o]]
    ensures OnlyMoves(w, w', h) && forall o' :: Has(w', h, o') ==> o' == o
  {
  }

  lemma BeginCreatedKeepsInv(env: Env, w: World, h: HandlerId, p: AssignmentProps)
    requires WInv(env, w) && MayMove(w, BeginCreated(h, p))
    ensures WInv(env, Moved(env, w, BeginCreated(h, p)))
  {
    hide WillSettle, AllInHand, OrdersSound;
    var w' := Moved(env, w, BeginCreated(h, p));
    NewIsProper(env.maxAttempts, p);
    assert OrderSound(env.maxAttempts, w', p.orderId);
    hide Sound, OrderSound;
    OwnedSame(w, w');
    hide Owned;
    TakingOnlyMoves(w, w', h, p.orderId);
    hide OneHandlerPerOrder, OnlyMoves;
    MoveKeepsInv(env, w, w', h);
  }

  /** Starting a bare listing, with or without a driver joining the queue. */
  lemma BeginListingKeepsInv(env: Env, w: World, h: HandlerId, pool: Pool)
    requires WInv(env, w) && h !in w.flights && pool.Valid() && pool.busy == w.pool.busy
    ensures WInv(env, Fly(w.(pool := pool), h, Listing))
  {
    hide Sound, WillSettle;
    var w' := Fly(w.(pool := pool), h, Listing);
    OwnedSame(w, w');
    MoveKeepsInv(env, w, w', h);
  }

  lemma UnwillingKeepsInv(env: Env, w: World, d: DriverId)
    requires WInv(env, w)
    ensures WInv(env, w.(pool := w.pool.OnUnwilling(d)))
  {
    hide Sound, WillSettle, InHand;
    OwnedSame(w, w.(pool := w.pool.OnUnwilling(d)));
  }

  lemma TimersDoNotMatter(env: Env, w: World, w': World)
    requires WInv(env, w) && w' == w.(timers := w'.timers, acks := w'.acks)
    ensures WInv(env, w')
  {
    assert forall x, d :: Owns(w', x, d) <==> Owns(w, x, d);
    assert forall o :: OrderSound(env.maxAttempts, w, o) ==> OrderSound(env.maxAttempts, w', o);
  }

  // ----- Later calls -----

  /** The handler keeps its order, drops it, or takes one nobody has. */
  lemma OnlyMovesIf(w: World, w': World, h: HandlerId)
    requires OneHandlerPerOrder(w) && h in w.flights && w'.orders == w.orders
    requires w'.flights == w.flights - {h} || (h in w'.flights && w'.flights == w.flights[h := w'.flights[h]])
    requires forall o :: Has(w', h, o) ==> Has(w, h, o) || Unlocked(w, o)
    ensures OnlyMoves(w, w', h)
  {
  }

  /** A call that only reads, or finds nobody to claim. */
  lemma ReadKeepsInv(env: Env, w: World, h: HandlerId, w': World)
    requires WInv(env, w) && h in w.flights && w.flights[h].Carries() == None
    requires w' == Land(w, h) || (h in w'.flights && w' == Fly(w, h, w'.flights[h]) && w'.flights[h].Carries() == None)
    requires forall o :: Has(w', h, o) ==> Has(w, h, o) || Unlocked(w, o)
    requires h in w'.flights ==> InHand(env.maxAttempts, w.orders, w'.flights[h])
    requires forall o :: Has(w, h, o) && WillSettle(w.flights[h], o) ==>
      || (h in w'.flights && WillSettle(w'.flights[h], o))
      || (o in w.orders ==> w.orders[o].status != AwaitingDriver || w.orders[o].offerAttempts < env.maxAttempts)
    ensures WInv(env, w')
  {
    hide Sound, InHand;
    OwnedSame(w, w');
    forall o | Has(w, h, o) || Has(w', h, o) ensures OrderSound(env.maxAttempts, w', o) {
      if Has(w, h, o) {
        OwnOrderSound(env, w, h, o);
      } else {
        assert Unlocked(w, o);
        assert OrderSound(env.maxAttempts, w, o);
      }
    }
    hide WillSettle, OrderSound, Owned;
    OnlyMovesIf(w, w', h);
    hide OnlyMoves, OneHandlerPerOrder;
    MoveKeepsInv(env, w, w', h);
  }

  lemma KeysAreIds(env: Env, w: World)
    requires WInv(env, w)
    ensures forall o :: o in w.orders ==> w.orders[o].orderId == o
  {
  }

  lemma ListingKeepsInv(env: Env, w: World, h: HandlerId, id: AttemptId, now: Time, expiresAt: Time)
    requires WInv(env, w) && MayMove(w, Advance(h, id, now, expiresAt))
    requires w.flights[h].Listing? || w.flights[h].Passing? || w.flights[h].ReadForAttempt?
    ensures WInv(env, Advanced(env, w, h, id, now, expiresAt))
  {
    ReadInHand(env, w, h, id, now, expiresAt);
    hide InHand, WInv, Unlocked, Advanced;
    ReadKeepsInv(env, w, h, Advanced(env, w, h, id, now, expiresAt));
  }

  lemma ReadInHand(env: Env, w: World, h: HandlerId, id: AttemptId, now: Time, expiresAt: Time)
    requires WInv(env, w) && MayMove(w, Advance(h, id, now, expiresAt))
    requires w.flights[h].Listing? || w.flights[h].Passing? || w.flights[h].ReadForAttempt?
    ensures w.flights[h].Carries() == None && forall o :: !WillSettle(w.flights[h], o)
    ensures var w' := Advanced(env, w, h, id, now, expiresAt);
      if h !in w'.flights then w' == Land(w, h) else
      && w' == Fly(w, h, w'.flights[h]) && w'.flights[h].Carries() == None
      && InHand(env.maxAttempts, w.orders, w'.flights[h])
      && forall o :: Has(w', h, o) ==> Has(w, h, o) || Unlocked(w, o)
  {
    hide Sound, Owned, OneHandlerPerOrder, OrdersSound, AwaitingOldestFirst, Parked;
    var f := w.flights[h];
    assert InHand(env.maxAttempts, w.orders, f);
    KeysAreIds(env, w);
    if f.Passing? && f.rest != [] {
      PassingInHand(env, w, f.rest[0], f.rest[1..]);
    }
  }

  lemma ReadForFailKeepsInv(env: Env, w: World, h: HandlerId, id: AttemptId, now: Time, expiresAt: Time)
    requires WInv(env, w) && h in w.flights && w.flights[h].ReadForFail?
    ensures WInv(env, Advanced(env, w, h, id, now, expiresAt))
  {
    hide Sound, Owned, OneHandlerPerOrder, InHand, AssignmentProps.After;
    var o := w.flights[h].o;
    if o in w.orders && w.orders[o].status == AwaitingDriver {
      OwnOrderSound(env, w, h, o);
      FailInHand(env.maxAttempts, w.orders, o, now);
      if w.orders[o].offerAttempts < env.maxAttempts {
        RetryInHand(env.maxAttempts, w.orders, o);
      }
    }
    ReadKeepsInv(env, w, h, Advanced(env, w, h, id, now, expiresAt));
  }

  lemma RetryInHand(max: nat, m: Orders, o: OrderId)
    requires o in m && m[o].offerAttempts < max
    ensures InHand(max, m, ReadForAttempt(o, []))
  {
  }

  lemma FailInHand(max: nat, m: Orders, o: OrderId, now: Time)
    requires o in m && m[o].orderId == o && Sound(m[o]) && m[o].status == AwaitingDriver
    ensures m[o].After(Fail(now)).orderId == o
    ensures m[o].offerAttempts == max ==> InHand(max, m, SavingFailed(m[o].After(Fail(now))))
  {
  }

  lemma PassingInHand(env: Env, w: World, o: OrderId, rest: seq<OrderId>)
    requires WInv(env, w) && Unlocked(w, o)
    ensures InHand(env.maxAttempts, w.orders, ReadForAttempt(o, rest))
  {
  }

  lemma ClaimingKeepsInv(env: Env, w: World, h: HandlerId, id: AttemptId, now: Time, expiresAt: Time)
    requires WInv(env, w) && h in w.flights && w.flights[h].Claiming?
    ensures WInv(env, Advanced(env, w, h, id, now, expiresAt))
  {
    hide Sound, Owned, OneHandlerPerOrder, OrdersSound;
    var Claiming(p, rest) := w.flights[h];
    assert InHand(env.maxAttempts, w.orders, w.flights[h]);
    match w.pool.Claim(p.TriedDriverIds()) {
      case None =>
        OwnOrderSound(env, w, h, p.orderId);
        ReadKeepsInv(env, w, h, Fly(w, h, Passing(rest)));
      case Some(d) =>
        ClaimedIsEligible(w.pool, p.TriedDriverIds());
        ClaimedKeepsInv(env, w, h, p, rest, Offer(id, d, now, expiresAt));
    }
  }

  lemma ClaimedKeepsInv(env: Env, w: World, h: HandlerId, p: AssignmentProps, rest: seq<OrderId>, op: Operation)
    requires WInv(env, w) && h in w.flights && w.flights[h] == Claiming(p, rest)
    requires op.Offer? && p.status == AwaitingDriver
    requires op.driverId in w.pool.available && op.driverId !in p.TriedDriverIds()
    ensures WInv(env, Fly(w.(pool := w.pool.Take(op.driverId)), h, SavingOffer(p.After(op), op.driverId, rest)))
  {
    var d, f := op.driverId, SavingOffer(p.After(op), op.driverId, rest);
    var w' := Fly(w.(pool := w.pool.Take(d)), h, f);
    assert InHand(env.maxAttempts, w.orders, w.flights[h]);
    OwnOrderSound(env, w, h, p.orderId);
    ClaimedInHand(env.maxAttempts, w.orders, p, rest, op);
    hide Sound, Owned, InHand, AssignmentProps.After, OrdersSound, AllInHand;
    OwnedGain(w, w', ByHandler(h), d);
    OnlyOwnMoves(w, w', h);
    MoveKeepsInv(env, w, w', h);
  }

  lemma ClaimedInHand(max: nat, m: Orders, p: AssignmentProps, rest: seq<OrderId>, op: Operation)
    requires InHand(max, m, Claiming(p, rest)) && Sound(p)
    requires op.Offer? && op.driverId !in p.TriedDriverIds()
    ensures p.After(op).orderId == p.orderId
    ensures InHand(max, m, SavingOffer(p.After(op), op.driverId, rest))
  {
    OperationKeepsSound(p, op);
    HolderAfter(p, op);
  }

  /** Same order in hand before and after. */
  lemma OnlyOwnMoves(w: World, w': World, h: HandlerId)
    requires OneHandlerPerOrder(w) && h in w.flights
    requires w'.flights == w.flights - {h} || (h in w'.flights && w'.flights == w.flights[h := w'.flights[h]])
    requires forall o :: Has(w', h, o) ==> Has(w, h, o)
    requires forall o :: !Has(w, h, o) ==> (o in w'.orders <==> o in w.orders)
    requires forall o :: !Has(w, h, o) && o in w.orders ==> w'.orders[o] == w.orders[o]
    ensures OnlyMoves(w, w', h)
  {
  }

  lemma SavingOfferKeepsInv(env: Env, w: World, h: HandlerId, id: AttemptId, now: Time, expiresAt: Time)
    requires WInv(env, w) && h in w.flights && w.flights[h].SavingOffer?
    ensures WInv(env, Advanced(env, w, h, id, now, expiresAt))
  {
    hide Sound, Pool.FreeDriver, Pool.Claim, AwaitingOldestFirst, Parked, AssignmentProps.After, AssignmentProps.Allows;
    var SavingOffer(q, d, rest) := w.flights[h];
    assert InHand(env.maxAttempts, w.orders, w.flights[h]);
    var w' := Advanced(env, w, h, id, now, expiresAt);
    OwnedHandover(w, w', ByHandler(h), ByOrder(q.orderId), d);
    OnlyOwnMoves(w, w', h);
    MoveKeepsInv(env, w, w', h);
  }

  lemma SchedulingKeepsInv(env: Env, w: World, h: HandlerId, id: AttemptId, now: Time, expiresAt: Time)
    requires WInv(env, w) && h in w.flights && w.flights[h].Scheduling?
    ensures WInv(env, Advanced(env, w, h, id, now, expiresAt))
  {
    hide Sound, Owned, OneHandlerPerOrder, OrdersSound;
    var Scheduling(o, n, rest) := w.flights[h];
    assert InHand(env.maxAttempts, w.orders, w.flights[h]);
    OwnOrderSound(env, w, h, o);
    ReadKeepsInv(env, w, h, Fly(w, h, Passing(rest)));
    TimersDoNotMatter(env, Fly(w, h, Passing(rest)), Advanced(env, w, h, id, now, expiresAt));
  }

  /** Saving an order that holds the same driver, or nobody, before and after. */
  lemma SavingKeepsInv(env: Env, w: World, h: HandlerId, id: AttemptId, now: Time, expiresAt: Time)
    requires WInv(env, w) && h in w.flights && (w.flights[h].SavingAnswer? || w.flights[h].SavingFailed?)
    ensures WInv(env, Advanced(env, w, h, id, now, expiresAt))
  {
    hide Sound, Pool.FreeDriver, Pool.Claim, AwaitingOldestFirst, Parked, AssignmentProps.After, AssignmentProps.Allows;
    assert InHand(env.maxAttempts, w.orders, w.flights[h]);
    FailedHoldsNobody(w.flights[h].q);
    var w' := Advanced(env, w, h, id, now, expiresAt);
    OwnedSame(w, w');
    OnlyOwnMoves(w, w', h);
    MoveKeepsInv(env, w, w', h);
  }

  lemma FailedHoldsNobody(q: AssignmentProps)
    ensures q.status == Failed ==> q.Holder() == None
  {
  }

  lemma SavingReleaseKeepsInv(env: Env, w: World, h: HandlerId, id: AttemptId, now: Time, expiresAt: Time)
    requires WInv(env, w) && h in w.flights && w.flights[h].SavingRelease?
    ensures WInv(env, Advanced(env, w, h, id, now, expiresAt))
  {
    hide Sound, Pool.FreeDriver, Pool.Claim, AwaitingOldestFirst, Parked, AssignmentProps.After, AssignmentProps.Allows;
    var SavingRelease(q, held, again) := w.flights[h];
    assert InHand(env.maxAttempts, w.orders, w.flights[h]);
    var w' := Advanced(env, w, h, id, now, expiresAt);
    match held {
      case Some(d) => OwnedHandover(w, w', ByOrder(q.orderId), ByHandler(h), d);
      case None => OwnedSame(w, w');
    }
    hide Owned, AllInHand;
    OnlyOwnMoves(w, w', h);
    hide OnlyMoves, OneHandlerPerOrder;
    MoveKeepsInv(env, w, w', h);
  }

  lemma FreeingKeepsInv(env: Env, w: World, h: HandlerId, id: AttemptId, now: Time, expiresAt: Time)
    requires WInv(env, w) && h in w.flights && w.flights[h].Freeing?
    ensures WInv(env, Advanced(env, w, h, id, now, expiresAt))
  {
    hide Sound, Pool.Claim, AwaitingOldestFirst, Parked, AssignmentProps.After, AssignmentProps.Allows;
    var Freeing(o, d, again) := w.flights[h];
    assert InHand(env.maxAttempts, w.orders, w.flights[h]);
    var w' := Advanced(env, w, h, id, now, expiresAt);
    OwnOrderSound(env, w, h, o);
    OwnedLoss(w, w', ByHandler(h), d);
    hide Owned, AllInHand;
    OnlyOwnMoves(w, w', h);
    hide OnlyMoves, OneHandlerPerOrder;
    MoveKeepsInv(env, w, w', h);
  }

  lemma AdvanceKeepsInv(env: Env, w: World, h: HandlerId, id: AttemptId, now: Time, expiresAt: Time)
    requires WInv(env, w) && MayMove(w, Advance(h, id, now, expiresAt))
    ensures WInv(env, Advanced(env, w, h, id, now, expiresAt))
  {
    hide WInv, Advanced, Unlocked;
    match w.flights[h] {
      case Claiming(_, _) => ClaimingKeepsInv(env, w, h, id, now, expiresAt);
      case SavingOffer(_, _, _) => SavingOfferKeepsInv(env, w, h, id, now, expiresAt);
      case Scheduling(_, _, _) => SchedulingKeepsInv(env, w, h, id, now, expiresAt);
      case SavingAnswer(_) => SavingKeepsInv(env, w, h, id, now, expiresAt);
      case SavingFailed(_) => SavingKeepsInv(env, w, h, id, now, expiresAt);
      case SavingRelease(_, _, _) => SavingReleaseKeepsInv(env, w, h, id, now, expiresAt);
      case Freeing(_, _, _) => FreeingKeepsInv(env, w, h, id, now, expiresAt);
      case ReadForFail(_) => ReadForFailKeepsInv(env, w, h, id, now, expiresAt);
      case _ => ListingKeepsInv(env, w, h, id, now, expiresAt);
    }
  }

  lemma MovedKeepsInv(env: Env, w: World, m: Move)
    requires WInv(env, w) && MayMove(w, m)
    ensures WInv(env, Moved(env, w, m))
  {
    hide Advanced, Started, Owned, OneHandlerPerOrder, OrdersSound, AllInHand;
    match m {
      case Begin(h, o, op, _) =>
        BeginKeepsInv(env, w, h, o, op);
        TimersDoNotMatter(env, Started(w, h, o, op), Moved(env, w, m));
      case BeginCreated(h, p) => BeginCreatedKeepsInv(env, w, h, p);
      case BeginWilling(h, d, since) => BeginListingKeepsInv(env, w, h, w.pool.OnWilling(d, since));
      case BeginRetry(h) =>
        BeginListingKeepsInv(env, w, h, w.pool);
        assert w.(pool := w.pool) == w;
      case GoUnwilling(d) => UnwillingKeepsInv(env, w, d);
      case Advance(h, id, now, expiresAt) => AdvanceKeepsInv(env, w, h, id, now, expiresAt);
    }
  }

  // ----- Expiry messages -----

  /** Attempt `n` of order `o` is stored as open. */
  ghost predicate Open(m: Orders, o: OrderId, n: nat) {
    o in m && m[o].status == Offered && m[o].offerAttempts == n
  }

  ghost predicate Schedules(w: World, h: HandlerId, o: OrderId) {
    h in w.flights && w.flights[h].Scheduling? && w.flights[h].o == o
  }

  /** Every open offer has its message in the queue, or a handler between its save and its schedule. */
  ghost predicate Covered(w: World) {
    forall o, n :: Open(w.orders, o, n) ==> Timer(o, n) in w.timers || exists h :: Schedules(w, h, o)
  }

  ghost predicate Closes(m: Orders, q: AssignmentProps) {
    q.orderId in m && q.offerAttempts == m[q.orderId].offerAttempts && q.status != Offered
  }

  /** Offers in hand continue the stored count; nothing else in hand is an offer. */
  ghost predicate Counted(m: Orders, f: Flight) {
    match f
    case SavingOffer(q, _, _) => q.orderId in m && q.offerAttempts == m[q.orderId].offerAttempts + 1
    case SavingAnswer(q) => Closes(m, q)
    case SavingRelease(q, _, _) => Closes(m, q)
    case SavingFailed(q) => Closes(m, q)
    case _ => true
  }

  /** A handler that will acknowledge message `t` has closed that attempt, or is about to save it closed. */
  ghost predicate Answers(m: Orders, f: Flight, t: Timer) {
    && t.orderId in m && t.attemptNo <= m[t.orderId].offerAttempts
    && (Open(m, t.orderId, t.attemptNo) ==> f.SavingRelease? && f.q.orderId == t.orderId)
  }

  ghost predicate TInv(w: World) {
    && Covered(w)
    && (forall h :: h in w.flights ==> Counted(w.orders, w.flights[h]))
    && (forall h :: h in w.acks ==> h in w.flights && Answers(w.orders, w.flights[h], w.acks[h]))
  }

  /** Offers are counted up, and a closed attempt is not opened again. */
  ghost predicate Settles(m: Orders, m': Orders) {
    forall o :: o in m ==>
      && o in m' && m[o].offerAttempts <= m'[o].offerAttempts
      && (m'[o].status == Offered && m'[o].offerAttempts == m[o].offerAttempts ==> m[o].status == Offered)
  }

  /** What the moving handler owes, so that every other handler's part of `TInv` stands. */
  lemma MoveKeepsTInv(w: World, w': World, h: HandlerId)
    requires TInv(w) && OneHandlerPerOrder(w) && OnlyMoves(w, w', h) && Settles(w.orders, w'.orders)
    requires forall o, n :: Has(w, h, o) && Open(w'.orders, o, n) ==> Timer(o, n) in w'.timers || Schedules(w', h, o)
    requires forall o, n :: Has(w', h, o) && !Has(w, h, o) && Open(w'.orders, o, n) ==> Open(w.orders, o, n)
    requires forall t :: t in w.timers && Open(w'.orders, t.orderId, t.attemptNo) ==> t in w'.timers
    requires h in w'.flights ==> Counted(w'.orders, w'.flights[h])
    requires forall k :: k in w'.acks && k != h ==> k in w.acks && w'.acks[k] == w.acks[k]
    requires h in w'.acks ==> h in w'.flights && Answers(w'.orders, w'.flights[h], w'.acks[h])
    ensures TInv(w')
  {
    hide Counted;
    forall o, n | Open(w'.orders, o, n) ensures Timer(o, n) in w'.timers || exists k :: Schedules(w', k, o) {
      if !Has(w, h, o) {
        assert Open(w.orders, o, n);
        if Timer(o, n) !in w.timers {
          var k :| Schedules(w, k, o);
          assert Has(w, k, o);
          assert Schedules(w', k, o);
        }
      }
    }
    forall k | k in w'.flights && k != h ensures Counted(w'.orders, w'.flights[k]) {
      CountedElsewhere(w, w', h, k);
    }
  }

  lemma CountedElsewhere(w: World, w': World, h: HandlerId, k: HandlerId)
    requires OneHandlerPerOrder(w) && OnlyMoves(w, w', h) && k != h && k in w'.flights
    requires Counted(w.orders, w.flights[k])
    ensures Counted(w'.orders, w'.flights[k])
  {
    var f := w.flights[k];
    if f.Order().Some? {
      assert Has(w, k, f.Order().value);
      assert !Has(w, h, f.Order().value);
    }
  }

  /** The order of the moving handler, while open, has its message unless the handler itself will send it. */
  lemma OwnIsCovered(w: World, h: HandlerId, o: OrderId, n: nat)
    requires TInv(w) && OneHandlerPerOrder(w) && Has(w, h, o) && Open(w.orders, o, n)
    ensures Timer(o, n) in w.timers || w.flights[h].Scheduling?
  {
    if Timer(o, n) !in w.timers {
      var k :| Schedules(w, k, o);
      assert Has(w, k, o);
    }
  }

  /** A call that writes no order and no message. */
  lemma FlyKeepsTInv(w: World, w': World, h: HandlerId)
    requires TInv(w) && OneHandlerPerOrder(w) && OnlyMoves(w, w', h)
    requires w'.orders == w.orders && w'.timers == w.timers && w'.acks == w.acks
    requires h in w'.flights && Counted(w'.orders, w'.flights[h])
    requires h in w.flights ==> !w.flights[h].Scheduling? && !w.flights[h].SavingRelease?
    ensures TInv(w')
  {
    hide Counted;
    forall o, n | Has(w, h, o) && Open(w'.orders, o, n) ensures Timer(o, n) in w'.timers {
      OwnIsCovered(w, h, o, n);
    }
    MoveKeepsTInv(w, w', h);
  }

  /** The end of a handler, which acknowledges the message it was started by. */
  lemma LandKeepsTInv(w: World, w': World, h: HandlerId)
    requires TInv(w) && OneHandlerPerOrder(w) && OnlyMoves(w, w', h) && Settles(w.orders, w'.orders)
    requires h in w.flights && !w.flights[h].Scheduling? && !w.flights[h].SavingRelease?
    requires h !in w'.flights && w'.acks == w.acks - {h} && w'.timers == Land(w, h).timers
    requires forall o, n :: Has(w, h, o) && Open(w'.orders, o, n) ==> Open(w.orders, o, n)
    ensures TInv(w')
  {
    hide Counted;
    assert h in w.acks ==> !Open(w'.orders, w.acks[h].orderId, w.acks[h].attemptNo);
    forall o, n | Has(w, h, o) && Open(w'.orders, o, n) ensures Timer(o, n) in w'.timers {
      OwnIsCovered(w, h, o, n);
    }
    MoveKeepsTInv(w, w', h);
  }

  /** A new handler, on an order nobody has or on none, with or without a message to acknowledge. */
  lemma TakingKeepsTInv(w: World, w': World, h: HandlerId, f: Flight)
    requires TInv(w) && OneHandlerPerOrder(w) && h !in w.flights
    requires w'.orders == w.orders && w'.timers == w.timers && w'.flights == w.flights[h := f]
    requires f.Order().Some? ==> Unlocked(w, f.Order().value)
    requires Counted(w.orders, f)
    requires w'.acks == w.acks
      || (h in w'.acks && w'.acks == w.acks[h := w'.acks[h]] && Answers(w.orders, f, w'.acks[h]))
    ensures TInv(w')
  {
    hide Counted, Answers, Covered;
    assert OnlyMoves(w, w', h) by {
      assert forall o: OrderId :: Has(w', h, o) ==> f.Order() == Some(o);
    }
    AcksFly(w);
    MoveKeepsTInv(w, w', h);
  }

  lemma AcksFly(w: World)
    requires TInv(w)
    ensures forall h :: h in w.acks ==> h in w.flights
  {
  }

  /** A message about an attempt that is not open can go. */
  lemma DropKeepsTInv(w: World, t: Timer)
    requires TInv(w) && !Open(w.orders, t.orderId, t.attemptNo)
    ensures TInv(w.(timers := w.timers - multiset{t}))
  {
    var w' := w.(timers := w.timers - multiset{t});
    forall o, n | Open(w'.orders, o, n) ensures Timer(o, n) in w'.timers || exists k :: Schedules(w', k, o) {
      if k :| Schedules(w, k, o) {
        assert Schedules(w', k, o);
      }
    }
  }

  lemma ExpireIfOpen(m: Orders, o: OrderId, n: nat, now: Time)
    requires o in m ==> Sound(m[o])
    ensures (o in m && m[o].Allows(Expire(n, now))) <==> Open(m, o, n)
  {
  }

  lemma RequestCounted(m: Orders, o: OrderId, op: Operation)
    requires o in m && m[o].orderId == o && Sound(m[o]) && m[o].Allows(op) && IsRequest(op)
    ensures m[o].After(op).orderId == o
    ensures op.Accept? ==> Counted(m, SavingAnswer(m[o].After(op)))
    ensures !op.Accept? ==> Counted(m, SavingRelease(m[o].After(op), m[o].Holder(), op.Reject? || op.Expire?))
    ensures op.Expire? ==>
      Answers(m, SavingRelease(m[o].After(op), m[o].Holder(), op.Reject? || op.Expire?), Timer(o, op.attemptNo))
  {
    hide AssignmentProps.After;
    OffersAfter(m[o], op);
    StepKeepsIdentity(m[o], op);
  }

  lemma BeginKeepsTInv(env: Env, w: World, h: HandlerId, o: OrderId, op: Operation, ack: bool)
    requires WInv(env, w) && TInv(w) && MayMove(w, Begin(h, o, op, ack))
    ensures TInv(Moved(env, w, Begin(h, o, op, ack)))
  {
    hide AssignmentProps.After, AssignmentProps.Allows, Sound, InHand, Owned, OneHandlerPerOrder, TInv, Counted,
      Answers;
    var w' := Moved(env, w, Begin(h, o, op, ack));
    if op.Expire? {
      ExpireIfOpen(w.orders, o, op.attemptNo, op.now);
    }
    if o in w.orders && w.orders[o].Allows(op) {
      RequestCounted(w.orders, o, op);
      TakingKeepsTInv(w, w', h, w'.flights[h]);
    } else if op.Cancel? {
      ListingIsCounted(w.orders, Listing);
      TakingKeepsTInv(w, w', h, Listing);
    } else if op.Expire? && ack {
      DropKeepsTInv(w, Timer(o, op.attemptNo));
    }
  }

  lemma ListingIsCounted(m: Orders, f: Flight)
    requires f.Listing? || f.Passing? || f.ReadForAttempt? || f.Claiming? || f.Freeing? || f.ReadForFail?
    ensures Counted(m, f)
  {
  }

  lemma BeginCreatedKeepsTInv(env: Env, w: World, h: HandlerId, p: AssignmentProps)
    requires WInv(env, w) && TInv(w) && MayMove(w, BeginCreated(h, p))
    ensures TInv(Moved(env, w, BeginCreated(h, p)))
  {
    hide Owned, OrdersSound, AllInHand, Counted, Answers, Covered;
    var w' := Moved(env, w, BeginCreated(h, p));
    ListingIsCounted(w'.orders, w'.flights[h]);
    TakingOnlyMoves(w, w', h, p.orderId);
    hide OneHandlerPerOrder, OnlyMoves;
    MoveKeepsTInv(w, w', h);
  }

  /** Calls that only read orders, and claims and frees. */
  lemma ReadingKeepsTInv(env: Env, w: World, h: HandlerId, id: AttemptId, now: Time, expiresAt: Time)
    requires WInv(env, w) && TInv(w) && MayMove(w, Advance(h, id, now, expiresAt))
    requires var f := w.flights[h];
      f.Listing? || f.Passing? || f.ReadForAttempt? || f.Claiming? || f.Freeing? || f.ReadForFail?
    ensures TInv(Advanced(env, w, h, id, now, expiresAt))
  {
    hide Owned, OrdersSound, TInv, Counted, Sound;
    var w' := Advanced(env, w, h, id, now, expiresAt);
    assert InHand(env.maxAttempts, w.orders, w.flights[h]);
    KeysAreIds(env, w);
    NextIsCounted(env, w, h, id, now, expiresAt);
    hide AllInHand, InHand, Advanced;
    OnlyMovesIf(w, w', h);
    hide OneHandlerPerOrder, OnlyMoves, Unlocked;
    if h in w'.flights {
      FlyKeepsTInv(w, w', h);
    } else {
      LandKeepsTInv(w, w', h);
    }
  }

  lemma NextIsCounted(env: Env, w: World, h: HandlerId, id: AttemptId, now: Time, expiresAt: Time)
    requires h in w.flights && InHand(env.maxAttempts, w.orders, w.flights[h])
    requires forall o :: o in w.orders ==> w.orders[o].orderId == o
    requires var f := w.flights[h];
      f.Listing? || f.Passing? || f.ReadForAttempt? || f.Claiming? || f.Freeing? || f.ReadForFail?
    ensures var w', f := Advanced(env, w, h, id, now, expiresAt), w.flights[h];
      if h in w'.flights then
        && w' == Fly(w.(pool := w'.pool), h, w'.flights[h]) && Counted(w.orders, w'.flights[h])
        && w'.flights[h].Order() in {None, f.Order(), if f.Passing? && f.rest != [] then Some(f.rest[0]) else None}
      else w' == Land(w.(pool := w'.pool), h)
  {
    hide Pool.FreeDriver, Pool.Claim, AwaitingOldestFirst, Parked;
  }

  /** The order is stored with its new offer, and the same handler is about to schedule the expiry. */
  lemma SavingOfferKeepsTInv(env: Env, w: World, h: HandlerId, id: AttemptId, now: Time, expiresAt: Time)
    requires WInv(env, w) && TInv(w) && h in w.flights && w.flights[h].SavingOffer?
    ensures TInv(Advanced(env, w, h, id, now, expiresAt))
  {
    hide Owned, OrdersSound, AllInHand, Covered, Pool.FreeDriver, Pool.Claim,
      AwaitingOldestFirst, Parked, AssignmentProps.After, AssignmentProps.Allows;
    var w' := Advanced(env, w, h, id, now, expiresAt);
    var q := w.flights[h].q;
    assert Counted(w.orders, w.flights[h]);
    OnlyOwnMoves(w, w', h);
    hide OnlyMoves;
    forall o, n | Has(w, h, o) && Open(w'.orders, o, n) ensures Schedules(w', h, o) {
      assert o == q.orderId;
    }
    MoveKeepsTInv(w, w', h);
  }

  lemma SchedulingKeepsTInv(env: Env, w: World, h: HandlerId, id: AttemptId, now: Time, expiresAt: Time)
    requires WInv(env, w) && TInv(w) && h in w.flights && w.flights[h].Scheduling?
    ensures TInv(Advanced(env, w, h, id, now, expiresAt))
  {
    hide Owned, OrdersSound, Covered, Pool.FreeDriver, Pool.Claim,
      AwaitingOldestFirst, Parked, AssignmentProps.After, AssignmentProps.Allows;
    var w' := Advanced(env, w, h, id, now, expiresAt);
    assert InHand(env.maxAttempts, w.orders, w.flights[h]);
    OnlyOwnMoves(w, w', h);
    hide OnlyMoves;
    MoveKeepsTInv(w, w', h);
  }

  lemma SavingReleaseKeepsTInv(env: Env, w: World, h: HandlerId, id: AttemptId, now: Time, expiresAt: Time)
    requires WInv(env, w) && TInv(w) && h in w.flights && w.flights[h].SavingRelease?
    ensures TInv(Advanced(env, w, h, id, now, expiresAt))
  {
    hide Owned, OrdersSound, AllInHand, Covered, Pool.FreeDriver, Pool.Claim,
      AwaitingOldestFirst, Parked, AssignmentProps.After, AssignmentProps.Allows;
    var w' := Advanced(env, w, h, id, now, expiresAt);
    assert Counted(w.orders, w.flights[h]);
    OnlyOwnMoves(w, w', h);
    hide OnlyMoves, OneHandlerPerOrder;
    assert Settles(w.orders, w'.orders);
    MoveKeepsTInv(w, w', h);
  }

  lemma SavingKeepsTInv(env: Env, w: World, h: HandlerId, id: AttemptId, now: Time, expiresAt: Time)
    requires WInv(env, w) && TInv(w) && h in w.flights && (w.flights[h].SavingAnswer? || w.flights[h].SavingFailed?)
    ensures TInv(Advanced(env, w, h, id, now, expiresAt))
  {
    hide Owned, OrdersSound, AllInHand, Pool.FreeDriver, Pool.Claim,
      AwaitingOldestFirst, Parked, AssignmentProps.After, AssignmentProps.Allows;
    var w' := Advanced(env, w, h, id, now, expiresAt);
    assert Counted(w.orders, w.flights[h]);
    OnlyOwnMoves(w, w', h);
    hide OnlyMoves, TInv;
    LandKeepsTInv(w, w', h);
  }

  lemma PoolKeepsTInv(w: World, pool: Pool)
    requires TInv(w)
    ensures TInv(w.(pool := pool))
  {
    hide Open;
    assert forall h, o :: Schedules(w, h, o) ==> Schedules(w.(pool := pool), h, o);
  }

  lemma BeginListingKeepsTInv(env: Env, w: World, h: HandlerId, pool: Pool)
    requires WInv(env, w) && TInv(w) && h !in w.flights
    ensures TInv(Fly(w.(pool := pool), h, Listing))
  {
    hide Owned, OrdersSound, AllInHand, TInv, Counted, OneHandlerPerOrder;
    ListingIsCounted(w.orders, Listing);
    TakingKeepsTInv(w, Fly(w.(pool := pool), h, Listing), h, Listing);
  }

  /** Each single call of each handler keeps every open offer covered by its message. */
  lemma MovedKeepsTInv(env: Env, w: World, m: Move)
    requires WInv(env, w) && TInv(w) && MayMove(w, m)
    ensures TInv(Moved(env, w, m))
  {
    hide WInv, TInv, Advanced, Started;
    match m {
      case Begin(h, o, op, ack) => BeginKeepsTInv(env, w, h, o, op, ack);
      case BeginCreated(h, p) => BeginCreatedKeepsTInv(env, w, h, p);
      case BeginWilling(h, d, since) => BeginListingKeepsTInv(env, w, h, w.pool.OnWilling(d, since));
      case BeginRetry(h) =>
        BeginListingKeepsTInv(env, w, h, w.pool);
        assert w.(pool := w.pool) == w;
      case GoUnwilling(d) => PoolKeepsTInv(w, w.pool.OnUnwilling(d));
      case Advance(h, id, now, expiresAt) =>
        match w.flights[h] {
          case SavingOffer(_, _, _) => SavingOfferKeepsTInv(env, w, h, id, now, expiresAt);
          case Scheduling(_, _, _) => SchedulingKeepsTInv(env, w, h, id, now, expiresAt);
          case SavingRelease(_, _, _) => SavingReleaseKeepsTInv(env, w, h, id, now, expiresAt);
          case SavingAnswer(_) => SavingKeepsTInv(env, w, h, id, now, expiresAt);
          case SavingFailed(_) => SavingKeepsTInv(env, w, h, id, now, expiresAt);
          case _ => ReadingKeepsTInv(env, w, h, id, now, expiresAt);
        }
    }
  }

  // ----- Runs -----

  ghost predicate MayRun(env: Env, w: World, ms: seq<Move>)
    decreases |ms|
  {
    ms == [] || (MayMove(w, ms[0]) && MayRun(env, Moved(env, w, ms[0]), ms[1..]))
  }

  ghost function WorldAfter(env: Env, w: World, ms: seq<Move>): World
    requires MayRun(env, w, ms)
    decreases |ms|
  {
    if ms == [] then w else WorldAfter(env, Moved(env, w, ms[0]), ms[1..])
  }

  /** The assignment a move writes to the repository, if it writes one. */
  function Writes(w: World, m: Move): Option<AssignmentProps>
    requires m.Advance? ==> m.h in w.flights
  {
    match m
    case BeginCreated(_, p) => Some(p)
    case Advance(h, _, _, _) =>
      var f := w.flights[h];
      if f.SavingOffer? || f.SavingAnswer? || f.SavingRelease? || f.SavingFailed? then Some(f.q) else None
    case _ => None
  }

  lemma MovedWrites(env: Env, w: World, m: Move)
    requires m.Advance? ==> m.h in w.flights
    ensures Moved(env, w, m).orders
         == match Writes(w, m) case None => w.orders case Some(q) => w.orders[q.orderId := q]
  {
    hide Advanced, Started, Acknowledging, Pool.OnWilling, Pool.OnUnwilling;
    match m {
      case Begin(h, o, op, _) => StartedWritesNothing(w, h, o, op);
      case Advance(h, id, now, expiresAt) => AdvancedWrites(env, w, h, id, now, expiresAt);
      case _ =>
    }
  }

  lemma StartedWritesNothing(w: World, h: HandlerId, o: OrderId, op: Operation)
    ensures Started(w, h, o, op).orders == w.orders
    ensures forall w1, t :: Acknowledging(w1, h, t).orders == w1.orders
  {
    hide AssignmentProps.After, AssignmentProps.Allows, AssignmentProps.Holder;
  }

  lemma AdvancedWrites(env: Env, w: World, h: HandlerId, id: AttemptId, now: Time, expiresAt: Time)
    requires h in w.flights
    ensures var f := w.flights[h];
      Advanced(env, w, h, id, now, expiresAt).orders
        == if f.SavingOffer? || f.SavingAnswer? || f.SavingRelease? || f.SavingFailed? then w.orders[f.q.orderId := f.q]
           else w.orders
  {
    hide AssignmentProps.After, AssignmentProps.Allows, Pool.Claim, Pool.FreeDriver, AwaitingOldestFirst, Parked;
  }

  /** No call of any handler lowers an offer count or opens a closed attempt again. */
  lemma MovedSettles(env: Env, w: World, m: Move)
    requires TInv(w) && MayMove(w, m)
    ensures Settles(w.orders, Moved(env, w, m).orders)
  {
    hide Covered, Moved, Answers;
    MovedWrites(env, w, m);
    if m.Advance? {
      assert Counted(w.orders, w.flights[m.h]);
    }
  }

  lemma {:induction false} RunKeepsWInv(env: Env, w: World, ms: seq<Move>)
    requires WInv(env, w) && TInv(w) && MayRun(env, w, ms)
    ensures WInv(env, WorldAfter(env, w, ms)) && TInv(WorldAfter(env, w, ms))
    ensures Settles(w.orders, WorldAfter(env, w, ms).orders)
    decreases |ms|
  {
    hide WInv, TInv, Moved;
    if ms != [] {
      MovedKeepsInv(env, w, ms[0]);
      MovedKeepsTInv(env, w, ms[0]);
      MovedSettles(env, w, ms[0]);
      RunKeepsWInv(env, Moved(env, w, ms[0]), ms[1..]);
    }
  }

  /**
    Under any interleaving every busy driver has exactly one owner: a stored offered or assigned
    order, a handler between its claim and its save, or a handler between its save and its free. So
    no driver is ever on two live orders, and nobody is queued while owned.
   */
  lemma InterleavedOwnership(env: Env, ms: seq<Move>)
    requires MayRun(env, QUIET, ms)
    ensures var w := WorldAfter(env, QUIET, ms);
      && Owned(w)
      && (forall o, o', d :: Holds(w.orders, o, d) && Holds(w.orders, o', d) ==> o == o')
      && (forall x, d :: Owns(w, x, d) ==> d !in w.pool.available)
  {
    hide MayRun, WorldAfter;
    RunKeepsWInv(env, QUIET, ms);
    var w := WorldAfter(env, QUIET, ms);
    forall o, o', d | Holds(w.orders, o, d) && Holds(w.orders, o', d) ensures o == o' {
      assert Owns(w, ByOrder(o), d) && Owns(w, ByOrder(o'), d);
    }
  }

  /** When no handler is in flight the sequential law is back: busy drivers and live orders, one to one. */
  lemma QuiescentIsExclusive(env: Env, ms: seq<Move>)
    requires MayRun(env, QUIET, ms) && WorldAfter(env, QUIET, ms).flights == map[]
    ensures Exclusive(WorldAfter(env, QUIET, ms).orders, WorldAfter(env, QUIET, ms).pool.busy)
  {
    hide MayRun, WorldAfter;
    InterleavedOwnership(env, ms);
    var w := WorldAfter(env, QUIET, ms);
    forall d ensures d in w.pool.busy <==> exists o :: Holds(w.orders, o, d) {
      if d in w.pool.busy {
        var x :| Owns(w, x, d);
        assert Holds(w.orders, x.o, d);
      }
      if o :| Holds(w.orders, o, d) {
        assert Owns(w, ByOrder(o), d);
      }
    }
  }

  /**
    Interleaving does not weaken the failure rule: exactly maxAttempts distinct drivers declined. A
    parked order has a try left, or a handler on its way to fail it.
   */
  lemma InterleavedFailure(env: Env, ms: seq<Move>, o: OrderId)
    requires MayRun(env, QUIET, ms) && o in WorldAfter(env, QUIET, ms).orders
    ensures var w := WorldAfter(env, QUIET, ms); var p := w.orders[o];
      && Sound(p) && p.offerAttempts <= env.maxAttempts
      && (p.status == AwaitingDriver ==>
            p.offerAttempts < env.maxAttempts || exists h :: h in w.flights && WillSettle(w.flights[h], o))
      && (p.status == Failed ==>
            && |p.attempts| == env.maxAttempts && AllDeclined(p.attempts)
            && |DriversOffered(p.attempts)| == env.maxAttempts)
  {
    hide MayRun, WorldAfter;
    RunKeepsWInv(env, QUIET, ms);
    var p := WorldAfter(env, QUIET, ms).orders[o];
    assert OrderSound(env.maxAttempts, WorldAfter(env, QUIET, ms), o);
    if p.status == Failed {
      FailureNeedsExhaustion(env.maxAttempts, p);
    }
  }

  /**
    Under any interleaving each open offer has its expiry message in the queue, or a handler that has
    stored it and makes the schedule call next; with nobody in flight the message is there.
   */
  lemma InterleavedTimers(env: Env, ms: seq<Move>, o: OrderId, n: nat)
    requires MayRun(env, QUIET, ms) && Open(WorldAfter(env, QUIET, ms).orders, o, n)
    ensures var w := WorldAfter(env, QUIET, ms);
      Timer(o, n) in w.timers || exists h, rest :: h in w.flights && w.flights[h] == Scheduling(o, n, rest)
  {
    hide MayRun, WorldAfter;
    RunKeepsWInv(env, QUIET, ms);
    var w := WorldAfter(env, QUIET, ms);
    if Timer(o, n) !in w.timers {
      var h :| Schedules(w, h, o);
      assert InHand(env.maxAttempts, w.orders, w.flights[h]);
      assert w.flights[h] == Scheduling(o, n, w.flights[h].rest);
    }
  }

  /** Under any interleaving an attempt once closed stays closed, whatever messages come for it. */
  lemma InterleavedAnswerIsFinal(env: Env, ms: seq<Move>, ns: seq<Move>, o: OrderId, n: nat)
    requires MayRun(env, QUIET, ms) && MayRun(env, WorldAfter(env, QUIET, ms), ns)
    requires var m := WorldAfter(env, QUIET, ms).orders; o in m && n <= m[o].offerAttempts && !Open(m, o, n)
    ensures !Open(WorldAfter(env, WorldAfter(env, QUIET, ms), ns).orders, o, n)
  {
    hide MayRun, WorldAfter, WInv, TInv;
    QuietIsFine(env);
    RunKeepsWInv(env, QUIET, ms);
    RunKeepsWInv(env, WorldAfter(env, QUIET, ms), ns);
  }

  lemma QuietIsFine(env: Env)
    ensures WInv(env, QUIET) && TInv(QUIET)
  {
  }
}
