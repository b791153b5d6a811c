/** A use case that nobody interrupts does, call by call, what its function says in one step. */
module SoloRuns {
  import opened Wrappers
  import opened Domain
  import opened ValueObjects
  import opened AssignmentModel
  import opened PoolModel
  import opened RepositoryModel
  import opened DispatchModel
  import opened Invariants
  import opened Paths
  import opened Interleaving
  import Scenarios

  /** The part of a state that handlers interleave on, with nobody in flight. */
  function WorldOf(s: State): World {
    World(s.orders, s.pool, s.timers, map[], map[])
  }

  /** One handler in flight, with or without a message to acknowledge. */
  function With(s: State, h: HandlerId, f: Flight, ack: Option<Timer>): World {
    World(s.orders, s.pool, s.timers, map[h := f], match ack case None => map[] case Some(t) => map[h := t])
  }

  /** That handler is done. */
  function Done(s: State, ack: Option<Timer>): World {
    WorldOf(match ack case None => s case Some(t) => s.(timers := s.timers - multiset{t}))
  }

  ghost predicate Steps(env: Env, w: World, ms: seq<Move>, w': World) {
    MayRun(env, w, ms) && WorldAfter(env, w, ms) == w'
  }

  ghost predicate Reaches(env: Env, w: World, w': World) {
    exists ms :: Steps(env, w, ms, w')
  }

  lemma ReachesHere(env: Env, w: World)
    ensures Reaches(env, w, w)
  {
    assert Steps(env, w, [], w);
  }

  lemma ReachesOne(env: Env, w: World, m: Move)
    requires MayMove(w, m)
    ensures Reaches(env, w, Moved(env, w, m))
  {
    hide Moved;
    assert [m][1..] == [];
    assert MayRun(env, Moved(env, w, m), []) && WorldAfter(env, Moved(env, w, m), []) == Moved(env, w, m);
    assert Steps(env, w, [m], Moved(env, w, m));
  }

  lemma {:induction false} StepsOn(env: Env, w: World, ms: seq<Move>, ns: seq<Move>)
    requires MayRun(env, w, ms) && MayRun(env, WorldAfter(env, w, ms), ns)
    ensures MayRun(env, w, ms + ns) && WorldAfter(env, w, ms + ns) == WorldAfter(env, WorldAfter(env, w, ms), ns)
    decreases |ms|
  {
    hide Moved;
    if ms == [] {
      assert ms + ns == ns;
    } else {
      assert (ms + ns)[1..] == ms[1..] + ns;
      StepsOn(env, Moved(env, w, ms[0]), ms[1..], ns);
    }
  }

  lemma ReachesOn(env: Env, w: World, v: World, u: World)
    requires Reaches(env, w, v) && Reaches(env, v, u)
    ensures Reaches(env, w, u)
  {
    hide MayRun, WorldAfter;
    var ms :| Steps(env, w, ms, v);
    var ns :| Steps(env, v, ns, u);
    StepsOn(env, w, ms, ns);
    assert Steps(env, w, ms + ns, u);
  }

  /** One more call of the only handler in flight. */
  lemma Call(env: Env, s: State, h: HandlerId, ack: Option<Timer>, f: Flight, id: AttemptId, now: Time, expiresAt: Time)
    ensures Reaches(env, With(s, h, f, ack), Advanced(env, With(s, h, f, ack), h, id, now, expiresAt))
  {
    hide Advanced;
    var w := With(s, h, f, ack);
    assert MayMove(w, Advance(h, id, now, expiresAt));
    ReachesOne(env, w, Advance(h, id, now, expiresAt));
  }

  lemma FlyWith(s: State, h: HandlerId, f: Flight, ack: Option<Timer>, f': Flight)
    ensures Fly(With(s, h, f, ack), h, f') == With(s, h, f', ack)
  {
  }

  lemma LandWith(s: State, h: HandlerId, f: Flight, ack: Option<Timer>)
    ensures Land(With(s, h, f, ack), h) == Done(s, ack)
  {
  }

  lemma ReadSolo(env: Env, s: State, h: HandlerId, ack: Option<Timer>, o: OrderId, rest: seq<OrderId>)
    ensures Reaches(env, With(s, h, ReadForAttempt(o, rest), ack),
                    With(s, h, if s.IsParked(o) then Claiming(s.orders[o], rest) else Passing(rest), ack))
  {
    hide Reaches;
    Call(env, s, h, ack, ReadForAttempt(o, rest), 0, 0, 0);
    assert Advanced(env, With(s, h, ReadForAttempt(o, rest), ack), h, 0, 0, 0)
        == With(s, h, if s.IsParked(o) then Claiming(s.orders[o], rest) else Passing(rest), ack);
  }

  lemma NoClaimSolo(env: Env, s: State, h: HandlerId, ack: Option<Timer>, p: AssignmentProps, rest: seq<OrderId>)
    requires s.pool.Claim(p.TriedDriverIds()) == None
    ensures Reaches(env, With(s, h, Claiming(p, rest), ack), With(s, h, Passing(rest), ack))
  {
    hide Reaches, Pool.Claim;
    Call(env, s, h, ack, Claiming(p, rest), 0, 0, 0);
    assert Advanced(env, With(s, h, Claiming(p, rest), ack), h, 0, 0, 0) == With(s, h, Passing(rest), ack);
  }

  lemma ClaimSolo(
    env: Env, s: State, h: HandlerId, ack: Option<Timer>, p: AssignmentProps, rest: seq<OrderId>, d: DriverId)
    requires p.status == AwaitingDriver && s.pool.Claim(p.TriedDriverIds()) == Some(d)
    ensures Reaches(env, With(s, h, Claiming(p, rest), ack),
                    With(s.(pool := s.pool.Take(d)), h, SavingOffer(p.After(AttemptedOffer(env, s, d)), d, rest), ack))
  {
    hide Reaches, Pool.Claim, AssignmentProps.After;
    var op := AttemptedOffer(env, s, d);
    Call(env, s, h, ack, Claiming(p, rest), op.id, op.now, op.expiresAt);
    assert Advanced(env, With(s, h, Claiming(p, rest), ack), h, op.id, op.now, op.expiresAt)
        == With(s.(pool := s.pool.Take(d)), h, SavingOffer(p.After(op), d, rest), ack);
  }

  /** From the claim on: save the offer, then schedule its expiry. */
  lemma OfferSolo(env: Env, s: State, h: HandlerId, ack: Option<Timer>, o: OrderId, rest: seq<OrderId>, d: DriverId)
    requires s.IsParked(o) && s.orders[o].orderId == o
    ensures var q := s.orders[o].After(AttemptedOffer(env, s, d));
      Reaches(env, With(s, h, SavingOffer(q, d, rest), ack), With(MakeOffer(env, s, o, d), h, Passing(rest), ack))
  {
    hide Reaches, AssignmentProps.After;
    var p, op := s.orders[o], AttemptedOffer(env, s, d);
    var q := p.After(op);
    StepKeepsIdentity(p, op);
    OffersAfter(p, op);
    var saved, t := s.Put(o, q), MakeOffer(env, s, o, d);
    var w2 := With(s, h, SavingOffer(q, d, rest), ack);
    var w3 := With(saved, h, Scheduling(o, q.offerAttempts, rest), ack);
    Call(env, s, h, ack, SavingOffer(q, d, rest), 0, 0, 0);
    FlyWith(saved, h, SavingOffer(q, d, rest), ack, Scheduling(o, q.offerAttempts, rest));
    assert w3 == Advanced(env, w2, h, 0, 0, 0);
    Call(env, saved, h, ack, Scheduling(o, q.offerAttempts, rest), 0, 0, 0);
    FlyWith(t, h, Scheduling(o, q.offerAttempts, rest), ack, Passing(rest));
    assert With(t, h, Passing(rest), ack) == Advanced(env, w3, h, 0, 0, 0);
    hide Advanced;
    ReachesOn(env, w2, w3, With(t, h, Passing(rest), ack));
  }

  lemma AttemptSolo(env: Env, s: State, h: HandlerId, ack: Option<Timer>, o: OrderId, rest: seq<OrderId>)
    requires o in s.orders ==> s.orders[o].orderId == o
    ensures Reaches(env, With(s, h, ReadForAttempt(o, rest), ack), With(Attempt(env, s, o), h, Passing(rest), ack))
  {
    hide Reaches, With, MakeOffer, Pool.Claim, AssignmentProps.After;
    ReadSolo(env, s, h, ack, o, rest);
    if s.IsParked(o) {
      var w0, w1 := With(s, h, ReadForAttempt(o, rest), ack), With(s, h, Claiming(s.orders[o], rest), ack);
      match s.pool.Claim(s.orders[o].TriedDriverIds()) {
        case None =>
          NoClaimSolo(env, s, h, ack, s.orders[o], rest);
          ReachesOn(env, w0, w1, With(s, h, Passing(rest), ack));
        case Some(d) =>
          var t := s.(pool := s.pool.Take(d));
          var w2 := With(t, h, SavingOffer(s.orders[o].After(AttemptedOffer(env, s, d)), d, rest), ack);
          ClaimSolo(env, s, h, ack, s.orders[o], rest, d);
          OfferSolo(env, t, h, ack, o, rest, d);
          ReachesOn(env, w0, w1, w2);
          ReachesOn(env, w0, w2, With(Attempt(env, s, o), h, Passing(rest), ack));
      }
    }
  }

  lemma PassOnSolo(env: Env, s: State, h: HandlerId, ack: Option<Timer>, list: seq<OrderId>)
    ensures Reaches(env, With(s, h, Passing(list), ack),
                    if list == [] then Done(s, ack) else With(s, h, ReadForAttempt(list[0], list[1..]), ack))
  {
    hide Reaches;
    Call(env, s, h, ack, Passing(list), 0, 0, 0);
    LandWith(s, h, Passing(list), ack);
    if list != [] {
      FlyWith(s, h, Passing(list), ack, ReadForAttempt(list[0], list[1..]));
    }
    assert Advanced(env, With(s, h, Passing(list), ack), h, 0, 0, 0)
        == if list == [] then Done(s, ack) else With(s, h, ReadForAttempt(list[0], list[1..]), ack) by {
      hide Fly, Land, Done;
    }
  }

  lemma {:induction false} PassSolo(env: Env, s: State, h: HandlerId, ack: Option<Timer>, list: seq<OrderId>)
    requires Inv(env, s)
    ensures Reaches(env, With(s, h, Passing(list), ack), Done(RetryEach(env, s, list), ack))
    decreases |list|
  {
    hide Reaches, Inv, Attempt, Leads, With, Done;
    PassOnSolo(env, s, h, ack, list);
    if list != [] {
      var t := Attempt(env, s, list[0]);
      if list[0] in s.orders {
        OrderIsProper(env, s, list[0]);
      }
      AttemptSolo(env, s, h, ack, list[0], list[1..]);
      AttemptLeads(env, false, s, list[0]);
      LeadsKeepsInv(env, false, s, t);
      PassSolo(env, t, h, ack, list[1..]);
      var w0, w1 := With(s, h, Passing(list), ack), With(s, h, ReadForAttempt(list[0], list[1..]), ack);
      ReachesOn(env, w0, w1, With(t, h, Passing(list[1..]), ack));
      ReachesOn(env, w0, With(t, h, Passing(list[1..]), ack), Done(RetryEach(env, s, list), ack));
    }
  }

  lemma ListSolo(env: Env, s: State, h: HandlerId, ack: Option<Timer>)
    requires Inv(env, s)
    ensures Reaches(env, With(s, h, Listing, ack), Done(RetryParked(env, s), ack))
  {
    hide Reaches, Inv, RetryEach;
    Call(env, s, h, ack, Listing, 0, 0, 0);
    PassSolo(env, s, h, ack, RetryList(s));
    assert Advanced(env, With(s, h, Listing, ack), h, 0, 0, 0) == With(s, h, Passing(RetryList(s)), ack);
    ReachesOn(env, With(s, h, Listing, ack), With(s, h, Passing(RetryList(s)), ack), Done(RetryParked(env, s), ack));
  }

  lemma AttemptAloneSolo(env: Env, s: State, h: HandlerId, ack: Option<Timer>, o: OrderId)
    requires o in s.orders ==> s.orders[o].orderId == o
    ensures Reaches(env, With(s, h, ReadForAttempt(o, []), ack), Done(Attempt(env, s, o), ack))
  {
    hide Reaches, Attempt, With, Done;
    var t := Attempt(env, s, o);
    AttemptSolo(env, s, h, ack, o, []);
    PassOnSolo(env, t, h, ack, []);
    ReachesOn(env, With(s, h, ReadForAttempt(o, []), ack), With(t, h, Passing([]), ack), Done(t, ack));
  }

  lemma ReadForFailSolo(env: Env, s: State, h: HandlerId, ack: Option<Timer>, o: OrderId)
    ensures Reaches(env, With(s, h, ReadForFail(o), ack),
                    if !s.IsParked(o) then Done(s, ack)
                    else if s.orders[o].offerAttempts < env.maxAttempts then With(s, h, ReadForAttempt(o, []), ack)
                    else With(s, h, SavingFailed(s.orders[o].After(Fail(s.Now(env)))), ack))
  {
    hide Reaches, AssignmentProps.After;
    Call(env, s, h, ack, ReadForFail(o), 0, s.Now(env), 0);
    LandWith(s, h, ReadForFail(o), ack);
    FlyWith(s, h, ReadForFail(o), ack, ReadForAttempt(o, []));
    if s.IsParked(o) {
      FlyWith(s, h, ReadForFail(o), ack, SavingFailed(s.orders[o].After(Fail(s.Now(env)))));
    }
    hide Fly, Land, With;
  }

  lemma SaveFailedSolo(env: Env, s: State, h: HandlerId, ack: Option<Timer>, q: AssignmentProps)
    ensures Reaches(env, With(s, h, SavingFailed(q), ack), Done(s.Put(q.orderId, q), ack))
  {
    hide Reaches;
    Call(env, s, h, ack, SavingFailed(q), 0, 0, 0);
    assert Advanced(env, With(s, h, SavingFailed(q), ack), h, 0, 0, 0) == Done(s.Put(q.orderId, q), ack);
  }

  lemma FailOrRetrySolo(env: Env, s: State, h: HandlerId, ack: Option<Timer>, o: OrderId)
    requires o in s.orders ==> s.orders[o].orderId == o
    ensures Reaches(env, With(s, h, ReadForFail(o), ack), Done(FailOrRetry(env, s, o), ack))
  {
    hide Reaches, Attempt, With, AssignmentProps.After;
    var w0, t := With(s, h, ReadForFail(o), ack), FailOrRetry(env, s, o);
    ReadForFailSolo(env, s, h, ack, o);
    if s.IsParked(o) {
      if s.orders[o].offerAttempts >= env.maxAttempts {
        var q := s.orders[o].After(Fail(s.Now(env)));
        StepKeepsIdentity(s.orders[o], Fail(s.Now(env)));
        SaveFailedSolo(env, s, h, ack, q);
        ReachesOn(env, w0, With(s, h, SavingFailed(q), ack), Done(t, ack));
      } else {
        AttemptAloneSolo(env, s, h, ack, o);
        ReachesOn(env, w0, With(s, h, ReadForAttempt(o, []), ack), Done(t, ack));
      }
    }
  }

  /** Save, free the held driver, and stand at the next call. */
  lemma ReleaseSolo(env: Env, s: State, h: HandlerId, ack: Option<Timer>, q: AssignmentProps, d: DriverId, again: bool)
    ensures var t := s.Put(q.orderId, q).Freed(env, d);
      Reaches(env, With(s, h, SavingRelease(q, Some(d), again), ack), With(t, h, Resume(q.orderId, again), ack))
  {
    hide Reaches;
    var saved := s.Put(q.orderId, q);
    var t := saved.Freed(env, d);
    var w0 := With(s, h, SavingRelease(q, Some(d), again), ack);
    var w1 := With(saved, h, Freeing(q.orderId, d, again), ack);
    Call(env, s, h, ack, SavingRelease(q, Some(d), again), 0, 0, 0);
    assert Advanced(env, w0, h, 0, 0, 0) == w1;
    Call(env, saved, h, ack, Freeing(q.orderId, d, again), 0, s.Now(env), 0);
    assert Advanced(env, w1, h, 0, s.Now(env), 0) == With(t, h, Resume(q.orderId, again), ack);
    ReachesOn(env, w0, w1, With(t, h, Resume(q.orderId, again), ack));
  }

  lemma BeginSolo(env: Env, s: State, h: HandlerId, o: OrderId, op: Operation, ack: bool)
    requires IsRequest(op)
    ensures Reaches(env, WorldOf(s), Moved(env, WorldOf(s), Begin(h, o, op, ack)))
  {
    hide Moved;
    assert MayMove(WorldOf(s), Begin(h, o, op, ack));
    ReachesOne(env, WorldOf(s), Begin(h, o, op, ack));
  }

  /** The message a request is answered with, if it was one and is to be acknowledged. */
  function AckOf(o: OrderId, op: Operation, ack: bool): Option<Timer> {
    if op.Expire? && ack then Some(Timer(o, op.attemptNo)) else None
  }

  lemma DeclineSolo(env: Env, s: State, h: HandlerId, o: OrderId, op: Operation, ack: bool)
    requires Inv(env, s) && o in s.orders && s.orders[o].Allows(op) && (op.Reject? || op.Expire?)
    ensures Reaches(env, WorldOf(s), Done(Decline(env, s, o, op), AckOf(o, op, ack)))
  {
    hide Reaches, Inv, FailOrRetry, Moved;
    OrderIsProper(env, s, o);
    var p, q, a := s.orders[o], s.orders[o].After(op), AckOf(o, op, ack);
    StepKeepsIdentity(p, op);
    var d := p.attempts[|p.attempts| - 1].driverId;
    var t := Declined(env, s, o, op);
    StartsRelease(env, s, h, o, op, ack);
    BeginSolo(env, s, h, o, op, ack);
    ReleaseSolo(env, s.Ticked(), h, a, q, d, true);
    FailOrRetrySolo(env, t, h, a, o);
    var w1 := With(s, h, SavingRelease(q, Some(d), true), a);
    assert w1 == With(s.Ticked(), h, SavingRelease(q, Some(d), true), a);
    ReachesOn(env, WorldOf(s), w1, With(t, h, ReadForFail(o), a));
    ReachesOn(env, WorldOf(s), With(t, h, ReadForFail(o), a), Done(FailOrRetry(env, t, o), a));
  }

  lemma StartsRelease(env: Env, s: State, h: HandlerId, o: OrderId, op: Operation, ack: bool)
    requires o in s.orders && s.orders[o].Allows(op) && IsRequest(op) && !op.Accept?
    ensures Moved(env, WorldOf(s), Begin(h, o, op, ack))
         == With(s, h, SavingRelease(s.orders[o].After(op), s.orders[o].Holder(), op.Reject? || op.Expire?),
                 AckOf(o, op, ack))
  {
    hide AssignmentProps.After, AssignmentProps.Holder, AssignmentProps.Allows;
  }

  /** Complete and cancel: step the order, free whoever it held, then the retry pass. */
  lemma EndSolo(env: Env, s: State, h: HandlerId, o: OrderId, op: Operation, s1: State)
    requires Inv(env, s) && o in s.orders && s.orders[o].Allows(op) && (op.Complete? || op.Cancel?)
    requires s1.orders == s.orders[o := s.orders[o].After(op)] && s1.pool == s.pool && s1.timers == s.timers
    requires Inv(env, match s.orders[o].Holder() case None => s1 case Some(d) => s1.Freed(env, d))
    ensures var t := match s.orders[o].Holder() case None => s1 case Some(d) => s1.Freed(env, d);
      Reaches(env, WorldOf(s), WorldOf(RetryParked(env, t)))
  {
    hide Reaches, Inv, RetryParked, Moved;
    OrderIsProper(env, s, o);
    var p, q := s.orders[o], s.orders[o].After(op);
    StepKeepsIdentity(p, op);
    StartsRelease(env, s, h, o, op, false);
    BeginSolo(env, s, h, o, op, false);
    var w1 := With(s, h, SavingRelease(q, p.Holder(), false), None);
    match p.Holder() {
      case Some(d) =>
        var before := s1.(orders := s.orders);
        ReleaseSolo(env, before, h, None, q, d, false);
        assert w1 == With(before, h, SavingRelease(q, Some(d), false), None);
        assert before.Put(q.orderId, q).Freed(env, d) == s1.Freed(env, d);
        ReachesOn(env, WorldOf(s), w1, With(s1.Freed(env, d), h, Listing, None));
        ListSolo(env, s1.Freed(env, d), h, None);
        ReachesOn(env, WorldOf(s), With(s1.Freed(env, d), h, Listing, None),
                  WorldOf(RetryParked(env, s1.Freed(env, d))));
      case None =>
        Call(env, s, h, None, SavingRelease(q, None, false), 0, 0, 0);
        assert Advanced(env, w1, h, 0, 0, 0) == With(s1, h, Listing, None);
        ReachesOn(env, WorldOf(s), w1, With(s1, h, Listing, None));
        ListSolo(env, s1, h, None);
        ReachesOn(env, WorldOf(s), With(s1, h, Listing, None), WorldOf(RetryParked(env, s1)));
    }
  }

  lemma CreatedSolo(env: Env, s: State, h: HandlerId, e: EventId, msg: OrderCreatedMessage)
    requires Inv(env, s) && (e !in s.processed ==> msg.orderId !in s.orders)
    ensures Reaches(env, WorldOf(s), WorldOf(HandleOrderCreated(env, s, e, msg).state))
  {
    hide Reaches, Attempt, Build;
    ReachesHere(env, WorldOf(s));
    if e !in s.processed && Build(msg, s.Now(env)).Success? {
      var p := Build(msg, s.Now(env)).value;
      BuiltIsNew(msg, s.Now(env));
      var s2 := Announced(s, e, msg.orderId, p);
      ReachesOne(env, WorldOf(s), BeginCreated(h, p));
      assert Moved(env, WorldOf(s), BeginCreated(h, p)) == With(s2, h, ReadForAttempt(msg.orderId, []), None);
      AttemptAloneSolo(env, s2, h, None, msg.orderId);
      ReachesOn(env, WorldOf(s), With(s2, h, ReadForAttempt(msg.orderId, []), None),
                WorldOf(Attempt(env, s2, msg.orderId)));
    }
  }

  lemma AvailabilitySolo(
    env: Env, s: State, h: HandlerId, e: EventId, d: DriverId, isAvailable: bool, changedAt: Time)
    requires Inv(env, s)
    ensures Reaches(env, WorldOf(s), WorldOf(UpdateAvailability(env, s, e, d, isAvailable, changedAt)))
  {
    hide Reaches, RetryParked, Inv;
    ReachesHere(env, WorldOf(s));
    var s1 := s.(processed := s.processed + {e});
    if e !in s.processed {
      if isAvailable {
        var s2 := s1.(pool := s1.pool.OnWilling(d, changedAt));
        ReachesOne(env, WorldOf(s), BeginWilling(h, d, changedAt));
        LeadsOne(env, false, s, Willing(d, changedAt), s2);
        LeadsKeepsInv(env, false, s, s2);
        ListSolo(env, s2, h, None);
        ReachesOn(env, WorldOf(s), With(s2, h, Listing, None), WorldOf(RetryParked(env, s2)));
      } else {
        ReachesOne(env, WorldOf(s), GoUnwilling(d));
      }
    }
  }

  lemma CompleteSolo(env: Env, s: State, h: HandlerId, e: EventId, o: OrderId)
    requires Inv(env, s)
    ensures Reaches(env, WorldOf(s), WorldOf(CompleteDelivery(env, s, e, o)))
  {
    hide Reaches, RetryParked, Leads;
    ReachesHere(env, WorldOf(s));
    var (s1, freed) := CompleteInTransaction(env, s, e, o);
    var op := Complete(s.Now(env));
    if e !in s.processed && o in s.orders && s.orders[o].Allows(op) {
      assert s.orders[o].Holder() == freed && freed.Some?;
      LeadsOne(env, false, s, Operated(o, op, s1.Now(env)), s1.Freed(env, freed.value));
      LeadsKeepsInv(env, false, s, s1.Freed(env, freed.value));
      EndSolo(env, s, h, o, op, s1);
    }
  }

  lemma CancelSolo(env: Env, s: State, h: HandlerId, e: EventId, o: OrderId)
    requires Inv(env, s)
    ensures Reaches(env, WorldOf(s), WorldOf(CancelOrder(env, s, e, o)))
  {
    hide Reaches, RetryParked, Leads, Inv;
    var (s1, freed) := CancelInTransaction(env, s, e, o);
    var op := Operation.Cancel(s.Now(env));
    var t := match freed case None => s1 case Some(d) => s1.Freed(env, d);
    if e !in s.processed && o in s.orders && s.orders[o].Allows(op) {
      LeadsOne(env, false, s, Operated(o, op, s1.Now(env)), t);
      LeadsKeepsInv(env, false, s, t);
      EndSolo(env, s, h, o, op, s1);
    } else {
      LeadsOne(env, false, s, Idle(multiset{}), s1);
      LeadsKeepsInv(env, false, s, s1);
      ReachesOne(env, WorldOf(s), BeginRetry(h));
      ListSolo(env, s1, h, None);
      assert Moved(env, WorldOf(s), BeginRetry(h)) == With(s1, h, Listing, None);
      ReachesOn(env, WorldOf(s), With(s1, h, Listing, None), WorldOf(RetryParked(env, s1)));
    }
  }

  lemma AcceptSolo(env: Env, s: State, h: HandlerId, o: OrderId, d: DriverId)
    requires Inv(env, s)
    ensures Reaches(env, WorldOf(s), WorldOf(AcceptOffer(env, s, o, d).state))
  {
    hide Reaches, Inv, AssignmentProps.After;
    ReachesHere(env, WorldOf(s));
    var op := Operation.Accept(d, s.Now(env));
    if o in s.orders && s.orders[o].Allows(op) {
      OrderIsProper(env, s, o);
      StepKeepsIdentity(s.orders[o], op);
      var q := s.orders[o].After(op);
      BeginSolo(env, s, h, o, op, false);
      Call(env, s, h, None, SavingAnswer(q), 0, 0, 0);
      assert Advanced(env, With(s, h, SavingAnswer(q), None), h, 0, 0, 0) == WorldOf(AcceptOffer(env, s, o, d).state);
      ReachesOn(env, WorldOf(s), With(s, h, SavingAnswer(q), None), WorldOf(AcceptOffer(env, s, o, d).state));
    }
  }

  lemma ExpirySolo(env: Env, s: State, h: HandlerId, t: Timer, ack: bool)
    requires Inv(env, s)
    ensures Reaches(env, WorldOf(s), WorldOf(DeliverExpiry(env, s, t, ack)))
  {
    hide Reaches, Inv, Decline;
    ReachesHere(env, WorldOf(s));
    var op := Expire(t.attemptNo, s.Now(env));
    if t.orderId in s.orders && s.orders[t.orderId].Allows(op) {
      DeclineSolo(env, s, h, t.orderId, op, ack);
    } else {
      BeginSolo(env, s, h, t.orderId, op, ack);
    }
  }

  /** Every use case except force-assign is one of the interleavings, from any reachable state. */
  lemma AtomicIsAnInterleaving(env: Env, s: State, c: Command)
    requires Inv(env, s) && CreatedOnce(s, c) && !c.AdminForces?
    ensures Reaches(env, WorldOf(s), WorldOf(Next(env, s, c)))
  {
    hide Reaches, Inv, HandleOrderCreated, UpdateAvailability, CompleteDelivery, CancelOrder, Decline, AcceptOffer,
      DeliverExpiry;
    ReachesHere(env, WorldOf(s));
    match c {
      case OrderCreated(e, msg) => CreatedSolo(env, s, 0, e, msg);
      case AvailabilityChanged(e, d, isAvailable, changedAt) =>
        AvailabilitySolo(env, s, 0, e, d, isAvailable, changedAt);
      case DeliveryCompleted(e, o) => CompleteSolo(env, s, 0, e, o);
      case OrderCancelled(e, o) => CancelSolo(env, s, 0, e, o);
      case OfferExpired(t, ack) => ExpirySolo(env, s, 0, t, ack);
      case DriverAccepts(o, d) => AcceptSolo(env, s, 0, o, d);
      case DriverRejects(o, d) =>
        var op := Reject(d, s.Now(env));
        if o in s.orders && s.orders[o].Allows(op) {
          DeclineSolo(env, s, 0, o, op, false);
        }
    }
  }

  // ----- More than one -----

  /** Handlers 0 to `n - 1` are in flight, each on the order of its number, and nobody else is. */
  ghost predicate Crowd(w: World, n: nat) {
    && (forall h :: h in w.flights <==> 0 <= h < n)
    && (forall h :: 0 <= h < n ==> w.flights[h].Order() == Some(h))
    && (forall o :: o in w.orders ==> o < n)
  }

  /** Any number of handlers can be in flight at once. */
  lemma {:induction false} AnyNumberInFlight(env: Env, n: nat) returns (ms: seq<Move>)
    ensures MayRun(env, QUIET, ms) && Crowd(WorldAfter(env, QUIET, ms), n)
  {
    hide WorldAfter, MayRun, Crowd, Build;
    ms := [];
    if n == 0 {
      NoSteps(env);
    } else {
      ms := AnyNumberInFlight(env, n - 1);
      var w := WorldAfter(env, QUIET, ms);
      Scenarios.ParcelBuilds(n - 1, 0);
      var p := Build(Scenarios.Parcel(n - 1), 0).value;
      BuiltIsNew(Scenarios.Parcel(n - 1), 0);
      OneMoreInFlight(env, w, n - 1, p);
      var m := BeginCreated(n - 1, p);
      StepsOn(env, QUIET, ms, [m]);
      ms := ms + [m];
    }
  }

  lemma NoSteps(env: Env)
    ensures Steps(env, QUIET, [], QUIET) && Crowd(QUIET, 0)
  {
  }

  lemma OneMoreInFlight(env: Env, w: World, n: nat, p: AssignmentProps)
    requires Crowd(w, n) && IsNew(p) && p.orderId == n
    ensures MayRun(env, w, [BeginCreated(n, p)])
    ensures Crowd(WorldAfter(env, w, [BeginCreated(n, p)]), n + 1)
  {
    var m := BeginCreated(n, p);
    assert [m][1..] == [];
    assert WorldAfter(env, w, [m]) == Moved(env, w, m);
  }
}
