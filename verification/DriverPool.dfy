/** The three Redis structures behind driver selection, as a value. */
module PoolModel {
  import opened Wrappers
  import opened Domain
  import opened Ranking

  /** The first member of a listing that is not excluded. */
  function FirstOutside(members: seq<DriverId>, excluded: seq<DriverId>): Option<DriverId> {
    if members == [] then None
    else if members[0] !in excluded then Some(members[0])
    else FirstOutside(members[1..], excluded)
  }

  /** `available` is the sorted set: driver to score, listed by `Ranked`. */
  datatype Pool = Pool(willing: set<DriverId>, available: map<DriverId, int>, busy: set<DriverId>) {

    /** The queue holds exactly the drivers who want work and have none. */
    ghost predicate Valid() {
      available.Keys == willing - busy
    }

    function Claim(excluded: seq<DriverId>): Option<DriverId> {
      FirstOutside(Ranked(available), excluded)
    }

    function Take(d: DriverId): Pool {
      Pool(willing, available - {d}, busy + {d})
    }

    function ClaimNext(excluded: seq<DriverId>): Pool {
      match Claim(excluded)
      case None => this
      case Some(d) => Take(d)
    }

    function OnWilling(d: DriverId, since: Time): Pool {
      Pool(willing + {d}, if d in busy then available else available[d := since], busy)
    }

    function OnUnwilling(d: DriverId): Pool {
      Pool(willing - {d}, available - {d}, busy)
    }

    function FreeDriver(d: DriverId, now: Time): Pool {
      Pool(willing, if d in willing then available[d := now] else available, busy - {d})
    }

    function MarkBusy(d: DriverId): Pool {
      Take(d)
    }
  }

  const EMPTY_POOL := Pool({}, map[], {})

  lemma {:induction false} FirstOutsideAt(members: seq<DriverId>, excluded: seq<DriverId>) returns (i: nat)
    ensures i <= |members| && (forall j :: 0 <= j < i ==> members[j] in excluded)
    ensures i == |members| ==> FirstOutside(members, excluded) == None
    ensures i < |members| ==> members[i] !in excluded && FirstOutside(members, excluded) == Some(members[i])
  {
    if members == [] || members[0] !in excluded {
      return 0;
    }
    i := FirstOutsideAt(members[1..], excluded);
    i := i + 1;
    forall j | 0 <= j < i ensures members[j] in excluded {
      assert j > 0 ==> members[j] == members[1..][j - 1];
    }
  }

  /** `d` is eligible and waits longer than every other eligible driver. */
  ghost predicate WaitsLongest(p: Pool, excluded: seq<DriverId>, d: DriverId) {
    && d in p.available && d !in excluded
    && (forall e :: e in p.available && e !in excluded && e != d ==> Before(p.available, d, e))
  }

  /**
    FIFO: the scan returns the least (score, id) driver that is not excluded, and nothing exactly
    when every queued driver is excluded.
   */
  lemma ClaimIsFifo(p: Pool, excluded: seq<DriverId>)
    ensures p.Claim(excluded) == None <==> (forall e :: e in p.available ==> e in excluded)
    ensures forall d: DriverId :: p.Claim(excluded) == Some(d) <==> WaitsLongest(p, excluded, d)
  {
    var s := Ranked(p.available);
    var i := FirstOutsideAt(s, excluded);
    if i < |s| {
      assert s[i] in s;
      forall e | e in p.available && e !in excluded && e != s[i] ensures Before(p.available, s[i], e) {
        assert e in s;
        var k :| 0 <= k < |s| && s[k] == e;
        assert k > i;
      }
      assert WaitsLongest(p, excluded, s[i]);
    } else {
      forall e | e in p.available ensures e in excluded {
        assert e in s;
      }
    }
  }

  lemma ClaimedIsEligible(p: Pool, excluded: seq<DriverId>)
    ensures p.Claim(excluded).Some? ==>
              p.Claim(excluded).value in p.available && p.Claim(excluded).value !in excluded
  {
    hide Pool.Claim, Before;
    ClaimIsFifo(p, excluded);
    assert p.Claim(excluded).Some? ==> WaitsLongest(p, excluded, p.Claim(excluded).value);
  }

  /** A claim removes one driver from the queue listing and leaves the rest in order. */
  lemma ClaimKeepsOrder(p: Pool, excluded: seq<DriverId>) returns (i: nat)
    requires p.Claim(excluded).Some?
    ensures i < |Ranked(p.available)| && Ranked(p.available)[i] == p.Claim(excluded).value
    ensures Ranked(p.ClaimNext(excluded).available) == Ranked(p.available)[..i] + Ranked(p.available)[i + 1..]
  {
    i := FirstOutsideAt(Ranked(p.available), excluded);
    RankedWithout(p.available, i);
  }

  /** A driver freed later than everybody queued joins the end of the queue; the others keep their places. */
  lemma FreedDriverGoesLast(p: Pool, d: DriverId, now: Time)
    requires p.Valid() && d in p.willing && d in p.busy
    requires forall e :: e in p.available ==> p.available[e] < now
    ensures Ranked(p.FreeDriver(d, now).available) == Ranked(p.available) + [d]
  {
    var m, s := p.FreeDriver(d, now).available, Ranked(p.available);
    var t := s + [d];
    forall i | 0 <= i < |t| ensures t[i] in m {
      assert i < |s| ==> s[i] in p.available;
    }
    forall i, j | 0 <= i < j < |t| ensures Before(m, t[i], t[j]) {
      assert s[i] in p.available;
      assert j < |s| ==> Before(p.available, s[i], s[j]);
    }
    forall x ensures x in m <==> x in t {
      assert x in p.available <==> x in s;
    }
    RankedIsUnique(m, t);
  }

  // ----- Any interleaving of the six operations -----

  datatype PoolCall =
    | ClaimNextCall(excluded: seq<DriverId>)
    | OnWillingCall(d: DriverId, since: Time)
    | OnUnwillingCall(d: DriverId)
    | FreeDriverCall(d: DriverId, now: Time)
    | MarkBusyCall(d: DriverId)
    | ListAvailableCall

  function Answer(p: Pool, c: PoolCall): Option<DriverId> {
    if c.ClaimNextCall? then p.Claim(c.excluded) else None
  }

  function Perform(p: Pool, c: PoolCall): Pool {
    match c
    case ClaimNextCall(excluded) => p.ClaimNext(excluded)
    case OnWillingCall(d, since) => p.OnWilling(d, since)
    case OnUnwillingCall(d) => p.OnUnwilling(d)
    case FreeDriverCall(d, now) => p.FreeDriver(d, now)
    case MarkBusyCall(d) => p.MarkBusy(d)
    case ListAvailableCall => p
  }

  /** The pool after the first `n` calls. */
  function PoolAfter(p: Pool, calls: seq<PoolCall>, n: nat): Pool
    requires n <= |calls|
  {
    if n == 0 then p else Perform(PoolAfter(p, calls, n - 1), calls[n - 1])
  }

  lemma PerformKeepsValid(p: Pool, c: PoolCall)
    requires p.Valid()
    ensures Perform(p, c).Valid()
  {
    if c.ClaimNextCall? {
      ClaimedIsEligible(p, c.excluded);
    }
  }

  /** available = willing \ busy, always. */
  lemma {:induction false} PoolLaw(p: Pool, calls: seq<PoolCall>, n: nat)
    requires p.Valid() && n <= |calls|
    ensures PoolAfter(p, calls, n).Valid()
  {
    if n > 0 {
      PoolLaw(p, calls, n - 1);
      PerformKeepsValid(PoolAfter(p, calls, n - 1), calls[n - 1]);
    }
  }

  lemma WillingAfterCall(p: Pool, c: PoolCall, d: DriverId)
    ensures d in Perform(p, c).willing <==>
      (c.OnWillingCall? && c.d == d) || (d in p.willing && !(c.OnUnwillingCall? && c.d == d))
  {
  }

  /** A driver is willing if and only if the last call that said so either way said yes. */
  lemma {:induction false} WillingIsLastWord(p: Pool, calls: seq<PoolCall>, n: nat, d: DriverId)
    requires n <= |calls|
    ensures d in PoolAfter(p, calls, n).willing <==>
      || (exists i :: 0 <= i < n && calls[i].OnWillingCall? && calls[i].d == d
            && forall j :: i < j < n ==> !(calls[j].OnUnwillingCall? && calls[j].d == d))
      || (d in p.willing && forall j :: 0 <= j < n ==> !(calls[j].OnUnwillingCall? && calls[j].d == d))
  {
    if n > 0 {
      WillingIsLastWord(p, calls, n - 1, d);
      WillingAfterCall(PoolAfter(p, calls, n - 1), calls[n - 1], d);
      hide Perform;
    }
  }

  lemma OnlyFreeingFrees(p: Pool, c: PoolCall, d: DriverId)
    ensures Answer(p, c) == Some(d) ==> d in Perform(p, c).busy
    ensures d in p.busy && !(c.FreeDriverCall? && c.d == d) ==> d in Perform(p, c).busy
  {
  }

  /** A claimed driver stays busy up to the next time they are freed. */
  lemma {:induction false} StaysBusy(p: Pool, calls: seq<PoolCall>, d: DriverId, i: nat, j: nat)
    requires i < j <= |calls|
    requires Answer(PoolAfter(p, calls, i), calls[i]) == Some(d)
    requires forall k :: i < k < j ==> !(calls[k].FreeDriverCall? && calls[k].d == d)
    ensures d in PoolAfter(p, calls, j).busy
    decreases j
  {
    hide Answer, Perform;
    OnlyFreeingFrees(PoolAfter(p, calls, j - 1), calls[j - 1], d);
    if j > i + 1 {
      StaysBusy(p, calls, d, i, j - 1);
    }
  }

  /** Two claims never return the same driver unless the driver was freed in between. */
  lemma NoDoubleClaim(p: Pool, calls: seq<PoolCall>, d: DriverId, i: nat, j: nat)
    requires p.Valid() && i < j < |calls|
    requires Answer(PoolAfter(p, calls, i), calls[i]) == Some(d)
    requires Answer(PoolAfter(p, calls, j), calls[j]) == Some(d)
    ensures exists k :: i < k < j && calls[k].FreeDriverCall? && calls[k].d == d
  {
    if forall k :: i < k < j ==> !(calls[k].FreeDriverCall? && calls[k].d == d) {
      StaysBusy(p, calls, d, i, j);
      PoolLaw(p, calls, j);
      ClaimedIsEligible(PoolAfter(p, calls, j), calls[j].excluded);
      assert false;
    }
  }
}

/** The pool as an object: each method is one atomic Redis script or MULTI block. */
module DriverPool {
  import opened Wrappers
  import opened Domain
  import opened Ranking
  import opened PoolModel

  lemma RankedPairs(m: map<DriverId, Time>, flat: seq<DriverId>, out: seq<(DriverId, Time)>)
    requires flat == Ranked(m) && |out| == |flat|
    requires forall k :: 0 <= k < |out| ==> out[k] == (flat[k], m[flat[k]])
    ensures |out| == |m|
    ensures forall i, j :: 0 <= i < j < |out| ==> out[i].1 < out[j].1 || (out[i].1 == out[j].1 && out[i].0 < out[j].0)
    ensures forall d, t :: (d, t) in out <==> d in m && m[d] == t
  {
    RankedLength(m);
    assert forall i, j :: 0 <= i < j < |flat| ==> Before(m, flat[i], flat[j]);
    forall d | d in m ensures (d, m[d]) in out {
      var k :| 0 <= k < |flat| && flat[k] == d;
      assert out[k] == (d, m[d]);
    }
  }

  class RedisDriverPool {
    var willing: set<DriverId>
    var available: map<DriverId, int>
    var busy: set<DriverId>

    function Contents(): Pool
      reads this
    {
      Pool(willing, available, busy)
    }

    constructor ()
      ensures Contents() == EMPTY_POOL
    {
      willing, available, busy := {}, map[], {};
    }

    /** CLAIM_NEXT: walk the queue in order, take the first member that is not excluded. */
    method ClaimNext(excludedIds: seq<DriverId>) returns (claimed: Option<DriverId>)
      modifies this
      ensures willing == old(willing)
      ensures claimed == None ==> available == old(available) && busy == old(busy)
      ensures claimed.Some? ==>
        available == old(available) - {claimed.value} && busy == old(busy) + {claimed.value}
      ensures claimed == old(Contents()).Claim(excludedIds)
      ensures Contents() == old(Contents()).ClaimNext(excludedIds)
    {
      hide Ranks;
      var members := Ranked(available);
      var excluded := {};
      for i := 0 to |excludedIds|
        invariant forall d :: d in excluded <==> d in excludedIds[..i]
      {
        excluded := excluded + {excludedIds[i]};
      }
      assert excludedIds[..|excludedIds|] == excludedIds;
      for i := 0 to |members|
        invariant FirstOutside(members, excludedIds) == FirstOutside(members[i..], excludedIds)
        invariant Contents() == old(Contents())
      {
        var m := members[i];
        if m !in excluded {
          available := available - {m};
          busy := busy + {m};
          return Some(m);
        }
      }
      return None;
    }

    /** ON_WILLING: a driver who is busy becomes willing without entering the queue. */
    method OnWilling(d: DriverId, since: Time)
      modifies this
      ensures willing == old(willing) + {d} && busy == old(busy)
      ensures available == if d in old(busy) then old(available) else old(available)[d := since]
      ensures Contents() == old(Contents()).OnWilling(d, since)
    {
      willing := willing + {d};
      if d !in busy {
        available := available[d := since];
      }
    }

    method OnUnwilling(d: DriverId)
      modifies this
      ensures willing == old(willing) - {d} && busy == old(busy) && available == old(available) - {d}
      ensures Contents() == old(Contents()).OnUnwilling(d)
    {
      willing := willing - {d};
      available := available - {d};
    }

    /** FREE_DRIVER: back of the queue, but only for a driver who is still willing. */
    method FreeDriver(d: DriverId, now: Time)
      modifies this
      ensures willing == old(willing) && busy == old(busy) - {d}
      ensures available == if d in old(willing) then old(available)[d := now] else old(available)
      ensures Contents() == old(Contents()).FreeDriver(d, now)
    {
      busy := busy - {d};
      if d in willing {
        available := available[d := now];
      }
    }

    method MarkBusy(d: DriverId)
      modifies this
      ensures willing == old(willing) && busy == old(busy) + {d} && available == old(available) - {d}
      ensures Contents() == old(Contents()).MarkBusy(d)
    {
      available := available - {d};
      busy := busy + {d};
    }

    method ListAvailable() returns (out: seq<(DriverId, Time)>)
      ensures |out| == |available|
      ensures forall i, j :: 0 <= i < j < |out| ==>
                out[i].1 < out[j].1 || (out[i].1 == out[j].1 && out[i].0 < out[j].0)
      ensures forall d, t :: (d, t) in out <==> d in available && available[d] == t
    {
      var flat := Ranked(available);
      out := [];
      for i := 0 to |flat|
        invariant |out| == i
        invariant forall k :: 0 <= k < i ==> out[k] == (flat[k], available[flat[k]])
      {
        out := out + [(flat[i], available[flat[i]])];
      }
      RankedPairs(available, flat, out);
    }
  }
}
