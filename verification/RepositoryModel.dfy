/**
  The two tables an assignment is spread over, and the proof that writing and reading them is
  writing and reading a plain map.
 */
module RepositoryModel {
  import opened Wrappers
  import opened Domain
  import opened Ranking
  import opened ValueObjects
  import opened AssignmentModel

  /** The row's primary key, the order id, is its key in the table. */
  datatype AssignmentRow = AssignmentRow(
    customerId: CustomerId,
    status: AssignmentStatus,
    pickup: AddressFields,
    dropoff: AddressFields,
    items: seq<ItemFields>,
    scheduledFor: Option<Time>,
    assignedDriverId: Option<DriverId>,
    offerAttempts: nat,
    createdAt: Time,
    updatedAt: Time)

  /** The row's primary key, the attempt id, is its key in the table. */
  datatype AttemptRow = AttemptRow(
    orderId: OrderId,
    driverId: DriverId,
    attemptNo: nat,
    outcome: OfferOutcome,
    offeredAt: Time,
    respondedAt: Option<Time>,
    expiresAt: Time)

  type AttemptTable = map<AttemptId, AttemptRow>

  datatype Tables = Tables(assignments: map<OrderId, AssignmentRow>, attempts: AttemptTable)

  const EMPTY_TABLES := Tables(map[], map[])

  function ToPersistence(p: AssignmentProps): AssignmentRow {
    AssignmentRow(p.customerId, p.status, p.pickup.ToJson(), p.dropoff.ToJson(), ItemsToJson(p.items),
                  p.scheduledFor, p.assignedDriverId, p.offerAttempts, p.createdAt, p.updatedAt)
  }

  function ToAttemptRow(o: OrderId, a: OfferAttempt): AttemptRow {
    AttemptRow(o, a.driverId, a.attemptNo, a.outcome, a.offeredAt, a.respondedAt, a.expiresAt)
  }

  function ToAttempt(id: AttemptId, r: AttemptRow): OfferAttempt {
    OfferAttempt(id, r.driverId, r.attemptNo, r.outcome, r.offeredAt, r.respondedAt, r.expiresAt)
  }

  /** Create the row, or update nothing but its outcome and response time. */
  function UpsertAttempt(t: AttemptTable, o: OrderId, a: OfferAttempt): AttemptTable {
    if a.id in t then
      t[a.id := t[a.id].(outcome := a.outcome, respondedAt := a.respondedAt)]
    else
      t[a.id := ToAttemptRow(o, a)]
  }

  function UpsertAttempts(t: AttemptTable, o: OrderId, attempts: seq<OfferAttempt>): AttemptTable {
    if attempts == [] then t else
    var n := |attempts| - 1;
    UpsertAttempt(UpsertAttempts(t, o, attempts[..n]), o, attempts[n])
  }

  function Save(s: Tables, p: AssignmentProps): Tables {
    Tables(s.assignments[p.orderId := ToPersistence(p)], UpsertAttempts(s.attempts, p.orderId, p.attempts))
  }

  function NumbersOf(t: AttemptTable, o: OrderId): map<AttemptId, int> {
    map id | id in t && t[id].orderId == o :: t[id].attemptNo
  }

  /** The included rows of one order, sorted by attempt number. */
  function AttemptsOf(t: AttemptTable, o: OrderId): seq<OfferAttempt> {
    var ids := Ranked(NumbersOf(t, o));
    seq(|ids|, i requires 0 <= i < |ids| => assert ids[i] in ids; ToAttempt(ids[i], t[ids[i]]))
  }

  function ToDomain(o: OrderId, r: AssignmentRow, attempts: seq<OfferAttempt>): Result<AssignmentProps, DomainError> {
    var pickup :- AddressSnapshot.Of(r.pickup);
    var dropoff :- AddressSnapshot.Of(r.dropoff);
    var items :- ItemsOf(r.items);
    Success(AssignmentProps(o, r.customerId, pickup, dropoff, items, r.scheduledFor, r.status,
                            r.assignedDriverId, r.offerAttempts, attempts, r.createdAt, r.updatedAt))
  }

  /** Failure stands for the exception a malformed stored address or item raises. */
  function ById(s: Tables, o: OrderId): (r: Result<Option<AssignmentProps>, DomainError>)
    ensures r == Success(None) <==> o !in s.assignments
  {
    if o !in s.assignments then Success(None) else
    var p :- ToDomain(o, s.assignments[o], AttemptsOf(s.attempts, o));
    Success(Some(p))
  }

  /** What a successful read says, without the parsing of its value objects. */
  lemma LoadedFields(s: Tables, o: OrderId)
    requires ById(s, o).Success? && o in s.assignments
    ensures var r := s.assignments[o]; var p := ById(s, o).value.value;
      && p.orderId == o && p.status == r.status && p.createdAt == r.createdAt
      && p.attempts == AttemptsOf(s.attempts, o)
  {
  }

  ghost predicate Normal(p: AssignmentProps) {
    p.pickup.Normal() && p.dropoff.Normal() && AllNormal(p.items)
  }

  /** A parked order nobody has been offered to yet. */
  ghost predicate IsNew(p: AssignmentProps) {
    && p.attempts == [] && p.offerAttempts == 0 && p.assignedDriverId == None && p.status == AwaitingDriver
    && Normal(p)
  }

  ghost predicate DistinctIds(p: AssignmentProps) {
    forall i, j :: 0 <= i < j < |p.attempts| ==> p.attempts[i].id != p.attempts[j].id
  }

  ghost predicate SameOffer(r: AttemptRow, o: OrderId, a: OfferAttempt) {
    && r.orderId == o && r.driverId == a.driverId && r.attemptNo == a.attemptNo
    && r.offeredAt == a.offeredAt && r.expiresAt == a.expiresAt
  }

  ghost predicate HasId(attempts: seq<OfferAttempt>, id: AttemptId) {
    exists i :: 0 <= i < |attempts| && attempts[i].id == id
  }

  /** What the attempts table must already say for a save of `p` to be faithful. */
  ghost predicate Compatible(t: AttemptTable, p: AssignmentProps) {
    && (forall i :: 0 <= i < |p.attempts| && p.attempts[i].id in t
          ==> SameOffer(t[p.attempts[i].id], p.orderId, p.attempts[i]))
    && (forall id :: id in t && t[id].orderId == p.orderId ==> HasId(p.attempts, id))
  }

  lemma {:induction false} UpsertAttemptsAt(t: AttemptTable, o: OrderId, attempts: seq<OfferAttempt>)
    requires forall i, j :: 0 <= i < j < |attempts| ==> attempts[i].id != attempts[j].id
    ensures forall id :: id in UpsertAttempts(t, o, attempts) <==> id in t || HasId(attempts, id)
    ensures forall id :: id in t && !HasId(attempts, id) ==> UpsertAttempts(t, o, attempts)[id] == t[id]
    ensures forall i :: 0 <= i < |attempts| ==>
      var a := attempts[i];
      a.id in UpsertAttempts(t, o, attempts) &&
      UpsertAttempts(t, o, attempts)[a.id]
        == if a.id in t then t[a.id].(outcome := a.outcome, respondedAt := a.respondedAt) else ToAttemptRow(o, a)
  {
    if attempts != [] {
      var n := |attempts| - 1;
      UpsertAttemptsAt(t, o, attempts[..n]);
      var a := attempts[n];
      assert !HasId(attempts[..n], a.id);
      forall id ensures HasId(attempts, id) <==> HasId(attempts[..n], id) || id == a.id {
        if i :| 0 <= i < |attempts| && attempts[i].id == id && i < n {
          assert attempts[..n][i].id == id;
        }
      }
      forall i | 0 <= i < n ensures UpsertAttempts(t, o, attempts)[attempts[i].id]
                                 == UpsertAttempts(t, o, attempts[..n])[attempts[..n][i].id] {
      }
    }
  }

  /** What a save writes, column by column. */
  lemma SavedRows(s: Tables, p: AssignmentProps, i: nat)
    requires Normal(p) && DistinctIds(p) && i < |p.attempts|
    ensures var t := Save(s, p); var a := p.attempts[i];
      && t.assignments.Keys == s.assignments.Keys + {p.orderId}
      && a.id in t.attempts
      && t.attempts[a.id].outcome == a.outcome && t.attempts[a.id].respondedAt == a.respondedAt
      && (a.id !in s.attempts ==>
            && t.attempts[a.id].orderId == p.orderId && t.attempts[a.id].driverId == a.driverId
            && t.attempts[a.id].attemptNo == a.attemptNo && t.attempts[a.id].offeredAt == a.offeredAt
            && t.attempts[a.id].expiresAt == a.expiresAt)
      && (a.id in s.attempts ==>
            && t.attempts[a.id].orderId == s.attempts[a.id].orderId
            && t.attempts[a.id].driverId == s.attempts[a.id].driverId
            && t.attempts[a.id].attemptNo == s.attempts[a.id].attemptNo
            && t.attempts[a.id].offeredAt == s.attempts[a.id].offeredAt
            && t.attempts[a.id].expiresAt == s.attempts[a.id].expiresAt)
  {
    UpsertAttemptsAt(s.attempts, p.orderId, p.attempts);
  }

  lemma SavedRow(s: Tables, p: AssignmentProps)
    requires Normal(p)
    ensures var r := Save(s, p).assignments[p.orderId];
      && r.customerId == p.customerId && r.status == p.status && r.scheduledFor == p.scheduledFor
      && r.assignedDriverId == p.assignedDriverId && r.offerAttempts == p.offerAttempts
      && r.createdAt == p.createdAt && r.updatedAt == p.updatedAt
      && AddressSnapshot.Of(r.pickup) == Success(p.pickup) && AddressSnapshot.Of(r.dropoff) == Success(p.dropoff)
      && ItemsOf(r.items) == Success(p.items)
    ensures forall o :: o in s.assignments && o != p.orderId ==> Save(s, p).assignments[o] == s.assignments[o]
  {
    AddressRoundTrip(p.pickup);
    AddressRoundTrip(p.dropoff);
    ItemsRoundTrip(p.items);
  }

  function IdsOf(attempts: seq<OfferAttempt>): seq<AttemptId> {
    seq(|attempts|, i requires 0 <= i < |attempts| => attempts[i].id)
  }

  /** Faithful storage of the attempts, in both directions. */
  lemma AttemptsRoundTrip(t: AttemptTable, p: AssignmentProps)
    requires Numbered(p) && DistinctIds(p)
    ensures AttemptsOf(UpsertAttempts(t, p.orderId, p.attempts), p.orderId) == p.attempts <==> Compatible(t, p)
  {
    UpsertAttemptsAt(t, p.orderId, p.attempts);
    if Compatible(t, p) {
      CompatibleLoads(t, p);
    }
    if AttemptsOf(UpsertAttempts(t, p.orderId, p.attempts), p.orderId) == p.attempts {
      LoadedIsCompatible(t, p);
    }
  }

  lemma UpsertedRow(t: AttemptTable, p: AssignmentProps, i: nat)
    requires DistinctIds(p) && Compatible(t, p) && i < |p.attempts|
    ensures var id, u := p.attempts[i].id, UpsertAttempts(t, p.orderId, p.attempts);
      id in u && u[id].orderId == p.orderId && ToAttempt(id, u[id]) == p.attempts[i]
  {
    hide UpsertAttempts;
    UpsertAttemptsAt(t, p.orderId, p.attempts);
  }

  lemma UpsertedIds(t: AttemptTable, p: AssignmentProps, id: AttemptId)
    requires DistinctIds(p) && Compatible(t, p)
    requires var u := UpsertAttempts(t, p.orderId, p.attempts); id in u && u[id].orderId == p.orderId
    ensures HasId(p.attempts, id)
  {
    hide UpsertAttempts;
    UpsertAttemptsAt(t, p.orderId, p.attempts);
  }

  lemma CompatibleLoads(t: AttemptTable, p: AssignmentProps)
    requires Numbered(p) && DistinctIds(p) && Compatible(t, p)
    ensures AttemptsOf(UpsertAttempts(t, p.orderId, p.attempts), p.orderId) == p.attempts
  {
    hide UpsertAttempts, Ranked, Compatible;
    var u := UpsertAttempts(t, p.orderId, p.attempts);
    var numbers, ids := NumbersOf(u, p.orderId), IdsOf(p.attempts);
    forall i | 0 <= i < |ids| ensures ids[i] in numbers && numbers[ids[i]] == i + 1 {
      UpsertedRow(t, p, i);
    }
    forall id ensures id in numbers <==> id in ids {
      if id in numbers {
        UpsertedIds(t, p, id);
        var i :| 0 <= i < |p.attempts| && p.attempts[i].id == id;
        assert ids[i] == id;
      }
    }
    RankedIsUnique(numbers, ids);
    forall i | 0 <= i < |p.attempts| ensures ToAttempt(ids[i], u[ids[i]]) == p.attempts[i] {
      UpsertedRow(t, p, i);
    }
  }

  lemma LoadedIsCompatible(t: AttemptTable, p: AssignmentProps)
    requires Numbered(p) && DistinctIds(p)
    requires AttemptsOf(UpsertAttempts(t, p.orderId, p.attempts), p.orderId) == p.attempts
    ensures Compatible(t, p)
  {
    UpsertAttemptsAt(t, p.orderId, p.attempts);
    var u := UpsertAttempts(t, p.orderId, p.attempts);
    var ids := Ranked(NumbersOf(u, p.orderId));
    forall i | 0 <= i < |p.attempts| && p.attempts[i].id in t
      ensures SameOffer(t[p.attempts[i].id], p.orderId, p.attempts[i])
    {
      assert ids[i] in ids;
      assert p.attempts[i] == ToAttempt(ids[i], u[ids[i]]);
    }
    forall id | id in t && t[id].orderId == p.orderId ensures HasId(p.attempts, id) {
      if HasId(p.attempts, id) {
        var j :| 0 <= j < |p.attempts| && p.attempts[j].id == id;
      }
      assert id in ids;
      var i :| 0 <= i < |ids| && ids[i] == id;
      assert p.attempts[i] == ToAttempt(ids[i], u[ids[i]]);
    }
  }

  /**
    Saving then reading gives the assignment back exactly when its value objects are normalised and
    the attempts table agrees with it beforehand.
   */
  lemma SaveThenLoad(s: Tables, p: AssignmentProps)
    requires Numbered(p) && DistinctIds(p)
    ensures ById(Save(s, p), p.orderId) == Success(Some(p)) <==> Normal(p) && Compatible(s.attempts, p)
  {
    AttemptsRoundTrip(s.attempts, p);
    AddressRoundTrip(p.pickup);
    AddressRoundTrip(p.dropoff);
    ItemsRoundTrip(p.items);
  }

  /** Other orders read as before when every id being written is new or this order's own. */
  lemma SaveKeepsOthers(s: Tables, p: AssignmentProps, o: OrderId)
    requires DistinctIds(p) && o != p.orderId
    requires forall i :: 0 <= i < |p.attempts| && p.attempts[i].id in s.attempts ==>
                           s.attempts[p.attempts[i].id].orderId == p.orderId
    ensures ById(Save(s, p), o) == ById(s, o)
  {
    UpsertAttemptsAt(s.attempts, p.orderId, p.attempts);
    var t, u := s.attempts, UpsertAttempts(s.attempts, p.orderId, p.attempts);
    forall id ensures (id in t && t[id].orderId == o) <==> (id in u && u[id].orderId == o)
              ensures id in t && t[id].orderId == o ==> u[id] == t[id]
    {
      if HasId(p.attempts, id) {
        var i :| 0 <= i < |p.attempts| && p.attempts[i].id == id;
      }
    }
    assert NumbersOf(t, o) == NumbersOf(u, o);
    var ids := Ranked(NumbersOf(t, o));
    assert AttemptsOf(t, o) == AttemptsOf(u, o) by {
      forall i | 0 <= i < |ids| ensures ToAttempt(ids[i], t[ids[i]]) == ToAttempt(ids[i], u[ids[i]]) {
        assert ids[i] in ids;
      }
    }
  }

  /**
    A fresh assignment reads back as saved exactly when the table holds no attempt of its order. A
    second `order.created` for an order that was offered (another event id) fails this: the row is
    overwritten, the old attempts come back on the next read, and the tables do not act as a map.
   */
  lemma FreshSaveReadsBackIff(s: Tables, p: AssignmentProps)
    requires IsNew(p)
    ensures ById(Save(s, p), p.orderId) == Success(Some(p))
       <==> forall id :: id in s.attempts ==> s.attempts[id].orderId != p.orderId
  {
    SaveThenLoad(s, p);
    assert forall id :: !HasId(p.attempts, id);
  }

  // ----- Refinement of a map -----

  /** The tables, read back, are the map `m`; no attempt row is orphaned. */
  ghost predicate Represents(s: Tables, m: map<OrderId, AssignmentProps>) {
    && s.assignments.Keys == m.Keys
    && (forall o :: o in m ==> ById(s, o) == Success(Some(m[o])) && m[o].orderId == o)
    && (forall id :: id in s.attempts ==> s.attempts[id].orderId in m)
  }

  /**
    `p` is new, or nothing was offered under its id yet, or it continues what is stored; attempts added
    since carry ids nobody else uses.
   */
  ghost predicate Storable(m: map<OrderId, AssignmentProps>, p: AssignmentProps) {
    && Normal(p) && Numbered(p) && DistinctIds(p)
    && (p.orderId !in m ==> p.attempts == [])
    && (p.orderId in m && m[p.orderId].attempts != [] ==> Continues(m[p.orderId], p))
    && (forall o, i, j ::
          (o in m && 0 <= i < |m[o].attempts| && 0 <= j < |p.attempts|
           && m[o].attempts[i].id == p.attempts[j].id) ==> o == p.orderId)
  }

  lemma AttemptListed(t: AttemptTable, id: AttemptId) returns (i: nat)
    requires id in t
    ensures i < |AttemptsOf(t, t[id].orderId)| && AttemptsOf(t, t[id].orderId)[i] == ToAttempt(id, t[id])
  {
    var ids := Ranked(NumbersOf(t, t[id].orderId));
    assert id in NumbersOf(t, t[id].orderId);
    assert id in ids;
    i :| 0 <= i < |ids| && ids[i] == id;
  }

  lemma RowIsAnAttempt(s: Tables, m: map<OrderId, AssignmentProps>, id: AttemptId) returns (i: nat)
    requires Represents(s, m) && id in s.attempts
    ensures s.attempts[id].orderId in m
    ensures i < |m[s.attempts[id].orderId].attempts|
    ensures m[s.attempts[id].orderId].attempts[i] == ToAttempt(id, s.attempts[id])
  {
    hide ById, AttemptsOf;
    LoadedFields(s, s.attempts[id].orderId);
    i := AttemptListed(s.attempts, id);
  }

  lemma StorableIsCompatible(s: Tables, m: map<OrderId, AssignmentProps>, p: AssignmentProps)
    requires Represents(s, m) && Storable(m, p)
    ensures Compatible(s.attempts, p)
  {
    forall id | id in s.attempts && s.attempts[id].orderId == p.orderId ensures HasId(p.attempts, id) {
      var i := RowIsAnAttempt(s, m, id);
      assert SameAttempt(m[p.orderId].attempts[i], p.attempts[i]);
    }
    forall j | 0 <= j < |p.attempts| && p.attempts[j].id in s.attempts
      ensures SameOffer(s.attempts[p.attempts[j].id], p.orderId, p.attempts[j])
    {
      var id := p.attempts[j].id;
      var i := RowIsAnAttempt(s, m, id);
      assert s.attempts[id].orderId == p.orderId;
      assert SameAttempt(m[p.orderId].attempts[i], p.attempts[i]);
      assert p.attempts[i].id == p.attempts[j].id;
      assert i == j;
    }
  }

  lemma SaveRefines(s: Tables, m: map<OrderId, AssignmentProps>, p: AssignmentProps)
    requires Represents(s, m) && Storable(m, p)
    ensures Represents(Save(s, p), m[p.orderId := p])
  {
    hide ById, UpsertAttempts;
    StorableIsCompatible(s, m, p);
    SaveThenLoad(s, p);
    UpsertAttemptsAt(s.attempts, p.orderId, p.attempts);
    forall o | o in m && o != p.orderId ensures ById(Save(s, p), o) == ById(s, o) {
      SaveKeepsOthers(s, p, o);
    }
    var u := Save(s, p).attempts;
    forall id | id in u ensures u[id].orderId in m[p.orderId := p] {
      if HasId(p.attempts, id) {
        var i :| 0 <= i < |p.attempts| && p.attempts[i].id == id;
        assert u[p.attempts[i].id].orderId == p.orderId;
      }
    }
  }

  /** At most one map is represented, and it can be computed. */
  function Contents(s: Tables): map<OrderId, AssignmentProps> {
    map o | o in s.assignments && ById(s, o).Success? :: ById(s, o).value.value
  }

  lemma ContentsIsRepresented(s: Tables, m: map<OrderId, AssignmentProps>)
    requires Represents(s, m)
    ensures Contents(s) == m
  {
  }

  // ----- Any sequence of creations, operations and saves -----

  datatype Write = Create(p: AssignmentProps) | Step(o: OrderId, op: Operation)

  ghost predicate AllDistinctIds(m: map<OrderId, AssignmentProps>) {
    forall o, o', i, j ::
      (o in m && o' in m && 0 <= i < |m[o].attempts| && 0 <= j < |m[o'].attempts|
       && m[o].attempts[i].id == m[o'].attempts[j].id) ==> o == o' && i == j
  }

  ghost predicate FreshId(m: map<OrderId, AssignmentProps>, id: AttemptId) {
    forall o, i :: o in m && 0 <= i < |m[o].attempts| ==> m[o].attempts[i].id != id
  }

  /** A caller creates an order before it is ever offered, and steps it as the aggregate allows, with fresh ids. */
  ghost predicate MayWrite(m: map<OrderId, AssignmentProps>, w: Write) {
    match w
    case Create(p) =>
      && (p.orderId in m ==> m[p.orderId].attempts == [])
      && Normal(p) && p.attempts == [] && p.offerAttempts == 0 && Sound(p)
    case Step(o, op) =>
      && o in m && m[o].Allows(op)
      && (op.Offer? ==> op.driverId !in m[o].TriedDriverIds() && FreshId(m, op.id))
  }

  ghost predicate Healthy(m: map<OrderId, AssignmentProps>) {
    && (forall o :: o in m ==> m[o].orderId == o && Sound(m[o]) && Normal(m[o]))
    && AllDistinctIds(m)
  }

  ghost function Written(m: map<OrderId, AssignmentProps>, w: Write): AssignmentProps
    requires MayWrite(m, w)
  {
    match w
    case Create(p) => p
    case Step(o, op) => m[o].After(op)
  }

  ghost function WriteMap(m: map<OrderId, AssignmentProps>, w: Write): map<OrderId, AssignmentProps>
    requires MayWrite(m, w)
  {
    m[Written(m, w).orderId := Written(m, w)]
  }

  /** Load, step, save: on the tables the aggregate being stepped is the one read back. */
  ghost function WriteTables(s: Tables, w: Write): Tables {
    match w
    case Create(p) => Save(s, p)
    case Step(o, op) =>
      match ById(s, o)
      case Success(Some(p)) => if p.Allows(op) then Save(s, p.After(op)) else s
      case _ => s
  }

  ghost predicate MayWriteAll(m: map<OrderId, AssignmentProps>, ws: seq<Write>)
    decreases |ws|
  {
    ws == [] || (MayWrite(m, ws[0]) && MayWriteAll(WriteMap(m, ws[0]), ws[1..]))
  }

  ghost function MapAfter(m: map<OrderId, AssignmentProps>, ws: seq<Write>): map<OrderId, AssignmentProps>
    requires MayWriteAll(m, ws)
    decreases |ws|
  {
    if ws == [] then m else MapAfter(WriteMap(m, ws[0]), ws[1..])
  }

  ghost function TablesAfter(s: Tables, ws: seq<Write>): Tables
    decreases |ws|
  {
    if ws == [] then s else TablesAfter(WriteTables(s, ws[0]), ws[1..])
  }

  /** Ids after an operation: the old ones in place, then at most the new offer's. */
  lemma IdsAfter(p: AssignmentProps, op: Operation)
    requires Sound(p) && p.Allows(op)
    ensures forall j :: 0 <= j < |p.attempts| ==> p.After(op).attempts[j].id == p.attempts[j].id
    ensures |p.attempts| <= |p.After(op).attempts| <= |p.attempts| + 1
    ensures |p.After(op).attempts| > |p.attempts| ==> op.Offer? && p.After(op).attempts[|p.attempts|].id == op.id
  {
  }

  lemma StepKeepsIdsDistinct(m: map<OrderId, AssignmentProps>, o: OrderId, op: Operation)
    requires AllDistinctIds(m) && o in m && Sound(m[o]) && m[o].Allows(op)
    requires op.Offer? ==> FreshId(m, op.id)
    ensures AllDistinctIds(m[o := m[o].After(op)])
  {
  }

  lemma ExtendKeepsIdsDistinct(m: map<OrderId, AssignmentProps>, o: OrderId, q: AssignmentProps)
    requires AllDistinctIds(m) && o in m
    requires |m[o].attempts| <= |q.attempts| <= |m[o].attempts| + 1
    requires forall j :: 0 <= j < |m[o].attempts| ==> q.attempts[j].id == m[o].attempts[j].id
    requires |q.attempts| > |m[o].attempts| ==>
               forall o', i :: o' in m && 0 <= i < |m[o'].attempts| ==>
                                 m[o'].attempts[i].id != q.attempts[|m[o].attempts|].id
    ensures AllDistinctIds(m[o := q])
  {
  }

  lemma StepIsStorable(m: map<OrderId, AssignmentProps>, o: OrderId, op: Operation)
    requires Healthy(m) && MayWrite(m, Step(o, op))
    ensures Storable(m, m[o].After(op)) && Healthy(m[o := m[o].After(op)])
  {
    var p, q := m[o], m[o].After(op);
    OperationKeepsSound(p, op);
    OperationContinues(p, op);
    StepKeepsIdsDistinct(m, o, op);
    var m' := m[o := q];
    assert DistinctIds(q) by {
      assert m'[o] == q;
    }
    forall o', i, j | o' in m && o' != o && 0 <= i < |m[o'].attempts| && 0 <= j < |q.attempts|
      ensures m[o'].attempts[i].id != q.attempts[j].id
    {
      assert m'[o'].attempts[i] == m[o'].attempts[i] && m'[o].attempts[j] == q.attempts[j];
    }
  }

  lemma CreateIsStorable(m: map<OrderId, AssignmentProps>, p: AssignmentProps)
    requires Healthy(m) && MayWrite(m, Create(p))
    ensures Storable(m, p) && Healthy(m[p.orderId := p])
  {
  }

  lemma WriteIsStorable(m: map<OrderId, AssignmentProps>, w: Write)
    requires Healthy(m) && MayWrite(m, w)
    ensures Storable(m, Written(m, w)) && Healthy(WriteMap(m, w))
  {
    hide Storable, AllDistinctIds;
    match w {
      case Create(p) => CreateIsStorable(m, p);
      case Step(o, op) => StepIsStorable(m, o, op);
    }
  }

  lemma WriteTablesSaves(s: Tables, m: map<OrderId, AssignmentProps>, w: Write)
    requires Represents(s, m) && MayWrite(m, w)
    ensures WriteTables(s, w) == Save(s, Written(m, w))
  {
  }

  lemma WriteRefinesMap(s: Tables, m: map<OrderId, AssignmentProps>, w: Write)
    requires Represents(s, m) && Healthy(m) && MayWrite(m, w)
    ensures Represents(WriteTables(s, w), WriteMap(m, w)) && Healthy(WriteMap(m, w))
  {
    hide Represents, Healthy, Storable, WriteTables, Written, Save;
    WriteTablesSaves(s, m, w);
    WriteIsStorable(m, w);
    SaveRefines(s, m, Written(m, w));
  }

  /** After any run of creations and steps the tables read back as the map does. */
  lemma {:induction false} WritesRefineMap(s: Tables, m: map<OrderId, AssignmentProps>, ws: seq<Write>)
    requires Represents(s, m) && Healthy(m) && MayWriteAll(m, ws)
    ensures Represents(TablesAfter(s, ws), MapAfter(m, ws))
    decreases |ws|
  {
    hide Represents, Healthy, WriteTables, WriteMap, MayWrite;
    if ws != [] {
      WriteRefinesMap(s, m, ws[0]);
      WritesRefineMap(WriteTables(s, ws[0]), WriteMap(m, ws[0]), ws[1..]);
    }
  }

  /** What a use case relies on when it saves the aggregate it loaded and stepped. */
  lemma SavedStep(s: Tables, m: map<OrderId, AssignmentProps>, o: OrderId, op: Operation)
    requires Represents(s, m) && Healthy(m) && MayWrite(m, Step(o, op))
    ensures var q := m[o].After(op);
      && Represents(Save(s, q), m[o := q]) && Contents(Save(s, q)) == m[o := q] && Healthy(m[o := q])
  {
    hide Represents, AllDistinctIds, Storable, Save;
    StepIsStorable(m, o, op);
    SaveRefines(s, m, m[o].After(op));
    ContentsIsRepresented(Save(s, m[o].After(op)), m[o := m[o].After(op)]);
  }

  // ----- Queries -----

  /** Parked orders, oldest first; equal ages are listed by id. */
  function AwaitingOldestFirst(created: map<OrderId, Time>, limit: nat): seq<OrderId> {
    var all := Ranked(created);
    if |all| <= limit then all else all[..limit]
  }

  function AwaitingRows(s: Tables): map<OrderId, Time> {
    map o | o in s.assignments && s.assignments[o].status == AwaitingDriver :: s.assignments[o].createdAt
  }

  function Parked(m: map<OrderId, AssignmentProps>): map<OrderId, Time> {
    map o | o in m && m[o].status == AwaitingDriver :: m[o].createdAt
  }

  lemma AwaitingRowsAreParked(s: Tables, m: map<OrderId, AssignmentProps>)
    requires Represents(s, m)
    ensures AwaitingRows(s) == Parked(m)
  {
    hide ToDomain;
    forall o | o in m
      ensures s.assignments[o].status == m[o].status && s.assignments[o].createdAt == m[o].createdAt
    {
      LoadedFields(s, o);
    }
  }

  predicate IsAwaiting(rows: map<OrderId, AssignmentRow>, o: OrderId) {
    o in rows && rows[o].status == AwaitingDriver
  }

  /** Created earlier; at the same instant, the smaller id. */
  predicate Older(rows: map<OrderId, AssignmentRow>, a: OrderId, b: OrderId)
    requires a in rows && b in rows
  {
    rows[a].createdAt < rows[b].createdAt || (rows[a].createdAt == rows[b].createdAt && a < b)
  }

  /**
    `page` is what the query for parked orders returns: parked orders only, oldest first, and one is
    left out only if the page is full and all of it is older.
   */
  ghost predicate OldestPage(rows: map<OrderId, AssignmentRow>, limit: nat, page: seq<OrderId>) {
    && |page| <= limit
    && (forall i :: 0 <= i < |page| ==> IsAwaiting(rows, page[i]))
    && (forall i, j :: 0 <= i < j < |page| ==> Older(rows, page[i], page[j]))
    && (forall o :: IsAwaiting(rows, o) && o !in page ==>
          |page| == limit && forall i :: 0 <= i < |page| ==> Older(rows, page[i], o))
  }

  lemma ListingIsOldestPage(s: Tables, limit: nat)
    ensures OldestPage(s.assignments, limit, AwaitingOldestFirst(AwaitingRows(s), limit))
  {
    var m, rows := AwaitingRows(s), s.assignments;
    var all, page := Ranked(m), AwaitingOldestFirst(m, limit);
    assert page <= all;
    forall i | 0 <= i < |all| ensures all[i] in m {
    }
    assert forall i, j :: 0 <= i < j < |all| ==> Before(m, all[i], all[j]);
    forall o | IsAwaiting(rows, o) && o !in page
      ensures |page| == limit && forall i :: 0 <= i < |page| ==> Older(rows, page[i], o)
    {
      assert o in m && o in all;
      var k :| 0 <= k < |all| && all[k] == o;
      assert k >= |page|;
    }
  }

  /** A query has one answer: the page is determined by what it must satisfy. */
  lemma OldestPageIsUnique(s: Tables, limit: nat, page: seq<OrderId>)
    requires OldestPage(s.assignments, limit, page)
    ensures page == AwaitingOldestFirst(AwaitingRows(s), limit)
  {
    var m := AwaitingRows(s);
    var later := map o | o in m && o !in page :: m[o];
    var rest := Ranked(later);
    var all := page + rest;
    assert forall o :: o in m <==> IsAwaiting(s.assignments, o);
    forall i | 0 <= i < |all| ensures all[i] in m {
      assert i >= |page| ==> rest[i - |page|] in later;
    }
    forall i, j | 0 <= i < j < |all| ensures Before(m, all[i], all[j]) {
      if i >= |page| {
        assert Before(later, rest[i - |page|], rest[j - |page|]);
      } else if j >= |page| {
        assert rest[j - |page|] in later;
      }
    }
    forall o ensures o in m <==> o in all {
      assert o in later <==> o in rest;
    }
    RankedIsUnique(m, all);
    if rest != [] {
      assert rest[0] in later;
    }
  }

  /** The WHERE clause behind a driver's current offer. */
  ghost predicate OfferRow(s: Tables, o: OrderId, d: DriverId) {
    && o in s.assignments && s.assignments[o].status == Offered
    && (exists id :: id in s.attempts && s.attempts[id].orderId == o
                  && s.attempts[id].driverId == d && s.attempts[id].outcome == Pending)
  }

  lemma OfferRowIsCurrent(s: Tables, m: map<OrderId, AssignmentProps>, o: OrderId, id: AttemptId)
    requires Represents(s, m) && id in s.attempts && s.attempts[id].orderId == o && s.attempts[id].outcome == Pending
    requires o in m && Sound(m[o])
    ensures m[o].status == Offered && m[o].Holder() == Some(s.attempts[id].driverId)
  {
    hide ById;
    var i := RowIsAnAttempt(s, m, id);
    PendingIsCurrent(m[o], i);
  }

  lemma OfferedIsPending(p: AssignmentProps)
    requires Sound(p) && p.status == Offered
    ensures p.attempts != [] && p.attempts[|p.attempts| - 1].outcome == Pending
  {
  }

  lemma RowOfAttempt(t: AttemptTable, o: OrderId, i: nat) returns (id: AttemptId)
    requires i < |AttemptsOf(t, o)|
    ensures id in t && t[id].orderId == o && AttemptsOf(t, o)[i] == ToAttempt(id, t[id])
  {
    var ids := Ranked(NumbersOf(t, o));
    id := ids[i];
    assert id in ids;
  }

  lemma RepresentedOrder(s: Tables, m: map<OrderId, AssignmentProps>, o: OrderId)
    requires Represents(s, m) && o in m
    ensures o in s.assignments && ById(s, o) == Success(Some(m[o]))
  {
    hide ToDomain, AttemptsOf;
  }

  lemma CurrentIsOfferRow(s: Tables, m: map<OrderId, AssignmentProps>, o: OrderId) returns (id: AttemptId)
    requires Represents(s, m) && o in m && m[o].status == Offered && Sound(m[o])
    ensures id in s.attempts && s.attempts[id].orderId == o && s.attempts[id].outcome == Pending
    ensures m[o].Holder() == Some(s.attempts[id].driverId)
  {
    hide Sound, Represents;
    OfferedIsPending(m[o]);
    RepresentedOrder(s, m, o);
    LoadedFields(s, o);
    hide ById, AttemptsOf;
    id := RowOfAttempt(s.attempts, o, |m[o].attempts| - 1);
  }

  /** The database asks for any pending attempt, the in-memory repository for the current one: same orders. */
  lemma OfferLookupAgrees(s: Tables, m: map<OrderId, AssignmentProps>, o: OrderId, d: DriverId)
    requires Represents(s, m) && o in m && Sound(m[o])
    ensures OfferRow(s, o, d) <==> m[o].status == Offered && m[o].Holder() == Some(d)
  {
    hide ToDomain;
    LoadedFields(s, o);
    if OfferRow(s, o, d) {
      var id :| id in s.attempts && s.attempts[id].orderId == o
             && s.attempts[id].driverId == d && s.attempts[id].outcome == Pending;
      OfferRowIsCurrent(s, m, o, id);
    }
    if m[o].status == Offered && m[o].Holder() == Some(d) {
      var id := CurrentIsOfferRow(s, m, o);
    }
  }
}
