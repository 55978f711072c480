/** The tables of the reset monitor: evidence, events with a stage that only advances, a delivery
    queue with capped retries, and the lease that keeps instances apart. */
module ResetStore {
  import opened Basics
  import opened Ordering
  import opened Confirmation

  function Rank(stage: Stage): nat {
    match stage
    case Hint => 1
    case Announced => 2
    case Delayed => 3
    case Confirmed => 4
  }

  predicate CanAdvance(current: Option<Stage>, target: Stage) {
    current.None? || Rank(target) > Rank(current.value)
  }

  /** Text fields of an event are presentation and are not kept. */
  datatype ResetEvent = ResetEvent(
    stage: Stage, resetType: Option<ResetType>, announcedTs: Option<int>, expectedStart: Option<int>,
    expectedEnd: Option<int>, confirmedTs: Option<int>, firstSeen: int, lastSeen: int)

  datatype EvidenceRow = EvidenceRow(id: string, evidence: Evidence)

  datatype DeliveryStatus = Waiting | Sent | GaveUp
  datatype Delivery = Delivery(id: string, stage: Stage, status: DeliveryStatus, attempts: nat, nextAttempt: int)

  datatype Lease = Lease(owner: string, expires: int)

  datatype Tables = Tables(
    evidence: seq<EvidenceRow>, events: map<string, ResetEvent>, deliveries: seq<Delivery>, lease: Option<Lease>)

  datatype Config = Config(
    ttl: nat, delayGrace: nat, maxAge: nat, retryBase: nat, retryMax: nat, maxAttempts: nat, canonical: Canonical)

  // ---- The lease ----

  predicate LeaseFree(lease: Option<Lease>, owner: string, now: int) {
    lease.None? || lease.value.expires <= now || lease.value.owner == owner
  }

  function Acquire(t: Tables, owner: string, now: int, ttl: nat): Tables {
    if LeaseFree(t.lease, owner, now) then t.(lease := Some(Lease(owner, now + ttl))) else t
  }

  function Release(t: Tables, owner: string): Tables {
    if t.lease.Some? && t.lease.value.owner == owner then t.(lease := None) else t
  }

  // ---- Evidence ----

  function PutEvidence(rows: seq<EvidenceRow>, id: string, e: Evidence): seq<EvidenceRow> {
    if rows == [] then [EvidenceRow(id, e)]
    else if rows[0].evidence.sourceName == e.sourceName && rows[0].evidence.itemId == e.itemId then
      [EvidenceRow(id, e)] + rows[1..]
    else [rows[0]] + PutEvidence(rows[1..], id, e)
  }

  /** The row with this key: its source and its item. */
  function Lookup(rows: seq<EvidenceRow>, source: string, item: string): Option<EvidenceRow> {
    if rows == [] then None
    else if rows[0].evidence.sourceName == source && rows[0].evidence.itemId == item then Some(rows[0])
    else Lookup(rows[1..], source, item)
  }

  ghost predicate KeyedOnce(rows: seq<EvidenceRow>) {
    forall i, j :: 0 <= i < j < |rows| ==> !(rows[i].evidence.sourceName == rows[j].evidence.sourceName
                                             && rows[i].evidence.itemId == rows[j].evidence.itemId)
  }

  /** Putting a piece of evidence sets the row of its key, and no other. */
  lemma {:induction false} PutEvidenceKeyed(rows: seq<EvidenceRow>, id: string, e: Evidence)
    ensures var rows' := PutEvidence(rows, id, e);
            && Lookup(rows', e.sourceName, e.itemId) == Some(EvidenceRow(id, e))
            && (forall source, item :: source != e.sourceName || item != e.itemId ==>
                 Lookup(rows', source, item) == Lookup(rows, source, item))
            && (forall x :: x in rows' ==> x == EvidenceRow(id, e) || x in rows)
            && (KeyedOnce(rows) ==> KeyedOnce(rows'))
  {
    if rows != [] {
      PutEvidenceKeyed(rows[1..], id, e);
      var rest := PutEvidence(rows[1..], id, e);
      assert ([rows[0]] + rest)[1..] == rest && ([EvidenceRow(id, e)] + rows[1..])[1..] == rows[1..];
      forall i | 0 <= i < |rest| && KeyedOnce(rows) && PutEvidence(rows, id, e) == [rows[0]] + rest
        ensures !(rows[0].evidence.sourceName == rest[i].evidence.sourceName
                  && rows[0].evidence.itemId == rest[i].evidence.itemId)
      {
        assert rest[i] in rest;
      }
    }
  }

  function Select(rows: seq<EvidenceRow>, id: string): seq<Evidence> {
    if rows == [] then []
    else (if rows[0].id == id then [rows[0].evidence] else []) + Select(rows[1..], id)
  }

  predicate ByObserved(a: Evidence, b: Evidence) { a.observedAt <= b.observedAt }

  function EvidenceFor(rows: seq<EvidenceRow>, id: string): seq<Evidence> {
    Sort(Select(rows, id), ByObserved)
  }

  /** The last piece of evidence that satisfies `p`. */
  function Latest(evidence: seq<Evidence>, p: Evidence -> bool): Option<Evidence> {
    if evidence == [] then None
    else if p(evidence[|evidence| - 1]) then Some(evidence[|evidence| - 1])
    else Latest(evidence[..|evidence| - 1], p)
  }

  // ---- Classification ----

  predicate FullAnnouncement(e: Evidence) {
    e.stage == Announced && e.official && e.expectedEnd.Some? && e.resetType.Some? && e.url != ""
  }

  predicate BankedAnnouncement(e: Evidence) { FullAnnouncement(e) && e.resetType == Some(Banked) }

  predicate BankedArrived(e: Evidence) { e.stage == Confirmed && e.localReference && e.resetType == Some(Banked) }

  predicate OfficialHint(e: Evidence) { e.stage == Hint && e.official && e.url != "" }

  function Classify(evidence: seq<Evidence>, canonical: Canonical): Option<Stage> {
    if AnyOf(evidence, BankedArrived) then Some(Confirmed)
    else if AnyOf(evidence, BankedAnnouncement) then Some(Announced)
    else if ConfirmationBasis(evidence, canonical) != NoBasis then Some(Confirmed)
    else if AnyOf(evidence, FullAnnouncement) then Some(Announced)
    else if AnyOf(evidence, OfficialHint) then Some(Hint)
    else None
  }

  // ---- Events ----

  function Coalesce<T>(a: Option<T>, b: Option<T>): Option<T> { if a.Some? then a else b }

  function At(e: Option<Evidence>): Option<int> {
    if e.Some? then Some(e.value.observedAt) else None
  }

  predicate Advanced(read: Option<ResetEvent>, target: Stage) {
    CanAdvance(if read.Some? then Some(read.value.stage) else None, target)
  }

  /** The row after the write: its stage comes from the row that was read before, the rest from the row
      that is there. */
  function UpsertEvent(current: Option<ResetEvent>, read: Option<ResetEvent>, target: Stage, evidence: seq<Evidence>, now: int)
    : ResetEvent
  {
    var typed := Latest(evidence, (e: Evidence) => e.resetType.Some?);
    var resetType := if typed.Some? then typed.value.resetType else None;
    var announced := Latest(evidence, (e: Evidence) => e.stage == Announced);
    var confirmed := Latest(evidence, (e: Evidence) => e.stage == Confirmed);
    var start := if announced.Some? then announced.value.expectedStart else None;
    var end := if announced.Some? then announced.value.expectedEnd else None;
    match current
    case None =>
      ResetEvent(target, resetType, At(announced), start, end, if target == Confirmed then At(confirmed) else None, now, now)
    case Some(c) =>
      var stage := if Advanced(read, target) then target else read.value.stage;
      ResetEvent(stage, Coalesce(resetType, c.resetType), Coalesce(c.announcedTs, At(announced)),
                 Coalesce(c.expectedStart, start), Coalesce(c.expectedEnd, end),
                 Coalesce(c.confirmedTs, if stage == Confirmed then At(confirmed) else None), c.firstSeen, now)
  }

  function EventOf(t: Tables, id: string): Option<ResetEvent> {
    if id in t.events then Some(t.events[id]) else None
  }

  predicate RecentEnough(cfg: Config, ts: Option<int>, now: int) {
    ts.Some? && 0 <= now - ts.value <= cfg.maxAge
  }

  function LatestObserved(evidence: seq<Evidence>): Option<int> {
    if evidence == [] then None else Some(evidence[|evidence| - 1].observedAt)
  }

  // ---- Deliveries ----

  predicate HasDelivery(rows: seq<Delivery>, id: string, stage: Stage) {
    exists i :: 0 <= i < |rows| && rows[i].id == id && rows[i].stage == stage
  }

  /** `INSERT OR IGNORE`. */
  function QueueDelivery(t: Tables, id: string, stage: Stage, now: int): Tables {
    if HasDelivery(t.deliveries, id, stage) then t
    else t.(deliveries := t.deliveries + [Delivery(id, stage, Waiting, 0, now)])
  }

  function MarkRow(rows: seq<Delivery>, id: string, stage: Stage, mark: Delivery -> Delivery): (r: seq<Delivery>)
    ensures |r| == |rows|
    ensures forall i :: 0 <= i < |rows| ==>
      r[i] == if rows[i].id == id && rows[i].stage == stage then mark(rows[i]) else rows[i]
  {
    seq(|rows|, i requires 0 <= i < |rows| =>
      if rows[i].id == id && rows[i].stage == stage then mark(rows[i]) else rows[i])
  }

  /** The delay before the attempt that follows the n-th failure. */
  function RetryDelay(cfg: Config, n: nat): nat
    requires n >= 1
  {
    if cfg.retryBase * Pow2(n - 1) <= cfg.retryMax then cfg.retryBase * Pow2(n - 1) else cfg.retryMax
  }

  /** A failed attempt, booked with the number of attempts read when the dispatch began. */
  function Failed(cfg: Config, d: Delivery, attemptsRead: nat, now: int): Delivery {
    d.(status := if attemptsRead + 1 >= cfg.maxAttempts then GaveUp else Waiting, attempts := d.attempts + 1,
       nextAttempt := now + RetryDelay(cfg, attemptsRead + 1))
  }

  function Succeeded(d: Delivery): Delivery { d.(status := Sent) }

  predicate ByNextAttempt(a: Delivery, b: Delivery) {
    a.nextAttempt < b.nextAttempt || (a.nextAttempt == b.nextAttempt && Rank(a.stage) <= Rank(b.stage))
  }

  function Due(rows: seq<Delivery>, now: int): seq<Delivery> {
    if rows == [] then []
    else
      var n := |rows| - 1;
      Due(rows[..n], now) + if rows[n].status == Waiting && rows[n].nextAttempt <= now then [rows[n]] else []
  }

  const DUE_LIMIT := 20

  function DueDeliveries(rows: seq<Delivery>, now: int): seq<Delivery> {
    var due := Sort(Due(rows, now), ByNextAttempt);
    if |due| <= DUE_LIMIT then due else due[..DUE_LIMIT]
  }

  function BookOutcome(cfg: Config, t: Tables, d: Delivery, now: int, delivered: nat): Tables {
    t.(deliveries :=
      if delivered >= 1 then MarkRow(t.deliveries, d.id, d.stage, (x: Delivery) => Succeeded(x))
      else MarkRow(t.deliveries, d.id, d.stage, (x: Delivery) => Failed(cfg, x, d.attempts, now)))
  }

  // ---- The steps of a tick on the tables ----

  /** What judging writes, given the evidence and the event that it read. */
  function AdvanceFrom(cfg: Config, t: Tables, id: string, evidence: seq<Evidence>, read: Option<ResetEvent>, now: int): Tables {
    match Classify(evidence, cfg.canonical)
    case None => t
    case Some(target) =>
      var event := UpsertEvent(EventOf(t, id), read, target, evidence, now);
      var t' := t.(events := t.events[id := event]);
      if !Advanced(read, target) then t'
      else
        var relevant := if target == Confirmed then event.confirmedTs else event.announcedTs;
        if RecentEnough(cfg, Coalesce(relevant, LatestObserved(evidence)), now) then QueueDelivery(t', id, target, now)
        else t'
  }

  /** Judging when nothing happens between the read and the write. */
  function AdvanceEvent(cfg: Config, t: Tables, id: string, now: int): Tables {
    AdvanceFrom(cfg, t, id, EvidenceFor(t.evidence, id), EventOf(t, id), now)
  }

  predicate Overdue(cfg: Config, e: ResetEvent, now: int) {
    e.stage == Announced && e.resetType != Some(Banked) && e.expectedEnd.Some? && e.expectedEnd.value + cfg.delayGrace < now
  }

  function DelayEvent(cfg: Config, t: Tables, id: string, now: int): Tables {
    if id !in t.events || !Overdue(cfg, t.events[id], now) then t
    else
      var e := t.events[id].(stage := Delayed, lastSeen := now);
      var t' := t.(events := t.events[id := e]);
      var ts := if e.expectedEnd.Some? && e.expectedEnd.value != 0 then e.expectedEnd else e.announcedTs;
      if RecentEnough(cfg, ts, now) then QueueDelivery(t', id, Delayed, now) else t'
  }

  // ---- The store as the source writes it ----

  class Store {
    const cfg: Config
    var evidence: seq<EvidenceRow>
    var events: map<string, ResetEvent>
    var deliveries: seq<Delivery>
    var lease: Option<Lease>

    function Contents(): Tables
      reads this
    {
      Tables(evidence, events, deliveries, lease)
    }

    constructor (cfg: Config)
      ensures this.cfg == cfg && Contents() == Tables([], map[], [], None)
    {
      this.cfg := cfg;
      evidence, events, deliveries, lease := [], map[], [], None;
    }

    method AcquireLease(owner: string, now: int) returns (ok: bool)
      modifies this`lease
      ensures ok <==> old(lease).None? || old(lease).value.expires <= now || old(lease).value.owner == owner
      ensures lease == if ok then Some(Lease(owner, now + cfg.ttl)) else old(lease)
      ensures Contents() == Acquire(old(Contents()), owner, now, cfg.ttl)
    {
      ok := lease.None? || lease.value.expires <= now || lease.value.owner == owner;
      if ok { lease := Some(Lease(owner, now + cfg.ttl)); }
    }

    method ReleaseLease(owner: string)
      modifies this`lease
      ensures Contents() == Release(old(Contents()), owner)
      ensures lease == if old(lease).Some? && old(lease).value.owner == owner then None else old(lease)
    {
      if lease.Some? && lease.value.owner == owner { lease := None; }
    }

    method Enqueue(id: string, stage: Stage, now: int)
      modifies this`deliveries
      ensures Contents() == QueueDelivery(old(Contents()), id, stage, now)
    {
      if !HasDelivery(deliveries, id, stage) { deliveries := deliveries + [Delivery(id, stage, Waiting, 0, now)]; }
    }

    method Advance(id: string, now: int)
      modifies this`events, this`deliveries
      ensures Contents() == AdvanceEvent(cfg, old(Contents()), id, now)
    {
      var found := EvidenceFor(evidence, id);
      var target := Classify(found, cfg.canonical);
      if target.None? { return; }
      var current := if id in events then Some(events[id]) else None;
      var event := UpsertEvent(current, current, target.value, found, now);
      events := events[id := event];
      if !Advanced(current, target.value) { return; }
      var relevant := if target.value == Confirmed then event.confirmedTs else event.announcedTs;
      if relevant.None? { relevant := LatestObserved(found); }
      if RecentEnough(cfg, relevant, now) { Enqueue(id, target.value, now); }
    }

    method Gather(id: string, e: Evidence)
      modifies this`evidence
      ensures Contents() == old(Contents()).(evidence := PutEvidence(old(evidence), id, e))
      ensures Lookup(evidence, e.sourceName, e.itemId) == Some(EvidenceRow(id, e))
      ensures forall source, item :: source != e.sourceName || item != e.itemId ==>
        Lookup(evidence, source, item) == Lookup(old(evidence), source, item)
      ensures KeyedOnce(old(evidence)) ==> KeyedOnce(evidence)
    {
      PutEvidenceKeyed(evidence, id, e);
      evidence := PutEvidence(evidence, id, e);
    }

    method Delay(id: string, now: int)
      modifies this`events, this`deliveries
      ensures Contents() == DelayEvent(cfg, old(Contents()), id, now)
    {
      if id !in events || !Overdue(cfg, events[id], now) { return; }
      events := events[id := events[id].(stage := Delayed, lastSeen := now)];
      var ts := if events[id].expectedEnd.value != 0 then events[id].expectedEnd else events[id].announcedTs;
      if RecentEnough(cfg, ts, now) { Enqueue(id, Delayed, now); }
    }

    /** The dispatch loop; the k-th broadcast reaches `outcomes(k)` channels. */
    method DispatchDue(now: int, outcomes: nat -> nat)
      modifies this`deliveries
      ensures Contents() == Dispatched(cfg, old(Contents()), DueDeliveries(old(deliveries), now), now, outcomes)
    {
      var due := DueDeliveries(deliveries, now);
      for i := 0 to |due|
        invariant Contents() == Dispatched(cfg, old(Contents()), due[..i], now, outcomes)
      {
        var d := due[i];
        var delivered := outcomes(i);
        assert due[..i + 1][..i] == due[..i];
        if delivered >= 1 {
          deliveries := MarkRow(deliveries, d.id, d.stage, (x: Delivery) => Succeeded(x));
          continue;
        }
        deliveries := MarkRow(deliveries, d.id, d.stage, (x: Delivery) => Failed(cfg, x, d.attempts, now));
      }
      assert due[..|due|] == due;
    }
  }

  function Dispatched(cfg: Config, t: Tables, due: seq<Delivery>, now: int, outcomes: nat -> nat): Tables {
    if due == [] then t
    else
      var n := |due| - 1;
      BookOutcome(cfg, Dispatched(cfg, t, due[..n], now, outcomes), due[n], now, outcomes(n))
  }
}
