/** Over every run of the reset monitor in which the lease never passes on while its holder is busy: one
    busy instance at a time, stages that only rise, and each message sent at most once and retried at most
    so often, not too soon. */
module ResetSafety {
  import opened Basics
  import opened Ordering
  import opened Confirmation
  import opened ResetStore
  import opened ResetMonitor

  // ---- Counting in the log ----

  function Attempts(log: seq<Obs>, id: string, stage: Stage): nat {
    if log == [] then 0
    else
      var o := log[|log| - 1];
      Attempts(log[..|log| - 1], id, stage) + if o.Attempt? && o.id == id && o.stage == stage then 1 else 0
  }

  function Results(log: seq<Obs>, id: string, stage: Stage, ok: bool): nat {
    if log == [] then 0
    else
      var o := log[|log| - 1];
      Results(log[..|log| - 1], id, stage, ok) + if o.Result? && o.id == id && o.stage == stage && o.ok == ok then 1 else 0
  }

  /** The last failed attempt. */
  function LastFailure(log: seq<Obs>, id: string, stage: Stage): (r: Option<Obs>)
    ensures r.Some? ==> r.value.Result?
  {
    if log == [] then None
    else
      var o := log[|log| - 1];
      if o.Result? && o.id == id && o.stage == stage && !o.ok then Some(o)
      else LastFailure(log[..|log| - 1], id, stage)
  }

  predicate About(o: Obs, id: string, stage: Stage) {
    (o.Attempt? || o.Result?) && o.id == id && o.stage == stage
  }

  lemma CountAppend(log: seq<Obs>, o: Obs, id: string, stage: Stage)
    ensures Attempts(log + [o], id, stage) == Attempts(log, id, stage) + if o.Attempt? && About(o, id, stage) then 1 else 0
    ensures Results(log + [o], id, stage, true)
      == Results(log, id, stage, true) + if o.Result? && About(o, id, stage) && o.ok then 1 else 0
    ensures Results(log + [o], id, stage, false)
      == Results(log, id, stage, false) + if o.Result? && About(o, id, stage) && !o.ok then 1 else 0
    ensures LastFailure(log + [o], id, stage)
      == if o.Result? && About(o, id, stage) && !o.ok then Some(o) else LastFailure(log, id, stage)
  {
    assert (log + [o])[..|log|] == log;
  }

  // ---- What may enter the log ----

  /** Stages of an event rise, and so do the stages queued for it; an attempt follows its queueing, no
      success, fewer than the maximum of attempts, and the retry delay of the last failure; a message
      succeeds at most once. */
  ghost predicate Proper(cfg: Config, log: seq<Obs>, o: Obs) {
    match o
    case Staged(id, stage) => forall k :: 0 <= k < |log| && log[k].Staged? && log[k].id == id ==> Rank(log[k].stage) < Rank(stage)
    case Enqueued(id, stage) => forall k :: 0 <= k < |log| && log[k].Enqueued? && log[k].id == id ==> Rank(log[k].stage) < Rank(stage)
    case Attempt(id, stage, began, _) =>
      && Enqueued(id, stage) in log
      && Results(log, id, stage, true) == 0
      && Attempts(log, id, stage) < cfg.maxAttempts
      && (Attempts(log, id, stage) >= 1 ==>
           && LastFailure(log, id, stage).Some?
           && began >= LastFailure(log, id, stage).value.began + RetryDelay(cfg, Attempts(log, id, stage)))
    case Result(id, stage, _, _, ok) => Results(log, id, stage, true) == 0 && Attempts(log, id, stage) >= 1
    case _ => true
  }

  ghost predicate LogOk(cfg: Config, log: seq<Obs>) {
    forall k :: 0 <= k < |log| ==> Proper(cfg, log[..k], log[k])
  }

  lemma LogAppend(cfg: Config, log: seq<Obs>, o: Obs)
    requires LogOk(cfg, log) && Proper(cfg, log, o)
    ensures LogOk(cfg, log + [o])
  {
    var log' := log + [o];
    forall k | 0 <= k < |log'| ensures Proper(cfg, log'[..k], log'[k]) {
      assert log'[..k] == log[..k];
      if k == |log| { assert log[..k] == log; }
    }
  }

  // ---- Invariant ----

  /** Whoever is busy holds the lease of that tick; so at most one instance is. */
  ghost predicate Exclusive(s: System) {
    forall owner: string :: Busy(PhaseOf(s, owner)) ==>
      s.tables.lease == Some(Lease(owner, PhaseOf(s, owner).until))
  }

  lemma OneTickAtATime(s: System, a: string, b: string)
    requires Exclusive(s) && Busy(PhaseOf(s, a)) && Busy(PhaseOf(s, b))
    ensures a == b
  {}

  ghost predicate StagesOk(log: seq<Obs>, events: map<string, ResetEvent>) {
    forall k :: 0 <= k < |log| && (log[k].Staged? || log[k].Enqueued?) ==>
      log[k].id in events && Rank(log[k].stage) <= Rank(events[log[k].id].stage)
  }

  ghost predicate DistinctDeliveries(rows: seq<Delivery>) {
    forall i, j :: 0 <= i < j < |rows| ==> !(rows[i].id == rows[j].id && rows[i].stage == rows[j].stage)
  }

  /** The row of a message agrees with its history; `sending` says that an attempt is under way. */
  ghost predicate RowOk(cfg: Config, log: seq<Obs>, d: Delivery, sending: bool) {
    && Enqueued(d.id, d.stage) in log
    && Results(log, d.id, d.stage, true) == (if d.status == Sent then 1 else 0)
    && Results(log, d.id, d.stage, false) == d.attempts
    && Attempts(log, d.id, d.stage) == d.attempts + (if d.status == Sent then 1 else 0) + (if sending then 1 else 0)
    && (d.status == Waiting ==> d.attempts < cfg.maxAttempts)
    && (d.status == Waiting && d.attempts >= 1 ==>
         && LastFailure(log, d.id, d.stage).Some?
         && d.nextAttempt >= LastFailure(log, d.id, d.stage).value.began + RetryDelay(cfg, d.attempts))
  }

  /** The message whose broadcast is under way, in the instance that holds the lease. */
  function SendingNow(s: System): Option<Delivery> {
    if s.tables.lease.None? then None
    else
      var phase := PhaseOf(s, s.tables.lease.value.owner);
      if phase.Dispatching? && phase.sending && phase.due != [] then Some(phase.due[0]) else None
  }

  predicate IsSending(s: System, d: Delivery) {
    SendingNow(s).Some? && SendingNow(s).value.id == d.id && SendingNow(s).value.stage == d.stage
  }

  ghost predicate DeliveriesOk(cfg: Config, s: System) {
    && DistinctDeliveries(s.tables.deliveries)
    && (forall i :: 0 <= i < |s.tables.deliveries| ==>
         RowOk(cfg, s.log, s.tables.deliveries[i], IsSending(s, s.tables.deliveries[i])))
    && (forall id, stage :: Enqueued(id, stage) in s.log ==> HasDelivery(s.tables.deliveries, id, stage))
    && (forall id, stage :: !HasDelivery(s.tables.deliveries, id, stage) ==>
         Attempts(s.log, id, stage) == 0 && Results(s.log, id, stage, true) == 0 && Results(s.log, id, stage, false) == 0)
  }

  /** What a dispatch has read is still what the table says. */
  ghost predicate DueOk(s: System, phase: Phase) {
    phase.Dispatching? ==>
      && DistinctDeliveries(phase.due)
      && (forall d :: d in phase.due ==> d in s.tables.deliveries && d.status == Waiting && d.nextAttempt <= phase.now)
      && (phase.sending ==> phase.due != [])
  }

  /** What a judge has read is still what the table says. */
  ghost predicate ReadsHold(s: System) {
    forall owner: string :: PhaseOf(s, owner).Judging? ==> EventOf(s.tables, PhaseOf(s, owner).id) == PhaseOf(s, owner).read
  }

  ghost predicate Inv(cfg: Config, s: System) {
    && Exclusive(s)
    && ReadsHold(s)
    && StagesOk(s.log, s.tables.events)
    && DeliveriesOk(cfg, s)
    && (forall owner: string :: DueOk(s, PhaseOf(s, owner)))
    && LogOk(cfg, s.log)
  }

  // ---- What a step does to an event ----

  /** A change to one event: stages rise or stay, fields that are set stay set, and at most one
      message is queued, for the new stage, and only if the stage rose. */
  ghost predicate Advances(t: Tables, t': Tables, id: string, now: int) {
    && t'.lease == t.lease && t'.evidence == t.evidence
    && (forall other :: other != id ==> (other in t'.events <==> other in t.events)
                                        && (other in t.events ==> t'.events[other] == t.events[other]))
    && (id in t.events ==> id in t'.events && Later(t.events[id], t'.events[id]))
    && (t'.deliveries == t.deliveries
        || (&& id in t'.events
            && (id in t.events ==> Rank(t'.events[id].stage) > Rank(t.events[id].stage))
            && !HasDelivery(t.deliveries, id, t'.events[id].stage)
            && t'.deliveries == t.deliveries + [Delivery(id, t'.events[id].stage, Waiting, 0, now)]))
  }

  /** The stage does not go down, and announced and confirmed times, once set, do not change. */
  ghost predicate Later(a: ResetEvent, b: ResetEvent) {
    && Rank(b.stage) >= Rank(a.stage)
    && b.firstSeen == a.firstSeen
    && (a.announcedTs.Some? ==> b.announcedTs == a.announcedTs)
    && (a.expectedStart.Some? ==> b.expectedStart == a.expectedStart)
    && (a.expectedEnd.Some? ==> b.expectedEnd == a.expectedEnd)
    && (a.confirmedTs.Some? ==> b.confirmedTs == a.confirmedTs)
  }

  lemma AdvanceAdvances(cfg: Config, t: Tables, id: string, evidence: seq<Evidence>, now: int)
    ensures Advances(t, AdvanceFrom(cfg, t, id, evidence, EventOf(t, id), now), id, now)
  {}

  lemma DelayAdvances(cfg: Config, t: Tables, id: string, now: int)
    ensures Advances(t, DelayEvent(cfg, t, id, now), id, now)
  {}

  // ---- One tick at a time ----

  lemma TickExclusive(cfg: Config, s: System, owner: string, at: int)
    requires Exclusive(s) && NoTakeover(s, Tick(owner, at))
    ensures Exclusive(Act(cfg, s, Tick(owner, at)))
  {
    var s' := Act(cfg, s, Tick(owner, at));
    forall o: string | Busy(PhaseOf(s', o))
      ensures s'.tables.lease == Some(Lease(o, PhaseOf(s', o).until))
    {
      var before := PhaseOf(s, o);
      if o != owner { assert PhaseOf(s', o) == before; }
    }
  }

  /** A step that keeps the lease, and the end of the lease of everyone who is still in a tick. */
  lemma SameLeaseExclusive(s: System, s': System)
    requires Exclusive(s) && s'.tables.lease == s.tables.lease
    requires forall o: string :: Busy(PhaseOf(s', o)) ==> Busy(PhaseOf(s, o)) && PhaseOf(s', o).until == PhaseOf(s, o).until
    ensures Exclusive(s')
  {}

  lemma AdvanceLease(cfg: Config, t: Tables, id: string, evidence: seq<Evidence>, read: Option<ResetEvent>, now: int)
    ensures AdvanceFrom(cfg, t, id, evidence, read, now).lease == t.lease
  {}

  lemma ActExclusive(cfg: Config, s: System, a: Action)
    requires Exclusive(s) && NoTakeover(s, a)
    ensures Exclusive(Act(cfg, s, a))
  {
    hide AdvanceFrom, DueDeliveries, PutEvidence, EvidenceFor, Classify, DelayEvent;
    var c := s.(clock := a.at);
    var s' := Act(cfg, s, a);
    var phase := PhaseOf(c, a.owner);
    assert phase == PhaseOf(s, a.owner);
    if a.Decide? && phase.Judging? { AdvanceLease(cfg, c.tables, phase.id, phase.evidence, phase.read, phase.now); }
    match a
    case Tick(owner, at) => TickExclusive(cfg, s, owner, at);
    case Close(_, _) =>
      forall o: string ensures PhaseOf(s', o) == PhaseOf(s, o) {}
    case Decide(_, _) => SameLeaseExclusive(s, s');
    case Delay(_, _, id) =>
      if phase.Collecting? { DelayAdvances(cfg, c.tables, id, phase.now); }
      SameLeaseExclusive(s, s');
    case _ => SameLeaseExclusive(s, s');
  }

  // ---- Judging and delaying ----

  /** Entries that are neither attempts nor results change no row's history. */
  lemma RowQuiet(cfg: Config, log: seq<Obs>, o: Obs, d: Delivery, sending: bool)
    requires RowOk(cfg, log, d, sending) && !o.Attempt? && !o.Result?
    ensures RowOk(cfg, log + [o], d, sending)
  {
    CountAppend(log, o, d.id, d.stage);
  }

  lemma StageEntry(cfg: Config, log: seq<Obs>, events: map<string, ResetEvent>, events': map<string, ResetEvent>, id: string, o: Obs)
    requires StagesOk(log, events) && LogOk(cfg, log)
    requires id in events' && (id in events ==> Rank(events'[id].stage) > Rank(events[id].stage))
    requires forall other :: other in events ==> other in events' && Rank(events'[other].stage) >= Rank(events[other].stage)
    requires o == Staged(id, events'[id].stage) || o == Enqueued(id, events'[id].stage)
    ensures Proper(cfg, log, o) && LogOk(cfg, log + [o]) && StagesOk(log + [o], events')
  {
    LogAppend(cfg, log, o);
  }

  lemma StagesLater(log: seq<Obs>, events: map<string, ResetEvent>, events': map<string, ResetEvent>)
    requires StagesOk(log, events)
    requires forall id :: id in events ==> id in events' && Rank(events'[id].stage) >= Rank(events[id].stage)
    ensures StagesOk(log, events')
  {}

  /** Booking a stage that rose, before anything is queued for it. */
  lemma TouchStages(cfg: Config, s: System, id: string, t: Tables, now: int)
    requires StagesOk(s.log, s.tables.events) && LogOk(cfg, s.log) && Advances(s.tables, t, id, now)
    ensures LogOk(cfg, Touch(s, id, t).log) && StagesOk(Touch(s, id, t).log, t.events)
  {
    var events, events' := s.tables.events, t.events;
    var moved := id in events' && (id !in events || events[id].stage != events'[id].stage);
    var staged := if moved then [Staged(id, events'[id].stage)] else [];
    StagesLater(s.log, events, events');
    assert s.log + [] == s.log;
    if moved { StageEntry(cfg, s.log, events, events', id, Staged(id, events'[id].stage)); }
    if |t.deliveries| > |s.tables.deliveries| {
      var o := Enqueued(id, events'[id].stage);
      StageEntry(cfg, s.log, events, events', id, o);
      QueuedAfterStaged(cfg, s.log, staged, events', o);
    }
    assert s.log + staged + [] == s.log + staged;
  }

  lemma QueuedAfterStaged(cfg: Config, log: seq<Obs>, staged: seq<Obs>, events: map<string, ResetEvent>, o: Obs)
    requires LogOk(cfg, log + staged) && StagesOk(log + staged, events) && Proper(cfg, log, o) && o.Enqueued?
    requires forall k :: 0 <= k < |staged| ==> staged[k].Staged?
    requires o.id in events && o.stage == events[o.id].stage
    ensures LogOk(cfg, log + staged + [o]) && StagesOk(log + staged + [o], events)
  {
    var all := log + staged;
    forall k | 0 <= k < |all| && all[k].Enqueued? && all[k].id == o.id ensures Rank(all[k].stage) < Rank(o.stage) {
      assert k < |log| ==> all[k] == log[k];
    }
    LogAppend(cfg, all, o);
  }

  /** A history in which nothing was sent or heard. */
  ghost predicate Silent(log: seq<Obs>, id: string, stage: Stage) {
    Attempts(log, id, stage) == 0 && Results(log, id, stage, true) == 0 && Results(log, id, stage, false) == 0
  }

  /** Booking a staged entry leaves the deliveries' histories alone. */
  lemma StagedKeepsDeliveries(cfg: Config, s: System, o: Obs)
    requires DeliveriesOk(cfg, s) && SendingNow(s) == None && o.Staged?
    ensures DeliveriesOk(cfg, s.(log := s.log + [o]))
  {
    var s' := s.(log := s.log + [o]);
    forall i | 0 <= i < |s.tables.deliveries|
      ensures RowOk(cfg, s'.log, s.tables.deliveries[i], IsSending(s', s.tables.deliveries[i]))
    {
      RowQuiet(cfg, s.log, o, s.tables.deliveries[i], false);
    }
    forall id, stage ensures Silent(s.log, id, stage) ==> Silent(s'.log, id, stage) { CountAppend(s.log, o, id, stage); }
  }

  /** The deliveries after one more log entry, put together. */
  lemma DeliveriesFrom(cfg: Config, s: System, s': System, o: Obs)
    requires DeliveriesOk(cfg, s) && s'.log == s.log + [o] && DistinctDeliveries(s'.tables.deliveries)
    requires forall i :: 0 <= i < |s'.tables.deliveries| ==>
      RowOk(cfg, s'.log, s'.tables.deliveries[i], IsSending(s', s'.tables.deliveries[i]))
    requires forall id, stage :: HasDelivery(s.tables.deliveries, id, stage) ==> HasDelivery(s'.tables.deliveries, id, stage)
    requires o.Enqueued? ==> HasDelivery(s'.tables.deliveries, o.id, o.stage)
    requires forall id, stage :: !HasDelivery(s'.tables.deliveries, id, stage) ==> Silent(s'.log, id, stage)
    ensures DeliveriesOk(cfg, s')
  {
    hide RowOk, DistinctDeliveries, HasDelivery, IsSending;
  }

  lemma QueueRow(cfg: Config, log: seq<Obs>, id: string, stage: Stage, now: int)
    requires Silent(log, id, stage) && cfg.maxAttempts >= 1
    ensures RowOk(cfg, log + [Enqueued(id, stage)], Delivery(id, stage, Waiting, 0, now), false)
  {
    CountAppend(log, Enqueued(id, stage), id, stage);
  }

  lemma QueueKeepsDeliveries(cfg: Config, s: System, id: string, stage: Stage, now: int)
    requires DeliveriesOk(cfg, s) && SendingNow(s) == None && cfg.maxAttempts >= 1
    requires !HasDelivery(s.tables.deliveries, id, stage)
    ensures DeliveriesOk(cfg, s.(tables := s.tables.(deliveries := s.tables.deliveries + [Delivery(id, stage, Waiting, 0, now)]),
                                 log := s.log + [Enqueued(id, stage)]))
  {
    var rows := s.tables.deliveries;
    var row := Delivery(id, stage, Waiting, 0, now);
    var o := Enqueued(id, stage);
    var s' := s.(tables := s.tables.(deliveries := rows + [row]), log := s.log + [o]);
    assert Silent(s.log, id, stage);
    QueueRow(cfg, s.log, id, stage, now);
    hide RowOk;
    forall i | 0 <= i < |rows + [row]|
      ensures RowOk(cfg, s'.log, (rows + [row])[i], IsSending(s', (rows + [row])[i]))
    {
      if i < |rows| { RowQuiet(cfg, s.log, o, rows[i], false); }
    }
    forall i', st | HasDelivery(rows, i', st) ensures HasDelivery(rows + [row], i', st) {
      var k :| 0 <= k < |rows| && rows[k].id == i' && rows[k].stage == st;
      assert (rows + [row])[k] == rows[k];
    }
    assert (rows + [row])[|rows|] == row;
    forall i', st ensures Silent(s.log, i', st) ==> Silent(s'.log, i', st) { CountAppend(s.log, o, i', st); }
    assert DistinctDeliveries(rows + [row]);
    hide DeliveriesOk, DistinctDeliveries, HasDelivery, Silent;
    DeliveriesFrom(cfg, s, s', o);
  }

  /** Only the deliveries, the lease, the phases and the log matter for the deliveries. */
  lemma SameDeliveries(cfg: Config, s: System, s': System)
    requires DeliveriesOk(cfg, s)
    requires s'.tables.deliveries == s.tables.deliveries && s'.log == s.log && SendingNow(s') == SendingNow(s)
    ensures DeliveriesOk(cfg, s')
  {
    forall i | 0 <= i < |s.tables.deliveries|
      ensures RowOk(cfg, s'.log, s'.tables.deliveries[i], IsSending(s', s'.tables.deliveries[i]))
    {
      assert RowOk(cfg, s.log, s.tables.deliveries[i], IsSending(s, s.tables.deliveries[i]));
    }
  }

  lemma TouchDeliveries(cfg: Config, s: System, id: string, t: Tables, now: int)
    requires DeliveriesOk(cfg, s) && SendingNow(s) == None && cfg.maxAttempts >= 1
    requires Advances(s.tables, t, id, now)
    ensures DeliveriesOk(cfg, Touch(s, id, t))
  {
    var moved := id in t.events && (id !in s.tables.events || s.tables.events[id].stage != t.events[id].stage);
    var o := if moved then Staged(id, t.events[id].stage) else Released("");
    var s1 := if moved then s.(log := s.log + [o]) else s;
    if moved { StagedKeepsDeliveries(cfg, s, o); }
    assert s.log + [] == s.log && s1.log + [] == s1.log;
    if |t.deliveries| > |s.tables.deliveries| {
      QueueKeepsDeliveries(cfg, s1, id, t.events[id].stage, now);
      var s2 := s1.(tables := s1.tables.(deliveries := t.deliveries), log := s1.log + [Enqueued(id, t.events[id].stage)]);
      SameDeliveries(cfg, s2, Touch(s, id, t));
    } else {
      SameDeliveries(cfg, s1, Touch(s, id, t));
    }
  }

  lemma TouchKeeps(cfg: Config, s: System, owner: string, id: string, t: Tables, now: int)
    requires Inv(cfg, s) && PhaseOf(s, owner).Collecting? && cfg.maxAttempts >= 1 && Advances(s.tables, t, id, now)
    ensures Inv(cfg, Touch(s, id, t))
  {
    var s' := Touch(s, id, t);
    assert SendingNow(s) == None;
    TouchStages(cfg, s, id, t, now);
    TouchDeliveries(cfg, s, id, t, now);
    forall o: string ensures DueOk(s', PhaseOf(s', o)) {
      assert DueOk(s, PhaseOf(s, o));
      if Busy(PhaseOf(s, o)) { OneTickAtATime(s, o, owner); }
    }
    SameLeaseExclusive(s, s');
  }

  // ---- Reading the due deliveries ----

  lemma {:induction false} DueMember(rows: seq<Delivery>, now: int, d: Delivery)
    ensures d in Due(rows, now) <==> d in rows && d.status == Waiting && d.nextAttempt <= now
  {
    if rows != [] { DueMember(rows[..|rows| - 1], now, d); }
  }

  predicate SameMessage(a: Delivery, b: Delivery) { a.id == b.id && a.stage == b.stage }

  lemma {:induction false} DueApart(rows: seq<Delivery>, now: int)
    requires DistinctDeliveries(rows)
    ensures Apart(Due(rows, now), SameMessage)
  {
    if rows != [] {
      var n := |rows| - 1;
      DueApart(rows[..n], now);
      var rest := Due(rows[..n], now);
      forall i | 0 <= i < |rest| ensures !SameMessage(rest[i], rows[n]) {
        DueMember(rows[..n], now, rest[i]);
      }
    }
  }

  lemma LoadDue(rows: seq<Delivery>, now: int)
    requires DistinctDeliveries(rows)
    ensures DistinctDeliveries(DueDeliveries(rows, now))
    ensures forall d :: d in DueDeliveries(rows, now) ==> d in rows && d.status == Waiting && d.nextAttempt <= now
  {
    DueApart(rows, now);
    SortApart(Due(rows, now), ByNextAttempt, SameMessage);
    var sorted := Sort(Due(rows, now), ByNextAttempt);
    assert forall i, j :: 0 <= i < j < |sorted| ==> !SameMessage(sorted[i], sorted[j]);
    hide Sort, Due, Apart;
    forall d | d in DueDeliveries(rows, now) ensures d in rows && d.status == Waiting && d.nextAttempt <= now {
      assert d in sorted;
      SortMember(Due(rows, now), ByNextAttempt, d);
      DueMember(rows, now, d);
    }
  }

  // ---- Sending ----

  /** The instance in a tick is the only one, so what it sends is what is being sent. */
  lemma HolderSends(s: System, owner: string)
    requires Exclusive(s) && Busy(PhaseOf(s, owner))
    ensures s.tables.lease.Some? && s.tables.lease.value.owner == owner
    ensures forall o: string :: o != owner ==> !Busy(PhaseOf(s, o))
  {
    assert s.tables.lease == Some(Lease(owner, PhaseOf(s, owner).until));
  }

  lemma OtherMessage(cfg: Config, log: seq<Obs>, o: Obs, d: Delivery, sending: bool)
    requires RowOk(cfg, log, d, sending) && !About(o, d.id, d.stage)
    ensures RowOk(cfg, log + [o], d, sending)
  {
    CountAppend(log, o, d.id, d.stage);
  }

  lemma RowIndex(rows: seq<Delivery>, d: Delivery) returns (k: nat)
    requires d in rows
    ensures k < |rows| && rows[k] == d
  {
    k :| k < |rows| && rows[k] == d;
  }

  lemma SendRow(cfg: Config, log: seq<Obs>, d: Delivery, now: int, at: int)
    requires RowOk(cfg, log, d, false) && d.status == Waiting && d.nextAttempt <= now
    ensures RowOk(cfg, log + [Attempt(d.id, d.stage, now, at)], d, true)
    ensures Proper(cfg, log, Attempt(d.id, d.stage, now, at))
  {
    CountAppend(log, Attempt(d.id, d.stage, now, at), d.id, d.stage);
  }

  lemma SendKeepsRows(cfg: Config, s: System, s': System, d: Delivery, now: int, at: int, k: nat)
    requires DeliveriesOk(cfg, s) && LogOk(cfg, s.log) && SendingNow(s) == None
    requires k < |s.tables.deliveries| && s.tables.deliveries[k] == d && d.status == Waiting && d.nextAttempt <= now
    requires s'.tables == s.tables && s'.log == s.log + [Attempt(d.id, d.stage, now, at)] && SendingNow(s') == Some(d)
    ensures DeliveriesOk(cfg, s') && LogOk(cfg, s'.log)
  {
    var o := Attempt(d.id, d.stage, now, at);
    var rows := s.tables.deliveries;
    assert RowOk(cfg, s.log, rows[k], false);
    SendRow(cfg, s.log, d, now, at);
    hide RowOk, Proper, LogOk, SendingNow;
    LogAppend(cfg, s.log, o);
    forall i | 0 <= i < |rows| ensures RowOk(cfg, s'.log, rows[i], IsSending(s', rows[i])) {
      assert RowOk(cfg, s.log, rows[i], false);
      if i != k { OtherMessage(cfg, s.log, o, rows[i], false); }
    }
    forall id, stage | !HasDelivery(rows, id, stage) ensures Silent(s'.log, id, stage) {
      assert !About(o, id, stage);
      CountAppend(s.log, o, id, stage);
    }
    hide DeliveriesOk, DistinctDeliveries, HasDelivery, Silent;
    DeliveriesFrom(cfg, s, s', o);
  }

  /** A failed attempt moves the next one behind the retry delay; a success ends the row. */
  lemma HearRow(cfg: Config, log: seq<Obs>, d: Delivery, now: int, at: int, ok: bool)
    requires RowOk(cfg, log, d, true) && d.status == Waiting && cfg.maxAttempts >= 1
    ensures RowOk(cfg, log + [Result(d.id, d.stage, now, at, ok)], if ok then Succeeded(d) else Failed(cfg, d, d.attempts, now), false)
    ensures Proper(cfg, log, Result(d.id, d.stage, now, at, ok))
  {
    CountAppend(log, Result(d.id, d.stage, now, at, ok), d.id, d.stage);
  }

  /** Booking an outcome changes the one row of that message. */
  lemma BookedRows(cfg: Config, t: Tables, d: Delivery, now: int, delivered: nat, k: nat)
    requires DistinctDeliveries(t.deliveries) && k < |t.deliveries| && t.deliveries[k] == d
    ensures var rows, rows' := t.deliveries, BookOutcome(cfg, t, d, now, delivered).deliveries;
            && |rows'| == |rows|
            && rows'[k] == (if delivered >= 1 then Succeeded(d) else Failed(cfg, d, d.attempts, now))
            && (forall i :: 0 <= i < |rows| && i != k ==> rows'[i] == rows[i] && !SameMessage(rows[i], d))
            && (forall i :: 0 <= i < |rows| ==> SameMessage(rows'[i], rows[i]))
  {
    forall i | 0 <= i < |t.deliveries| && i != k ensures !SameMessage(t.deliveries[i], d) {}
  }

  lemma SameKeys(rows: seq<Delivery>, rows': seq<Delivery>)
    requires |rows'| == |rows| && forall i :: 0 <= i < |rows| ==> SameMessage(rows'[i], rows[i])
    requires DistinctDeliveries(rows)
    ensures DistinctDeliveries(rows')
    ensures forall id, stage :: HasDelivery(rows', id, stage) <==> HasDelivery(rows, id, stage)
  {
    forall id, stage ensures HasDelivery(rows', id, stage) <==> HasDelivery(rows, id, stage) {
      if i :| 0 <= i < |rows| && rows[i].id == id && rows[i].stage == stage { assert SameMessage(rows'[i], rows[i]); }
      if i :| 0 <= i < |rows'| && rows'[i].id == id && rows'[i].stage == stage { assert SameMessage(rows'[i], rows[i]); }
    }
  }

  lemma HearOneRow(cfg: Config, s: System, d: Delivery, now: int, at: int, delivered: nat, k: nat, i: nat)
    requires DeliveriesOk(cfg, s) && cfg.maxAttempts >= 1 && SendingNow(s) == Some(d)
    requires k < |s.tables.deliveries| && s.tables.deliveries[k] == d && d.status == Waiting
    requires i < |s.tables.deliveries|
    ensures |BookOutcome(cfg, s.tables, d, now, delivered).deliveries| == |s.tables.deliveries|
    ensures RowOk(cfg, s.log + [Result(d.id, d.stage, now, at, delivered >= 1)],
                  BookOutcome(cfg, s.tables, d, now, delivered).deliveries[i], false)
  {
    var o := Result(d.id, d.stage, now, at, delivered >= 1);
    var row := s.tables.deliveries[i];
    BookedRows(cfg, s.tables, d, now, delivered, k);
    assert RowOk(cfg, s.log, row, IsSending(s, row));
    hide RowOk, BookOutcome, DeliveriesOk, Failed, Succeeded;
    if i == k { HearRow(cfg, s.log, d, now, at, delivered >= 1); } else { OtherMessage(cfg, s.log, o, row, false); }
  }

  lemma HearKeepsRows(cfg: Config, s: System, s': System, d: Delivery, now: int, at: int, delivered: nat, k: nat)
    requires DeliveriesOk(cfg, s) && LogOk(cfg, s.log) && cfg.maxAttempts >= 1 && SendingNow(s) == Some(d)
    requires k < |s.tables.deliveries| && s.tables.deliveries[k] == d && d.status == Waiting
    requires s'.tables == BookOutcome(cfg, s.tables, d, now, delivered) && SendingNow(s') == None
    requires s'.log == s.log + [Result(d.id, d.stage, now, at, delivered >= 1)]
    ensures DeliveriesOk(cfg, s') && LogOk(cfg, s'.log)
  {
    var o := Result(d.id, d.stage, now, at, delivered >= 1);
    var rows, rows' := s.tables.deliveries, s'.tables.deliveries;
    assert RowOk(cfg, s.log, d, true);
    hide RowOk, LogOk, SendingNow, Failed, Succeeded, DistinctDeliveries;
    BookedRows(cfg, s.tables, d, now, delivered, k);
    SameKeys(rows, rows');
    hide BookOutcome;
    HearRow(cfg, s.log, d, now, at, delivered >= 1);
    LogAppend(cfg, s.log, o);
    hide Proper;
    HearRows(cfg, s, s', d, now, at, delivered, k);
    hide IsSending;
    forall id, stage | !HasDelivery(rows, id, stage) ensures Silent(s'.log, id, stage) {
      SilentElsewhere(cfg, s, o, k, id, stage);
    }
    hide DeliveriesOk, HasDelivery, Silent;
    DeliveriesFrom(cfg, s, s', o);
  }

  lemma HearRows(cfg: Config, s: System, s': System, d: Delivery, now: int, at: int, delivered: nat, k: nat)
    requires DeliveriesOk(cfg, s) && cfg.maxAttempts >= 1 && SendingNow(s) == Some(d)
    requires k < |s.tables.deliveries| && s.tables.deliveries[k] == d && d.status == Waiting
    requires s'.tables == BookOutcome(cfg, s.tables, d, now, delivered) && SendingNow(s') == None
    requires s'.log == s.log + [Result(d.id, d.stage, now, at, delivered >= 1)]
    ensures forall i :: 0 <= i < |s'.tables.deliveries| ==>
      RowOk(cfg, s'.log, s'.tables.deliveries[i], IsSending(s', s'.tables.deliveries[i]))
  {
    assert DistinctDeliveries(s.tables.deliveries);
    BookedRows(cfg, s.tables, d, now, delivered, k);
    hide RowOk, BookOutcome, DeliveriesOk, SendingNow;
    forall i | 0 <= i < |s'.tables.deliveries|
      ensures RowOk(cfg, s'.log, s'.tables.deliveries[i], IsSending(s', s'.tables.deliveries[i]))
    {
      HearOneRow(cfg, s, d, now, at, delivered, k, i);
    }
  }

  lemma SilentElsewhere(cfg: Config, s: System, o: Obs, k: nat, id: string, stage: Stage)
    requires DeliveriesOk(cfg, s) && !HasDelivery(s.tables.deliveries, id, stage) && o.Result?
    requires k < |s.tables.deliveries| && o.id == s.tables.deliveries[k].id && o.stage == s.tables.deliveries[k].stage
    ensures Silent(s.log + [o], id, stage)
  {
    hide RowOk, IsSending, DistinctDeliveries;
    assert !(s.tables.deliveries[k].id == id && s.tables.deliveries[k].stage == stage);
    CountAppend(s.log, o, id, stage);
  }

  lemma QuietStages(log: seq<Obs>, o: Obs, events: map<string, ResetEvent>)
    requires StagesOk(log, events) && !o.Staged? && !o.Enqueued?
    ensures StagesOk(log + [o], events)
  {}

  lemma SendKeeps(cfg: Config, s: System, owner: string, at: int)
    requires Inv(cfg, s) && PhaseOf(s, owner).Dispatching? && !PhaseOf(s, owner).sending && PhaseOf(s, owner).due != []
    ensures Inv(cfg, Act(cfg, s, Send(owner, at)))
  {
    var s' := Act(cfg, s, Send(owner, at));
    var phase := PhaseOf(s, owner);
    var d := phase.due[0];
    HolderSends(s, owner);
    assert DueOk(s, phase);
    var k := RowIndex(s.tables.deliveries, d);
    SendKeepsRows(cfg, s, s', d, phase.now, at, k);
    QuietStages(s.log, Attempt(d.id, d.stage, phase.now, at), s.tables.events);
    assert PhaseOf(s', owner) == phase.(sending := true);
    forall o: string ensures DueOk(s', PhaseOf(s', o)) {
      assert DueOk(s, PhaseOf(s, o)) && (o != owner ==> PhaseOf(s', o) == PhaseOf(s, o));
    }
    forall o: string | Busy(PhaseOf(s', o)) ensures s'.tables.lease == Some(Lease(o, PhaseOf(s', o).until)) {
      assert o != owner ==> PhaseOf(s', o) == PhaseOf(s, o);
    }
  }

  lemma RestDue(rows: seq<Delivery>, rows': seq<Delivery>, due: seq<Delivery>, k: nat, now: int)
    requires due != [] && DistinctDeliveries(due) && k < |rows| == |rows'| && rows[k] == due[0]
    requires forall i :: 0 <= i < |rows| && i != k ==> rows'[i] == rows[i]
    requires forall d :: d in due ==> d in rows && d.status == Waiting && d.nextAttempt <= now
    ensures DistinctDeliveries(due[1..])
    ensures forall d :: d in due[1..] ==> d in rows' && d.status == Waiting && d.nextAttempt <= now
  {
    forall d | d in due[1..] ensures d in rows' {
      var i := RowIndex(rows, d);
      var j :| 1 <= j < |due| && due[j] == d;
      assert rows'[i] == d;
    }
  }

  lemma HearKeeps(cfg: Config, s: System, owner: string, at: int, delivered: nat)
    requires Inv(cfg, s) && PhaseOf(s, owner).Dispatching? && PhaseOf(s, owner).sending && PhaseOf(s, owner).due != []
    requires cfg.maxAttempts >= 1
    ensures Inv(cfg, Act(cfg, s, Hear(owner, at, delivered)))
  {
    var s' := Act(cfg, s, Hear(owner, at, delivered));
    var phase := PhaseOf(s, owner);
    var d := phase.due[0];
    HolderSends(s, owner);
    assert DueOk(s, phase);
    var k := RowIndex(s.tables.deliveries, d);
    assert PhaseOf(s', owner) == phase.(due := phase.due[1..], sending := false);
    HearKeepsRows(cfg, s, s', d, phase.now, at, delivered, k);
    BookedRows(cfg, s.tables, d, phase.now, delivered, k);
    QuietStages(s.log, Result(d.id, d.stage, phase.now, at, delivered >= 1), s.tables.events);
    RestDue(s.tables.deliveries, s'.tables.deliveries, phase.due, k, phase.now);
    forall o: string ensures DueOk(s', PhaseOf(s', o)) {
      assert DueOk(s, PhaseOf(s, o)) && (o != owner ==> PhaseOf(s', o) == PhaseOf(s, o));
    }
    forall o: string | Busy(PhaseOf(s', o)) ensures s'.tables.lease == Some(Lease(o, PhaseOf(s', o).until)) {
      assert o != owner ==> PhaseOf(s', o) == PhaseOf(s, o);
    }
  }

  // ---- The remaining steps ----

  /** Steps that change no delivery, no event and no history beyond a lease entry. */
  lemma QuietKeeps(cfg: Config, s: System, s': System)
    requires Inv(cfg, s) && Exclusive(s') && ReadsHold(s')
    requires s'.tables.deliveries == s.tables.deliveries && s'.tables.events == s.tables.events
    requires SendingNow(s) == SendingNow(s')
    requires s'.log == s.log || exists o: Obs :: (o.Acquired? || o.Released?) && s'.log == s.log + [o]
    requires forall owner: string :: DueOk(s', PhaseOf(s', owner))
    ensures Inv(cfg, s')
  {
    if s'.log != s.log {
      var o: Obs :| (o.Acquired? || o.Released?) && s'.log == s.log + [o];
      LogAppend(cfg, s.log, o);
      QuietStages(s.log, o, s.tables.events);
      forall i | 0 <= i < |s.tables.deliveries|
        ensures RowOk(cfg, s'.log, s'.tables.deliveries[i], IsSending(s', s'.tables.deliveries[i]))
      {
        RowQuiet(cfg, s.log, o, s.tables.deliveries[i], IsSending(s, s.tables.deliveries[i]));
      }
      forall id, stage ensures Silent(s.log, id, stage) ==> Silent(s'.log, id, stage) { CountAppend(s.log, o, id, stage); }
    } else {
      SameDeliveries(cfg, s, s');
    }
  }

  lemma NobodySends(s: System, at: int, owner: string)
    requires Exclusive(s) && NoTakeover(s, Tick(owner, at)) && PhaseOf(s, owner).Off? && LeaseFree(s.tables.lease, owner, at)
    ensures SendingNow(s) == None
    ensures forall o: string :: !Busy(PhaseOf(s, o))
  {
    forall o: string ensures !Busy(PhaseOf(s, o)) {
      if Busy(PhaseOf(s, o)) { HolderSends(s, o); }
    }
  }

  /** A step that writes no event leaves what was read. */
  lemma QuietReads(cfg: Config, s: System, a: Action)
    requires ReadsHold(s) && Act(cfg, s, a).tables.events == s.tables.events
    ensures ReadsHold(Act(cfg, s, a))
  {
    var s' := Act(cfg, s, a);
    hide AdvanceFrom, DelayEvent, DueDeliveries, BookOutcome, PutEvidence, EvidenceFor, Classify;
    assert PhaseOf(s.(clock := a.at), a.owner) == PhaseOf(s, a.owner);
    forall o: string | PhaseOf(s', o).Judging? ensures EventOf(s'.tables, PhaseOf(s', o).id) == PhaseOf(s', o).read {
      assert o != a.owner || !a.Judge? || !PhaseOf(s, o).Collecting? ==> PhaseOf(s', o) == PhaseOf(s, o);
    }
  }

  lemma TickKeeps(cfg: Config, s: System, owner: string, at: int)
    requires Inv(cfg, s) && NoTakeover(s, Tick(owner, at))
    ensures Inv(cfg, Act(cfg, s, Tick(owner, at)))
  {
    var s' := Act(cfg, s, Tick(owner, at));
    TickExclusive(cfg, s, owner, at);
    if PhaseOf(s, owner).Off? && LeaseFree(s.tables.lease, owner, at) {
      NobodySends(s, at, owner);
      assert s'.log == s.log + [Acquired(owner, at, at + cfg.ttl)];
    }
    forall o: string ensures DueOk(s', PhaseOf(s', o)) { assert DueOk(s, PhaseOf(s, o)); }
    QuietReads(cfg, s, Tick(owner, at));
    QuietKeeps(cfg, s, s');
  }

  lemma CloseKeeps(cfg: Config, s: System, owner: string, at: int)
    requires Inv(cfg, s) && NoTakeover(s, Close(owner, at))
    ensures Inv(cfg, Act(cfg, s, Close(owner, at)))
  {
    var s' := Act(cfg, s, Close(owner, at));
    ActExclusive(cfg, s, Close(owner, at));
    forall o: string ensures DueOk(s', PhaseOf(s', o)) { assert DueOk(s, PhaseOf(s, o)) && PhaseOf(s', o) == PhaseOf(s, o); }
    if PhaseOf(s, owner).Off? { assert s'.log == s.log + [Released(owner)]; }
    QuietReads(cfg, s, Close(owner, at));
    QuietKeeps(cfg, s, s');
  }

  lemma LoadKeeps(cfg: Config, s: System, owner: string, at: int)
    requires Inv(cfg, s) && NoTakeover(s, Load(owner, at)) && PhaseOf(s, owner).Collecting?
    ensures Inv(cfg, Act(cfg, s, Load(owner, at)))
  {
    var s' := Act(cfg, s, Load(owner, at));
    HolderSends(s, owner);
    ActExclusive(cfg, s, Load(owner, at));
    LoadDue(s.tables.deliveries, PhaseOf(s, owner).now);
    forall o: string ensures DueOk(s', PhaseOf(s', o)) { assert o != owner ==> PhaseOf(s', o) == PhaseOf(s, o); }
    QuietReads(cfg, s, Load(owner, at));
    QuietKeeps(cfg, s, s');
  }

  lemma EndKeeps(cfg: Config, s: System, a: Action)
    requires Inv(cfg, s) && NoTakeover(s, a) && (a.End? || a.Gather? || a.Judge?)
    ensures Inv(cfg, Act(cfg, s, a))
  {
    var s' := Act(cfg, s, a);
    ActExclusive(cfg, s, a);
    forall o: string ensures DueOk(s', PhaseOf(s', o)) {
      assert DueOk(s, PhaseOf(s, o));
      assert o != a.owner ==> PhaseOf(s', o) == PhaseOf(s, o);
    }
    QuietReads(cfg, s, a);
    QuietKeeps(cfg, s, s');
  }

  /** A judge that writes has read what is there. */
  lemma DecideKeeps(cfg: Config, s: System, owner: string, at: int)
    requires Inv(cfg, s) && cfg.maxAttempts >= 1 && PhaseOf(s, owner).Judging?
    ensures Inv(cfg, Act(cfg, s, Decide(owner, at)))
  {
    hide AdvanceFrom, Inv, Touch, Advances;
    var phase := PhaseOf(s, owner);
    var back := s.(clock := at, phases := s.phases[owner := Collecting(phase.now, phase.until)]);
    JudgedKeeps(cfg, s, owner, back);
    HoldsRead(cfg, s, owner);
    AdvanceAdvances(cfg, s.tables, phase.id, phase.evidence, phase.now);
    TouchKeeps(cfg, back, owner, phase.id, AdvanceFrom(cfg, s.tables, phase.id, phase.evidence, phase.read, phase.now), phase.now);
    TouchPhases(s.(clock := at), owner, Collecting(phase.now, phase.until), phase.id,
                AdvanceFrom(cfg, s.tables, phase.id, phase.evidence, phase.read, phase.now));
  }

  lemma HoldsRead(cfg: Config, s: System, owner: string)
    requires Inv(cfg, s) && PhaseOf(s, owner).Judging?
    ensures EventOf(s.tables, PhaseOf(s, owner).id) == PhaseOf(s, owner).read
  {}

  lemma TouchPhases(s: System, owner: string, phase: Phase, id: string, t: Tables)
    ensures Touch(s.(phases := s.phases[owner := phase]), id, t) == Touch(s, id, t).(phases := s.phases[owner := phase])
  {}

  lemma JudgedKeeps(cfg: Config, s: System, owner: string, s': System)
    requires Inv(cfg, s) && PhaseOf(s, owner).Judging?
    requires s' == s.(clock := s'.clock, phases := s.phases[owner := Collecting(PhaseOf(s, owner).now, PhaseOf(s, owner).until)])
    ensures Inv(cfg, s') && PhaseOf(s', owner).Collecting?
  {
    forall o: string ensures DueOk(s', PhaseOf(s', o)) {
      assert DueOk(s, PhaseOf(s, o));
      assert o != owner ==> PhaseOf(s', o) == PhaseOf(s, o);
    }
    forall o: string | o != owner ensures PhaseOf(s', o) == PhaseOf(s, o) {}
    SameLeaseExclusive(s, s');
    QuietKeeps(cfg, s, s');
  }

  lemma StillKeeps(cfg: Config, s: System, at: int)
    requires Inv(cfg, s)
    ensures Inv(cfg, s.(clock := at))
  {
    var s' := s.(clock := at);
    forall o: string ensures DueOk(s', PhaseOf(s', o)) { assert DueOk(s, PhaseOf(s, o)) && PhaseOf(s', o) == PhaseOf(s, o); }
    SameLeaseExclusive(s, s');
    QuietKeeps(cfg, s, s');
  }

  lemma ActKeeps(cfg: Config, s: System, a: Action)
    requires Inv(cfg, s) && NoTakeover(s, a) && cfg.maxAttempts >= 1
    ensures Inv(cfg, Act(cfg, s, a))
  {
    var c := s.(clock := a.at);
    StillKeeps(cfg, s, a.at);
    var phase := PhaseOf(c, a.owner);
    assert phase == PhaseOf(s, a.owner);
    match a
    case Tick(owner, at) => TickKeeps(cfg, s, owner, at);
    case Gather(_, _, _, _) => EndKeeps(cfg, s, a);
    case Judge(_, _, _) => EndKeeps(cfg, s, a);
    case Decide(owner, at) => if phase.Judging? { DecideKeeps(cfg, s, owner, at); }
    case Delay(owner, _, id) =>
      if phase.Collecting? {
        DelayAdvances(cfg, c.tables, id, phase.now);
        TouchKeeps(cfg, c, owner, id, DelayEvent(cfg, c.tables, id, phase.now), phase.now);
      }
    case Load(owner, at) => if phase.Collecting? { LoadKeeps(cfg, s, owner, at); }
    case Send(owner, at) => if phase.Dispatching? && !phase.sending && phase.due != [] { SendKeeps(cfg, s, owner, at); }
    case Hear(owner, at, delivered) =>
      if phase.Dispatching? && phase.sending && phase.due != [] { HearKeeps(cfg, s, owner, at, delivered); }
    case End(_, _) => EndKeeps(cfg, s, a);
    case Close(owner, at) => CloseKeeps(cfg, s, owner, at);
  }

  /** Over every run in which the lease does not pass on while its holder is busy, however many instances
      take part and however long their ticks last: at most one is busy, stages and queued stages of an
      event rise, and every message is attempted at most the configured number of times, no sooner than
      its retry delay, and never after a success. */
  lemma {:induction false} EveryRun(cfg: Config, s: System, trace: seq<Action>)
    requires Inv(cfg, s) && cfg.maxAttempts >= 1
    requires forall k :: 0 <= k < |trace| ==> NoTakeover(Run(cfg, s, trace[..k]), trace[k])
    ensures Inv(cfg, Run(cfg, s, trace))
  {
    if trace != [] {
      var n := |trace| - 1;
      forall k | 0 <= k < n ensures NoTakeover(Run(cfg, s, trace[..n][..k]), trace[..n][k]) {
        assert trace[..n][..k] == trace[..k];
      }
      EveryRun(cfg, s, trace[..n]);
      ActKeeps(cfg, Run(cfg, s, trace[..n]), trace[n]);
    }
  }
}
