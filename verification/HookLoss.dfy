/** No candidate is lost: exactly which reuse of an id can make one vanish without a trace. */
module HookLoss {
  import opened Basics
  import opened Ordering
  import opened CodexHooks
  import opened HookSafety
  import opened HookProgress
  import opened HookCancel

  // ---- Where a candidate is ----

  ghost predicate Accounted(m: Manager, ticket: nat) {
    || (exists x :: x in m.pending && x.ticket == ticket)
    || (m.dispatch.Some? && m.dispatch.value.sending.Some? && m.dispatch.value.sending.value.ticket == ticket)
    || Delivered(ticket) in m.log
    || Skipped(ticket) in m.log
    || Dead(m.log, ticket)
    || Starts(m.log, ticket) == 3
  }

  /** Every candidate waits, is being sent, was delivered, skipped or cancelled, or had its three sends. */
  ghost predicate NoneLost(m: Manager) {
    forall k :: 0 <= k < |m.log| && m.log[k].Queued? ==> Accounted(m, m.log[k].item.ticket)
  }

  // ---- Which events are safe to queue ----

  /** The event itself cancels this candidate: a stop cancels the approvals of its turn. */
  predicate Ousts(e: HookEvent, x: Item) {
    e.name.Stop? && Named(e.turn) && Hits(x, e.session, e.turn, Some(ApprovalRequired))
  }

  /** Nobody who matters has the id of this event: no waiting candidate, unless the event cancels it, none
      that the running dispatch has still to look at, and not the one being sent, unless it cannot come
      back. */
  ghost predicate Vacant(m: Manager, e: HookEvent) {
    && (forall y :: y in m.pending && y.id == e.id ==> Ousts(e, y))
    && (m.dispatch.Some? ==>
         && (forall x :: x in m.dispatch.value.due ==> x.id != e.id)
         && (m.dispatch.value.sending.Some? && m.dispatch.value.sending.value.id == e.id ==>
              m.inflight == [] || m.dispatch.value.sending.value.attempts >= 2 || Ousts(e, m.dispatch.value.sending.value)))
  }

  ghost predicate Spares(cfg: Config, m: Manager, a: Action) {
    a.DoIngest? && a.event.id !in m.seen && Queues(cfg, m, a.event, a.now).Some? ==> Vacant(m, a.event)
  }

  ghost predicate SparesAll(cfg: Config, m: Manager, trace: seq<Action>) {
    forall k :: 0 <= k < |trace| ==> Spares(cfg, Run(cfg, m, trace[..k]), trace[k])
  }

  lemma SparesIsHarmless(cfg: Config, m: Manager, a: Action)
    requires Spares(cfg, m, a)
    ensures Harmless(cfg, m, a)
  {}

  // ---- Invariant ----

  /** A waiting candidate that the dispatch has still to look at is the one it read, and none takes the
      place of the one being sent, unless that cannot come back. */
  ghost predicate InPlace(m: Manager) {
    m.dispatch.Some? ==>
      && (forall x, y :: x in m.dispatch.value.due && y in m.pending && x.id == y.id ==> x == y)
      && (m.dispatch.value.sending.Some? ==>
           forall y :: y in m.pending && y.id == m.dispatch.value.sending.value.id ==>
             m.inflight == [] || m.dispatch.value.sending.value.attempts >= 2)
  }

  ghost predicate Unskipped(m: Manager) {
    && (forall t: nat :: Skipped(t) in m.log ==> t < m.tickets)
    && (forall x :: x in m.pending ==> Skipped(x.ticket) !in m.log)
    && (m.dispatch.Some? && m.dispatch.value.sending.Some? ==> Skipped(m.dispatch.value.sending.value.ticket) !in m.log)
  }

  ghost predicate Placed(m: Manager) { InPlace(m) && Unskipped(m) && NoneLost(m) }

  ghost predicate Kept(cfg: Config, m: Manager) { Inv(cfg, m) && Sound(m) && Placed(m) }

  // ---- Ingesting ----

  lemma RestPlaced(m: Manager, m': Manager)
    requires Placed(m) && m' == m.(turns := m'.turns, seen := m'.seen, receipts := m'.receipts)
    ensures Placed(m')
  {
    forall k | 0 <= k < |m'.log| && m'.log[k].Queued? ensures Accounted(m', m'.log[k].item.ticket) {
      assert Accounted(m, m.log[k].item.ticket);
    }
  }

  lemma CancelAccounts(cfg: Config, m: Manager, session: string, turn: Option<string>, category: Option<Category>, ticket: nat)
    requires Inv(cfg, m) && Accounted(m, ticket)
    ensures Accounted(Cancel(m, session, turn, category), ticket)
  {
    var c := Cancelled(session, turn, category);
    StartsAppend(m.log, c, ticket);
    DeadAppend(m.log, c, ticket);
    if x :| x in m.pending && x.ticket == ticket {
      assert Idle(cfg, m.log, x);
      if Hits(x, session, turn, category) { CancelKills(m.log, c, x); }
      else { KeepMember(m.pending, (x: Item) => !Hits(x, session, turn, category), x); }
    }
  }

  lemma CancelPlaced(cfg: Config, m: Manager, session: string, turn: Option<string>, category: Option<Category>)
    requires Inv(cfg, m) && Placed(m)
    ensures Placed(Cancel(m, session, turn, category))
  {
    var p := (x: Item) => !Hits(x, session, turn, category);
    var m' := Cancel(m, session, turn, category);
    assert m'.pending == Keep(m.pending, p) && m'.inflight == Keep(m.inflight, p);
    assert m'.log == m.log + [Cancelled(session, turn, category)];
    hide Cancel, Keep, Inv, Accounted;
    forall x | x in m'.pending ensures x in m.pending { KeepMember(m.pending, p, x); }
    EmptyKept(p);
    forall k | 0 <= k < |m'.log| && m'.log[k].Queued? ensures Accounted(m', m'.log[k].item.ticket) {
      assert m'.log[k] == m.log[k];
      CancelAccounts(cfg, m, session, turn, category, m.log[k].item.ticket);
    }
  }

  /** Nobody who matters has this id. */
  ghost predicate Free(m: Manager, id: Id) {
    && (forall y :: y in m.pending ==> y.id != id)
    && (m.dispatch.Some? ==>
         && (forall x :: x in m.dispatch.value.due ==> x.id != id)
         && (m.dispatch.value.sending.Some? && m.dispatch.value.sending.value.id == id ==>
              m.inflight == [] || m.dispatch.value.sending.value.attempts >= 2))
  }

  lemma QueueAccounts(m: Manager, m': Manager, z: Item, ticket: nat)
    requires Accounted(m, ticket) && forall y :: y in m.pending ==> y in m'.pending
    requires m' == m.(turns := m'.turns, pending := m'.pending, tickets := m.tickets + 1, log := m.log + [Queued(z)])
    ensures Accounted(m', ticket)
  {
    StartsAppend(m.log, Queued(z), ticket);
    DeadAppend(m.log, Queued(z), ticket);
  }

  /** A candidate that is queued under a free id leaves all others where they are. */
  lemma QueuePlaced(m: Manager, m': Manager, z: Item)
    requires DistinctIds(m.pending) && Placed(m) && Free(m, z.id) && z.ticket == m.tickets
    requires m' == m.(turns := m'.turns, pending := Put(m.pending, z), tickets := m.tickets + 1, log := m.log + [Queued(z)])
    ensures Placed(m')
  {
    PutPlace(m.pending, z);
    hide Put, Accounted, DistinctIds;
    forall k | 0 <= k < |m'.log| && m'.log[k].Queued? ensures Accounted(m', m'.log[k].item.ticket) {
      if k < |m.log| {
        assert m'.log[k] == m.log[k];
        QueueAccounts(m, m', z, m.log[k].item.ticket);
      } else {
        assert Accounted(m', z.ticket) by { assert z in m'.pending; }
      }
    }
  }

  /** What an event does before it queues its candidate. */
  function Before(m: Manager, e: HookEvent, now: int): Manager {
    var m1 := m.(seen := MarkSeen(m.seen, e.id, now));
    if e.name.Stop? && Named(e.turn) then Cancel(m1, e.session, e.turn, Some(ApprovalRequired)) else m1
  }

  lemma BeforeKept(cfg: Config, m: Manager, e: HookEvent, now: int)
    requires Kept(cfg, m)
    ensures Kept(cfg, Before(m, e, now))
  {
    hide Inv, Sound, Placed, Cancel, MarkSeen;
    var m1 := m.(seen := MarkSeen(m.seen, e.id, now));
    RestKeeps(cfg, m, m1);
    RestSound(m, m1);
    RestPlaced(m, m1);
    CancelKeeps(cfg, m1, e.session, e.turn, Some(ApprovalRequired));
    CancelSound(m1, e.session, e.turn, Some(ApprovalRequired));
    CancelPlaced(cfg, m1, e.session, e.turn, Some(ApprovalRequired));
  }

  lemma BeforeLeaves(m: Manager, e: HookEvent, now: int)
    requires Inflight(m)
    ensures var mid := Before(m, e, now);
            && mid.dispatch == m.dispatch && mid.tickets == m.tickets
            && (forall y :: y in mid.pending <==> y in m.pending && !Ousts(e, y))
            && mid.inflight == (if m.inflight != [] && Ousts(e, m.inflight[0]) then [] else m.inflight)
  {
    var p := (x: Item) => !Hits(x, e.session, e.turn, Some(ApprovalRequired));
    forall y ensures y in Keep(m.pending, p) <==> y in m.pending && p(y) { KeepMember(m.pending, p, y); }
    EmptyKept(p);
    KeepOne(m.inflight, p);
    hide Keep, MarkSeen;
  }

  /** The event queues z, and does no more after it has cancelled. */
  ghost predicate Enters(mid: Manager, m': Manager, z: Item, id: Id) {
    && z.id == id && z.ticket == mid.tickets
    && m' == mid.(turns := m'.turns, pending := Put(mid.pending, z), tickets := mid.tickets + 1, log := mid.log + [Queued(z)])
  }

  lemma StopQueues(cfg: Config, m: Manager, e: HookEvent, now: int) returns (z: Item)
    requires e.name.Stop? && !e.continued && Queues(cfg, m, e, now).Some?
    ensures Enters(if Named(e.turn) then Cancel(m, e.session, e.turn, Some(ApprovalRequired)) else m, OnStop(cfg, m, e, now), z, e.id)
  {
    hide Cancel, Queue, StopCategory, Or, TaskSummary;
    CancelKeepsRest(m, e.session, e.turn, Some(ApprovalRequired));
    var mid := if Named(e.turn) then Cancel(m, e.session, e.turn, Some(ApprovalRequired)) else m;
    var key := (e.session, if e.turn.Some? then e.turn.value else "");
    var state := if key in mid.turns then Some(mid.turns[key]) else None;
    var m2 := mid.(turns := mid.turns - {key});
    var category := Queues(cfg, m, e, now).value;
    z := QueueCase(cfg, m2, e, category, now, if state.Some? then state.value.taskSummary else TaskSummary(m2, e),
                   Or(e.resultSummary, "The Codex turn has ended."));
  }

  lemma EventQueues(cfg: Config, m: Manager, e: HookEvent, now: int) returns (z: Item)
    requires e.id !in m.seen && Queues(cfg, m, e, now).Some?
    ensures Enters(Before(m, e, now), Ingest(cfg, m, e, now), z, e.id)
  {
    var m1 := m.(seen := MarkSeen(m.seen, e.id, now));
    assert Queues(cfg, m1, e, now) == Queues(cfg, m, e, now);
    hide MarkSeen, Cancel, Or, TaskSummary, OnStop, Queue;
    if e.name.Stop? {
      z := StopQueues(cfg, m1, e, now);
    } else {
      z := QueueCase(cfg, m1, e, ApprovalRequired, now, TaskSummary(m1, e), Or(e.resultSummary, "Codex is waiting for approval."));
    }
  }

  lemma QuietCase(cfg: Config, m: Manager, e: HookEvent, now: int, m1: Manager, m2: Manager)
    requires e.id !in m.seen && Queues(cfg, m, e, now).None? && m1 == m.(seen := MarkSeen(m.seen, e.id, now))
    requires var approvals := e.name.PostToolUse? || e.name.Stop?;
             m2 == Cancel(m1, e.session, if approvals then e.turn else None, if approvals then Some(ApprovalRequired) else None)
    ensures var m' := Ingest(cfg, m, e, now); m' == m1.(turns := m'.turns) || m' == m2.(turns := m'.turns)
  {
    CancelKeepsRest(m1, e.session, if e.name.PostToolUse? || e.name.Stop? then e.turn else None,
                    if e.name.PostToolUse? || e.name.Stop? then Some(ApprovalRequired) else None);
    hide MarkSeen, Cancel, StopCategory, Or, TaskSummary, Queue;
  }

  /** Other events only cancel. */
  lemma QuietPlaced(cfg: Config, m: Manager, e: HookEvent, now: int)
    requires Inv(cfg, m) && Placed(m) && e.id !in m.seen && Queues(cfg, m, e, now).None?
    ensures Placed(Ingest(cfg, m, e, now))
  {
    hide Inv, Placed, MarkSeen, Cancel, StopCategory, Or, TaskSummary, Queue;
    var m1 := m.(seen := MarkSeen(m.seen, e.id, now));
    var m' := Ingest(cfg, m, e, now);
    RestKeeps(cfg, m, m1);
    RestPlaced(m, m1);
    var turn, category := if e.name.PostToolUse? || e.name.Stop? then e.turn else None,
                          if e.name.PostToolUse? || e.name.Stop? then Some(ApprovalRequired) else None;
    CancelPlaced(cfg, m1, e.session, turn, category);
    var m2 := Cancel(m1, e.session, turn, category);
    CancelKeepsRest(m1, e.session, turn, category);
    QuietCase(cfg, m, e, now, m1, m2);
    hide Ingest, Queues;
    if m' == m1.(turns := m'.turns) { RestPlaced(m1, m'); } else { RestPlaced(m2, m'); }
  }

  lemma IngestPlaced(cfg: Config, m: Manager, e: HookEvent, now: int)
    requires Kept(cfg, m) && Spares(cfg, m, DoIngest(e, now))
    ensures Placed(Ingest(cfg, m, e, now))
  {
    if e.id !in m.seen {
      if Queues(cfg, m, e, now).None? {
        QuietPlaced(cfg, m, e, now);
      } else {
        var mid := Before(m, e, now);
        var z := EventQueues(cfg, m, e, now);
        BeforeKept(cfg, m, e, now);
        BeforeLeaves(m, e, now);
        hide Before, Ingest, Placed, Sound, Idle, LogOk, TicketsOk, Put, DispatchOk;
        QueuePlaced(mid, Ingest(cfg, m, e, now), z);
      }
    }
  }

  // ---- Dispatching ----

  lemma BeginPlaced(cfg: Config, m: Manager, now: int)
    requires Inv(cfg, m) && Placed(m)
    ensures Placed(BeginDispatch(cfg, m, now))
  {
    var m' := BeginDispatch(cfg, m, now);
    DueItemsShape(m.pending, now);
    hide DueItems, Idle, LogOk, TicketsOk;
    if m' != m {
      forall x, y | x in m'.dispatch.value.due && y in m'.pending && x.id == y.id ensures x == y {
        DistinctValue(m.pending, x, y);
      }
      forall k | 0 <= k < |m.log| && m.log[k].Queued? ensures Accounted(m', m.log[k].item.ticket) {
        assert Accounted(m, m.log[k].item.ticket);
      }
    }
  }

  lemma PickedAccounts(cfg: Config, m: Manager, m': Manager, item: Item, o: Obs, ticket: nat)
    requires Inv(cfg, m) && Accounted(m, ticket) && m.dispatch.Some? && m.dispatch.value.sending.None?
    requires item in m.pending && m'.pending == Without(m.pending, item.id) && m'.log == m.log + [o]
    requires o == Skipped(item.ticket) ||
      (o.Started? && o.ticket == item.ticket && m'.dispatch.Some? && m'.dispatch.value.sending == Some(item))
    ensures Accounted(m', ticket)
  {
    assert Idle(cfg, m.log, item);
    StartsAppend(m.log, o, ticket);
    DeadAppend(m.log, o, ticket);
    assert o in m'.log;
    if x :| x in m.pending && x.ticket == ticket {
      WithoutMember(m.pending, item.id, x);
      if x.id == item.id { DistinctValue(m.pending, x, item); }
    }
    hide Idle, LogOk, TicketsOk, Dead, Starts, Without;
  }

  lemma PickedPlaced(cfg: Config, m: Manager, m': Manager, d: Dispatch, item: Item, o: Obs)
    requires Inv(cfg, m) && Placed(m) && m.dispatch == Some(d) && d.sending.None? && d.due != [] && item == d.due[0]
    requires item in m.pending
    requires o == Skipped(item.ticket) || o == Started(item.ticket, d.now)
    requires m' == m.(pending := Without(m.pending, item.id), inflight := m'.inflight, log := m.log + [o],
                      dispatch := Some(d.(due := d.due[1..], sending := if o.Started? then Some(item) else None)))
    ensures Placed(m')
  {
    TailDistinct(d.due);
    WithoutPlace(m.pending, item.id);
    assert forall x :: x in m.pending ==> Idle(cfg, m.log, x);
    assert Known(m.log, item) && item.ticket < m.tickets by { assert Idle(cfg, m.log, item); }
    forall k | 0 <= k < |m'.log| && m'.log[k].Queued? ensures Accounted(m', m'.log[k].item.ticket) {
      assert m'.log[k] == m.log[k];
      PickedAccounts(cfg, m, m', item, o, m.log[k].item.ticket);
    }
    hide Without, Accounted, LogOk;
    forall x | x in m'.pending ensures x.ticket != item.ticket {
      assert Idle(cfg, m.log, x);
      OtherTicket(m.log, m.tickets, x, item);
    }
    hide Idle, TicketsOk, Known, Inv;
  }

  lemma PassedPlaced(m: Manager, m': Manager, d: Dispatch)
    requires Placed(m) && m.dispatch == Some(d) && d.due != []
    requires m' == m.(dispatch := Some(d.(due := d.due[1..])))
    ensures Placed(m')
  {
    forall k | 0 <= k < |m.log| && m.log[k].Queued? ensures Accounted(m', m.log[k].item.ticket) {
      assert Accounted(m, m.log[k].item.ticket);
    }
  }

  lemma PickPlaced(cfg: Config, m: Manager)
    requires Inv(cfg, m) && Placed(m)
    ensures Placed(PickNext(m))
  {
    hide PickNext, Idle, LogOk, TicketsOk, Unskipped, NoneLost;
    if m.dispatch.None? || m.dispatch.value.sending.Some? || m.dispatch.value.due == [] {
      PickQuiet(m);
      ClosedPlaced(m);
    } else {
      var m', d := PickNext(m), m.dispatch.value;
      var item := d.due[0];
      PickCases(m);
      FindMember(m.pending, item.id);
      if Find(m.pending, item.id).Some? {
        assert item in m.pending;
        hide Find, Without, Put, Inv, Placed;
        PickedPlaced(cfg, m, m', d, item,
                     if (item.id, item.category) in m.receipts then Skipped(item.ticket) else Started(item.ticket, d.now));
      } else {
        hide Find, Inv, Placed;
        PassedPlaced(m, m', d);
      }
    }
  }

  lemma ClosedPlaced(m: Manager)
    requires Placed(m)
    ensures m.dispatch.Some? && m.dispatch.value.sending.None? ==> Placed(m.(dispatch := None))
  {
    var m' := m.(dispatch := None);
    if m.dispatch.Some? && m.dispatch.value.sending.None? {
      forall k | 0 <= k < |m.log| && m.log[k].Queued? ensures Accounted(m', m.log[k].item.ticket) {
        assert Accounted(m, m.log[k].item.ticket);
      }
    }
  }

  lemma FinishAccounts(cfg: Config, m: Manager, m': Manager, d: Dispatch, delivered: nat, ticket: nat)
    requires Inv(cfg, m) && Sound(m) && Placed(m) && m.dispatch == Some(d) && d.sending.Some? && Accounted(m, ticket)
    requires m' == FinishSend(m, delivered)
    ensures Accounted(m', ticket)
  {
    var s := d.sending.value;
    EndsSend(m, delivered);
    PutPlace(m.pending, Again(d, s));
    assert Sending(cfg, m.log, s, d.now) && (m.inflight == [] <==> Dead(m.log, s.ticket));
    hide FinishSend, Put, Dead, Starts, Idle, LogOk, TicketsOk, Sound;
    if m'.log != m.log {
      var o := m'.log[|m.log|];
      StartsAppend(m.log, o, ticket);
      DeadAppend(m.log, o, ticket);
      assert o in m'.log;
    }
    if x :| x in m.pending && x.ticket == ticket { assert x in m'.pending; }
    if m'.pending != m.pending { assert Again(d, s) in m'.pending; }
  }

  lemma FinishPlaced(cfg: Config, m: Manager, delivered: nat)
    requires Inv(cfg, m) && Sound(m) && Placed(m)
    ensures Placed(FinishSend(m, delivered))
  {
    if m.dispatch.Some? && m.dispatch.value.sending.Some? {
      var d := m.dispatch.value;
      var m' := FinishSend(m, delivered);
      EndsSend(m, delivered);
      hide FinishSend, Idle, LogOk, TicketsOk, Accounted, Put, Sound;
      PutPlace(m.pending, Again(d, d.sending.value));
      forall k | 0 <= k < |m'.log| && m'.log[k].Queued? ensures Accounted(m', m'.log[k].item.ticket) {
        assert m'.log[k] == m.log[k];
        FinishAccounts(cfg, m, m', d, delivered, m.log[k].item.ticket);
      }
      hide DistinctIds, Sending;
    }
  }

  // ---- Every run ----

  lemma ActKept(cfg: Config, m: Manager, a: Action)
    requires Kept(cfg, m) && Spares(cfg, m, a)
    ensures Kept(cfg, Act(cfg, m, a))
  {
    SparesIsHarmless(cfg, m, a);
    ActKeeps(cfg, m, a);
    ActSound(cfg, m, a);
    hide Inv, Sound, Placed, Spares;
    match a
    case DoIngest(e, now) => IngestPlaced(cfg, m, e, now);
    case DoPrune(before) => RestPlaced(m, Prune(m, before));
    case DoBegin(now) => BeginPlaced(cfg, m, now);
    case DoPick => PickPlaced(cfg, m);
    case DoFinish(delivered) => FinishPlaced(cfg, m, delivered);
  }

  /** Over every run in which no event takes the id of a candidate that matters, none is lost. */
  lemma {:induction false} NothingLost(cfg: Config, m: Manager, trace: seq<Action>)
    requires Kept(cfg, m) && SparesAll(cfg, m, trace)
    ensures Kept(cfg, Run(cfg, m, trace))
  {
    hide Kept, Act, Spares;
    if trace != [] {
      var n := |trace| - 1;
      forall k | 0 <= k < n ensures Spares(cfg, Run(cfg, m, trace[..n][..k]), trace[..n][k]) {
        assert trace[..n][..k] == trace[..k];
      }
      NothingLost(cfg, m, trace[..n]);
      ActKept(cfg, Run(cfg, m, trace[..n]), trace[n]);
    }
  }

  lemma StartKept(cfg: Config)
    ensures Kept(cfg, EMPTY)
  {}

  // ---- A reuse that loses one ----

  /** In the log, the candidate still waits. */
  ghost predicate Unbooked(log: seq<Obs>, ticket: nat) {
    && (exists k :: 0 <= k < |log| && log[k].Queued? && log[k].item.ticket == ticket)
    && Delivered(ticket) !in log && Skipped(ticket) !in log && !Dead(log, ticket) && Starts(log, ticket) <= 2
  }

  lemma UnbookedAppend(log: seq<Obs>, o: Obs, ticket: nat)
    requires Unbooked(log, ticket) && !o.Cancelled?
    requires o.Started? || o.Delivered? || o.Skipped? ==> o.ticket != ticket
    ensures Unbooked(log + [o], ticket)
  {
    StartsAppend(log, o, ticket);
    DeadAppend(log, o, ticket);
    var k :| 0 <= k < |log| && log[k].Queued? && log[k].item.ticket == ticket;
    assert (log + [o])[k] == log[k];
  }

  /** If it does not wait in the queue either, and is not being sent, it is lost. */
  lemma GoneIsLost(m: Manager, ticket: nat)
    requires Unbooked(m.log, ticket) && forall x :: x in m.pending ==> x.ticket != ticket
    requires m.dispatch.Some? && m.dispatch.value.sending.Some? ==> m.dispatch.value.sending.value.ticket != ticket
    ensures !NoneLost(m)
  {
    assert !Accounted(m, ticket);
  }

  /** Replaced in the queue: nobody else there has its ticket. */
  lemma ReplacedGone(cfg: Config, m: Manager, y: Item, z: Item)
    requires Inv(cfg, m) && y in m.pending && z.id == y.id && z.ticket != y.ticket
    ensures forall x :: x in Put(m.pending, z) ==> x.ticket != y.ticket
  {
    PutPlace(m.pending, z);
    forall x | x in Put(m.pending, z) ensures x.ticket != y.ticket {
      if x != z {
        assert Idle(cfg, m.log, x) && Idle(cfg, m.log, y);
        OtherTicket(m.log, m.tickets, x, y);
      }
    }
  }

  lemma WaitsUnbooked(cfg: Config, m: Manager, y: Item)
    requires Kept(cfg, m) && y in m.pending
    ensures Unbooked(m.log, y.ticket) && y.ticket < m.tickets
  {
    assert Idle(cfg, m.log, y) && Lives(m.log, y);
    KnownTicket(m.log, m.tickets, y);
  }

  lemma EnteredUnbooked(cfg: Config, m: Manager, z: Item)
    requires Kept(cfg, m) && z.ticket == m.tickets
    ensures Unbooked(m.log + [Queued(z)], z.ticket)
  {
    var log := m.log + [Queued(z)];
    FreshTicket(cfg, m.log, m.tickets);
    StartsAppend(m.log, Queued(z), z.ticket);
    DeadAppend(m.log, Queued(z), z.ticket);
    assert log[|m.log|] == Queued(z);
  }

  /** A waiting candidate with the id is replaced at once. */
  lemma ReplacesWaiting(cfg: Config, mid: Manager, m': Manager, y: Item, z: Item)
    requires Kept(cfg, mid) && Enters(mid, m', z, y.id) && y in mid.pending
    ensures !NoneLost(m')
  {
    WaitsUnbooked(cfg, mid, y);
    ReplacedGone(cfg, mid, y, z);
    UnbookedAppend(mid.log, Queued(z), y.ticket);
    hide Kept, Unbooked, NoneLost, Put;
    SendingElsewhere(cfg, mid, y);
    GoneIsLost(m', y.ticket);
  }

  lemma SendingElsewhere(cfg: Config, m: Manager, y: Item)
    requires Kept(cfg, m) && y in m.pending
    ensures m.dispatch.Some? && m.dispatch.value.sending.Some? ==> m.dispatch.value.sending.value.ticket != y.ticket
  {}

  /** The send with the id fails, and its candidate takes the new one's place. */
  lemma ReplacedByRetry(cfg: Config, mid: Manager, m': Manager, z: Item)
    requires Kept(cfg, mid) && mid.dispatch.Some? && mid.dispatch.value.sending.Some?
    requires Enters(mid, m', z, mid.dispatch.value.sending.value.id)
    requires mid.inflight != [] && mid.dispatch.value.sending.value.attempts < 2 && Inv(cfg, m')
    ensures !NoneLost(FinishSend(m', 0))
  {
    var d := mid.dispatch.value;
    var s := d.sending.value;
    var again := Again(d, s);
    var m2 := FinishSend(m', 0);
    EndsSend(m', 0);
    assert m2.pending == Put(m'.pending, again);
    hide FinishSend;
    OlderTicket(cfg, mid, d);
    EnteredUnbooked(cfg, mid, z);
    UnbookedAppend(m'.log, Requeued(s.ticket, again.dueAt), z.ticket);
    PutPlace(mid.pending, z);
    hide Kept, Unbooked, NoneLost, Put;
    ReplacedGone(cfg, m', z, again);
    GoneIsLost(m2, z.ticket);
  }

  /** The dispatch has still to look at x, and z waits under its id. */
  ghost predicate Snare(cfg: Config, m: Manager, x: Item, z: Item) {
    && Inv(cfg, m) && m.dispatch.Some? && x in m.dispatch.value.due
    && z in m.pending && z.id == x.id && z.ticket != x.ticket && Unbooked(m.log, z.ticket)
  }

  /** Whoever else is sent or skipped has another ticket. */
  lemma SnareApart(cfg: Config, m: Manager, x: Item, z: Item, y: Item)
    requires Snare(cfg, m, x, z) && y in m.dispatch.value.due
    ensures y.ticket != z.ticket
  {
    assert Idle(cfg, m.log, y) && Idle(cfg, m.log, z);
    if y.id == x.id { DistinctValue(m.dispatch.value.due, x, y); } else { OtherTicket(m.log, m.tickets, y, z); }
  }

  lemma SnareFinishes(cfg: Config, m: Manager, x: Item, z: Item)
    requires Snare(cfg, m, x, z) && m.dispatch.value.sending.Some?
    ensures Snare(cfg, FinishSend(m, 1), x, z) && FinishSend(m, 1).dispatch == Some(m.dispatch.value.(sending := None))
  {
    EndsSend(m, 1);
    FinishKeeps(cfg, m, 1);
    hide FinishSend, Unbooked;
    UnbookedAppend(m.log, Delivered(m.dispatch.value.sending.value.ticket), z.ticket);
    hide Inv;
  }

  lemma SnarePicks(cfg: Config, m: Manager, x: Item, z: Item)
    requires Snare(cfg, m, x, z) && m.dispatch.value.sending.None? && m.dispatch.value.due[0] != x
    ensures Snare(cfg, PickNext(m), x, z) && PickNext(m).dispatch.Some?
    ensures PickNext(m).dispatch.value.due == m.dispatch.value.due[1..]
  {
    var d := m.dispatch.value;
    var y := d.due[0];
    PickCases(m);
    PickKeeps(cfg, m);
    SnareApart(cfg, m, x, z, y);
    if y.id == x.id { DistinctValue(d.due, x, y); }
    WithoutPlace(m.pending, y.id);
    var i :| 0 <= i < |d.due| && d.due[i] == x;
    assert d.due[1..][i - 1] == x;
    hide PickNext, Unbooked, Inv, Find, Without, Put;
    UnbookedAppend(m.log, Skipped(y.ticket), z.ticket);
    UnbookedAppend(m.log, Started(y.ticket, d.now), z.ticket);
  }

  lemma SnareCloses(cfg: Config, m: Manager, x: Item, z: Item)
    requires Snare(cfg, m, x, z) && m.dispatch.value.sending.None? && m.dispatch.value.due[0] == x
    ensures !NoneLost(PickNext(m))
  {
    var d := m.dispatch.value;
    PickCases(m);
    FindMember(m.pending, x.id);
    WithoutPlace(m.pending, x.id);
    var m' := PickNext(m);
    assert forall y :: y in m.pending ==> Idle(cfg, m.log, y);
    forall y | y in m'.pending ensures y.ticket != z.ticket { OtherTicket(m.log, m.tickets, y, z); }
    hide PickNext, Unbooked, Inv, Find, Without, Put, NoneLost;
    UnbookedAppend(m.log, Skipped(x.ticket), z.ticket);
    UnbookedAppend(m.log, Started(x.ticket, d.now), z.ticket);
    GoneIsLost(m', z.ticket);
  }

  /** One step in front of a run; the steps of a dispatch spare everyone. */
  lemma SparesFirst(cfg: Config, m: Manager, a: Action, rest: seq<Action>)
    requires Spares(cfg, m, a) && SparesAll(cfg, Act(cfg, m, a), rest)
    ensures SparesAll(cfg, m, [a] + rest) && Run(cfg, m, [a] + rest) == Run(cfg, Act(cfg, m, a), rest)
  {
    hide Act, Run, Spares;
    RunOne(cfg, m, a);
    RunConcat(cfg, m, [a], rest);
    var trace := [a] + rest;
    forall k | 0 <= k < |trace| ensures Spares(cfg, Run(cfg, m, trace[..k]), trace[k]) {
      if k == 0 {
        assert trace[..0] == [] && Run(cfg, m, []) == m by { RunNone(cfg, m); }
      } else {
        assert trace[..k] == [a] + rest[..k - 1];
        RunConcat(cfg, m, [a], rest[..k - 1]);
        assert Spares(cfg, Run(cfg, Act(cfg, m, a), rest[..k - 1]), rest[k - 1]);
      }
    }
  }

  lemma DispatchSpares(cfg: Config, m: Manager, a: Action)
    requires !a.DoIngest?
    ensures Spares(cfg, m, a)
  {}

  lemma NoneSpares(cfg: Config, m: Manager)
    ensures SparesAll(cfg, m, [])
  {}

  /** The dispatch goes on until it takes the new candidate off the queue and sends the old one. */
  lemma {:induction false} SnareSprings(cfg: Config, m: Manager, x: Item, z: Item) returns (trace: seq<Action>)
    requires Snare(cfg, m, x, z)
    ensures SparesAll(cfg, m, trace) && !NoneLost(Run(cfg, m, trace))
    decreases |m.dispatch.value.due|, if m.dispatch.value.sending.Some? then 1 else 0
  {
    hide Run, SparesAll, Spares, NoneLost, Inv, Unbooked, FinishSend, PickNext, Ingest, Prune, BeginDispatch;
    var d := m.dispatch.value;
    var rest: seq<Action> := [];
    DispatchSpares(cfg, m, DoPick);
    DispatchSpares(cfg, m, DoFinish(1));
    if d.sending.Some? {
      SnareFinishes(cfg, m, x, z);
      rest := SnareSprings(cfg, FinishSend(m, 1), x, z);
      SparesFirst(cfg, m, DoFinish(1), rest);
      trace := [DoFinish(1)] + rest;
    } else if d.due[0] == x {
      SnareCloses(cfg, m, x, z);
      RunNone(cfg, PickNext(m));
      NoneSpares(cfg, PickNext(m));
      SparesFirst(cfg, m, DoPick, []);
      trace := [DoPick] + [];
    } else {
      SnarePicks(cfg, m, x, z);
      rest := SnareSprings(cfg, PickNext(m), x, z);
      SparesFirst(cfg, m, DoPick, rest);
      trace := [DoPick] + rest;
    }
  }

  lemma Snares(cfg: Config, mid: Manager, m': Manager, x: Item, z: Item)
    requires Kept(cfg, mid) && Inv(cfg, m') && Enters(mid, m', z, x.id) && mid.dispatch.Some? && x in mid.dispatch.value.due
    ensures Snare(cfg, m', x, z)
  {
    EnteredUnbooked(cfg, mid, z);
    PutPlace(mid.pending, z);
    assert Idle(cfg, mid.log, x);
    KnownTicket(mid.log, mid.tickets, x);
    hide Put, Unbooked, Sound, Placed, Idle, LogOk, TicketsOk;
  }

  /** The state `mid` in which the event queues its candidate, and the state `m'` after it. */
  ghost predicate Around(cfg: Config, m: Manager, mid: Manager, m': Manager, e: HookEvent, z: Item) {
    && Inflight(m) && Kept(cfg, mid) && Inv(cfg, m') && Enters(mid, m', z, e.id)
    && mid.dispatch == m.dispatch
    && (forall y :: y in mid.pending <==> y in m.pending && !Ousts(e, y))
    && mid.inflight == (if m.inflight != [] && Ousts(e, m.inflight[0]) then [] else m.inflight)
  }

  lemma IngestAround(cfg: Config, m: Manager, e: HookEvent, now: int) returns (mid: Manager, z: Item)
    requires Kept(cfg, m) && e.id !in m.seen && Queues(cfg, m, e, now).Some?
    ensures Around(cfg, m, mid, Ingest(cfg, m, e, now), e, z)
  {
    assert Inv(cfg, m) && Inflight(m);
    hide Before, Ingest, Kept, Ousts, Queues, Inv, Put, Inflight;
    mid := Before(m, e, now);
    z := EventQueues(cfg, m, e, now);
    BeforeKept(cfg, m, e, now);
    BeforeLeaves(m, e, now) by { assert Inflight(m); }
    IngestKeeps(cfg, m, e, now);
  }

  lemma LosesAround(cfg: Config, m: Manager, mid: Manager, m': Manager, e: HookEvent, z: Item) returns (more: seq<Action>)
    requires Around(cfg, m, mid, m', e, z) && !Vacant(m, e)
    ensures SparesAll(cfg, m', more) && !NoneLost(Run(cfg, m', more))
  {
    hide Kept, NoneLost, Ousts, Spares, SparesAll, Inv, Run, Put, FinishSend;
    NoneSpares(cfg, m');
    RunNone(cfg, m');
    if y :| y in m.pending && y.id == e.id && !Ousts(e, y) {
      ReplacesWaiting(cfg, mid, m', y, z);
      more := [];
    } else if x :| m.dispatch.Some? && x in m.dispatch.value.due && x.id == e.id {
      Snares(cfg, mid, m', x, z);
      more := SnareSprings(cfg, m', x, z);
    } else {
      ReplacedByRetry(cfg, mid, m', z);
      more := RetryRun(cfg, m');
    }
  }

  lemma RetryRun(cfg: Config, m: Manager) returns (more: seq<Action>)
    requires !NoneLost(FinishSend(m, 0))
    ensures SparesAll(cfg, m, more) && !NoneLost(Run(cfg, m, more))
  {
    hide NoneLost, FinishSend, Run, SparesAll;
    DispatchSpares(cfg, m, DoFinish(0));
    NoneSpares(cfg, FinishSend(m, 0));
    RunNone(cfg, FinishSend(m, 0));
    SparesFirst(cfg, m, DoFinish(0), []);
    more := [DoFinish(0)] + [];
  }

  /** If an event takes the id of a candidate that matters, then some continuation, itself without such an
      event, loses a candidate. */
  lemma ReuseLoses(cfg: Config, m: Manager, e: HookEvent, now: int) returns (more: seq<Action>)
    requires Kept(cfg, m) && !Spares(cfg, m, DoIngest(e, now))
    ensures SparesAll(cfg, Ingest(cfg, m, e, now), more) && !NoneLost(Run(cfg, Ingest(cfg, m, e, now), more))
  {
    hide Ingest, Kept, NoneLost, Queues, SparesAll, Around, Run, Vacant;
    var mid, z := IngestAround(cfg, m, e, now);
    more := LosesAround(cfg, m, mid, Ingest(cfg, m, e, now), e, z);
  }

  /** Exactly those events are dangerous: after an event is ingested, no continuation without such an event
      loses a candidate if and only if the event itself takes no id of a candidate that matters. */
  lemma NothingLostIff(cfg: Config, m: Manager, e: HookEvent, now: int)
    requires Kept(cfg, m)
    ensures Spares(cfg, m, DoIngest(e, now))
      <==> forall more :: SparesAll(cfg, Ingest(cfg, m, e, now), more) ==> NoneLost(Run(cfg, Ingest(cfg, m, e, now), more))
  {
    var m' := Ingest(cfg, m, e, now);
    if Spares(cfg, m, DoIngest(e, now)) {
      ActKept(cfg, m, DoIngest(e, now));
      hide Ingest, Spares, Inv, Sound, Run, NoneLost;
      forall more | SparesAll(cfg, m', more) ensures NoneLost(Run(cfg, m', more)) { NothingLost(cfg, m', more); }
    } else {
      hide Ingest, Spares, Kept, Run, NoneLost;
      var more := ReuseLoses(cfg, m, e, now);
    }
  }
}
