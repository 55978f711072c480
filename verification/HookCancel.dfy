/** Cancellation of hook notifications, under the weakest condition on event ids: exactly which reuse of
    an id can make a cancelled candidate go out. */
module HookCancel {
  import opened Basics
  import opened Ordering
  import opened CodexHooks
  import opened HookSafety
  import opened HookProgress

  // ---- Which events cancel what ----

  /** The cancellations that the source makes: all of a session, or its approvals, of one turn or any. */
  predicate Cancels(turn: Option<string>, category: Option<Category>) {
    (turn.None? && category.None?) || category == Some(ApprovalRequired)
  }

  /** Whatever cancels x cancels a candidate of this session, turn and category too. */
  predicate Tied(x: Item, session: string, turn: string, category: Category) {
    x.session == session && (x.category == ApprovalRequired ==> category == ApprovalRequired && x.turn == turn)
  }

  lemma TiedIff(x: Item, z: Item)
    ensures Tied(x, z.session, z.turn, z.category)
      <==> forall session, turn, category ::
        Cancels(turn, category) && Hits(x, session, turn, category) ==> Hits(z, session, turn, category)
  {
    if !Tied(x, z.session, z.turn, z.category) {
      if x.session != z.session {
        assert Cancels(None, None) && Hits(x, x.session, None, None) && !Hits(z, x.session, None, None);
      } else {
        var turn, category := Some(x.turn), Some(ApprovalRequired);
        assert Cancels(turn, category) && Hits(x, x.session, turn, category) && !Hits(z, x.session, turn, category);
      }
    }
  }

  /** The category under which an event queues a candidate, if it does. */
  function Queues(cfg: Config, m: Manager, e: HookEvent, now: int): Option<Category> {
    match e.name
    case PermissionRequest => Some(ApprovalRequired)
    case Stop =>
      var key := (e.session, if e.turn.Some? then e.turn.value else "");
      if e.continued then None
      else StopCategory(cfg, Or(e.resultSummary, "The Codex turn has ended."),
                        if key in m.turns then Some(now - m.turns[key].startedAt) else None)
    case _ => None
  }

  function TurnOf(e: HookEvent): string { if Named(e.turn) then e.turn.value else "session" }

  /** A new candidate may take the id of one that the running dispatch has still to look at only if that
      one is not cancelled, and whatever would cancel it would cancel the new one too. A receipt that would
      make the dispatch skip it does not help, as receipts can be pruned at any time. */
  ghost predicate Harmless(cfg: Config, m: Manager, a: Action) {
    a.DoIngest? && a.event.id !in m.seen && m.dispatch.Some? && Queues(cfg, m, a.event, a.now).Some? ==>
      forall x :: x in m.dispatch.value.due && x.id == a.event.id ==>
        !Dead(m.log, x.ticket) && Tied(x, a.event.session, TurnOf(a.event), Queues(cfg, m, a.event, a.now).value)
  }

  ghost predicate HarmlessAll(cfg: Config, m: Manager, trace: seq<Action>) {
    forall k :: 0 <= k < |trace| ==> Harmless(cfg, Run(cfg, m, trace[..k]), trace[k])
  }

  // ---- Invariant ----

  /** No cancelled candidate ever started a send or was queued for a retry. */
  ghost predicate LogQuiet(log: seq<Obs>) {
    forall k :: 0 <= k < |log| && (log[k].Started? || log[k].Requeued?) ==> !Dead(log[..k], log[k].ticket)
  }

  ghost predicate Lives(log: seq<Obs>, z: Item) { Known(log, z) && !Dead(log, z.ticket) }

  /** A candidate that is being sent is in flight until it is cancelled. */
  ghost predicate SoundSending(m: Manager, s: Item) {
    && (m.inflight == [] || m.inflight == [s])
    && Known(m.log, s)
    && (m.inflight == [] <==> Dead(m.log, s.ticket))
  }

  ghost predicate Sound(m: Manager) {
    && TicketsOk(m.log, m.tickets)
    && DistinctIds(m.pending)
    && (forall z :: z in m.pending ==> Lives(m.log, z))
    && (m.dispatch.None? ==> m.inflight == [])
    && (m.dispatch.Some? ==> SoundDispatch(m, m.dispatch.value))
    && LogQuiet(m.log)
  }

  /** A candidate that is still to be looked at and whose id is in the queue is alive, and what cancels it
      empties that place. */
  ghost predicate SoundDue(m: Manager, x: Item) {
    && Known(m.log, x)
    && forall z :: z in m.pending && z.id == x.id ==>
         !Dead(m.log, x.ticket) && Tied(x, z.session, z.turn, z.category)
  }

  ghost predicate SoundDispatch(m: Manager, d: Dispatch) {
    && DistinctIds(d.due)
    && (forall x :: x in d.due ==> SoundDue(m, x))
    && (d.sending.None? ==> m.inflight == [])
    && (d.sending.Some? ==> SoundSending(m, d.sending.value) && forall x :: x in d.due ==> x.id != d.sending.value.id)
  }

  // ---- Log entries ----

  lemma QuietAppend(log: seq<Obs>, o: Obs)
    requires LogQuiet(log) && (o.Started? || o.Requeued? ==> !Dead(log, o.ticket))
    ensures LogQuiet(log + [o])
  {
    var log' := log + [o];
    forall k | 0 <= k < |log'| && (log'[k].Started? || log'[k].Requeued?) ensures !Dead(log'[..k], log'[k].ticket) {
      assert log'[..k] == log[..k];
      if k == |log| { assert log[..k] == log; }
    }
  }

  lemma CancelKills(log: seq<Obs>, c: Obs, x: Item)
    requires Known(log, x) && c.Cancelled? && Hits(x, c.session, c.turn, c.category)
    ensures Dead(log + [c], x.ticket)
  {
    var k :| 0 <= k < |log| && log[k].Queued? && SameCandidate(log[k].item, x);
    assert (log + [c])[k] == log[k] && (log + [c])[|log|] == c;
  }

  /** A cancellation kills exactly what it hits. */
  lemma DeadAfterCancel(log: seq<Obs>, tickets: nat, c: Obs, x: Item)
    requires TicketsOk(log, tickets) && Known(log, x) && c.Cancelled?
    ensures Dead(log + [c], x.ticket) <==> Dead(log, x.ticket) || Hits(x, c.session, c.turn, c.category)
  {
    DeadAppend(log, c, x.ticket);
    if Hits(x, c.session, c.turn, c.category) { CancelKills(log, c, x); }
    forall i | 0 <= i < |log| && log[i].Queued? && log[i].item.ticket == x.ticket ensures SameCandidate(log[i].item, x) {
      QueuedTwice(log, tickets, x, i);
    }
  }

  lemma DeadAfterOther(log: seq<Obs>, o: Obs, ticket: nat)
    requires !o.Cancelled?
    ensures Dead(log + [o], ticket) <==> Dead(log, ticket)
  {
    DeadAppend(log, o, ticket);
  }

  /** Entries other than cancellations and queueings leave what is known and who is alive as they were. */
  lemma SameLives(m: Manager, o: Obs)
    requires TicketsOk(m.log, m.tickets) && !o.Cancelled? && !o.Queued?
    ensures TicketsOk(m.log + [o], m.tickets)
    ensures forall x :: Known(m.log, x) ==> Known(m.log + [o], x)
    ensures forall t :: Dead(m.log + [o], t) <==> Dead(m.log, t)
  {
    hide Dead;
    forall x | Known(m.log, x) ensures Known(m.log + [o], x) { KnownAppend(m.log, o, x); }
    forall t ensures Dead(m.log + [o], t) <==> Dead(m.log, t) { DeadAfterOther(m.log, o, t); }
  }

  // ---- Cancelling ----

  lemma CancelFacts(m: Manager, session: string, turn: Option<string>, category: Option<Category>)
    requires TicketsOk(m.log, m.tickets) && DistinctIds(m.pending) && LogQuiet(m.log)
    ensures var m' := Cancel(m, session, turn, category);
            && TicketsOk(m'.log, m'.tickets) && DistinctIds(m'.pending) && LogQuiet(m'.log)
            && (forall x :: x in m'.pending <==> x in m.pending && !Hits(x, session, turn, category))
            && (forall x :: Known(m.log, x) ==>
                 && Known(m'.log, x)
                 && (Dead(m'.log, x.ticket) <==> Dead(m.log, x.ticket) || Hits(x, session, turn, category)))
  {
    var c := Cancelled(session, turn, category);
    var p := (x: Item) => !Hits(x, session, turn, category);
    var m' := Cancel(m, session, turn, category);
    assert m'.log == m.log + [c] && m'.pending == Keep(m.pending, p);
    hide Cancel;
    TicketsAppend(m.log, c, m.tickets);
    KeepDistinct(m.pending, p);
    QuietAppend(m.log, c);
    hide LogQuiet, Keep, DistinctIds;
    forall x ensures x in m'.pending <==> x in m.pending && p(x) { KeepMember(m.pending, p, x); }
    forall x | Known(m.log, x)
      ensures Known(m'.log, x)
      ensures Dead(m'.log, x.ticket) <==> Dead(m.log, x.ticket) || Hits(x, session, turn, category)
    {
      KnownAppend(m.log, c, x);
      DeadAfterCancel(m.log, m.tickets, c, x);
    }
  }

  lemma CancelSoundDue(m: Manager, session: string, turn: Option<string>, category: Option<Category>, x: Item)
    requires TicketsOk(m.log, m.tickets) && DistinctIds(m.pending) && LogQuiet(m.log)
    requires SoundDue(m, x) && Cancels(turn, category)
    ensures SoundDue(Cancel(m, session, turn, category), x)
  {
    var m' := Cancel(m, session, turn, category);
    CancelFacts(m, session, turn, category);
    hide Cancel, LogQuiet, DistinctIds, TicketsOk, Known, Dead;
    forall z | z in m'.pending && z.id == x.id ensures !Hits(x, session, turn, category) {
      assert Tied(x, z.session, z.turn, z.category);
    }
  }

  lemma CancelSound(m: Manager, session: string, turn: Option<string>, category: Option<Category>)
    requires Sound(m) && Cancels(turn, category)
    ensures Sound(Cancel(m, session, turn, category))
  {
    var m' := Cancel(m, session, turn, category);
    CancelFacts(m, session, turn, category);
    CancelKeepsRest(m, session, turn, category);
    EmptyKept((x: Item) => !Hits(x, session, turn, category));
    assert m.inflight == [] ==> m'.inflight == [];
    assert m'.tickets == m.tickets;
    hide Cancel, Keep, LogQuiet, DistinctIds, TicketsOk, Hits, Known, Dead, SoundDispatch;
    forall z | z in m'.pending ensures Lives(m'.log, z) { assert Lives(m.log, z); }
    if m.dispatch.Some? { CancelSoundDispatch(m, session, turn, category, m.dispatch.value); }
    hide Lives;
  }

  lemma CancelSoundDispatch(m: Manager, session: string, turn: Option<string>, category: Option<Category>, d: Dispatch)
    requires TicketsOk(m.log, m.tickets) && DistinctIds(m.pending) && LogQuiet(m.log)
    requires SoundDispatch(m, d) && Cancels(turn, category)
    ensures SoundDispatch(Cancel(m, session, turn, category), d)
  {
    var m' := Cancel(m, session, turn, category);
    hide LogQuiet, DistinctIds, TicketsOk;
    if d.sending.Some? {
      CancelFacts(m, session, turn, category);
      CancelSending(m, session, turn, category, d.sending.value);
    } else {
      EmptyKept((x: Item) => !Hits(x, session, turn, category));
    }
    assert d.sending.None? ==> m'.inflight == [];
    hide Cancel, Known, Dead, Hits;
    assert d.sending.Some? ==> SoundSending(m', d.sending.value);
    hide SoundDue, SoundSending;
    forall x | x in d.due ensures SoundDue(m', x) { CancelSoundDue(m, session, turn, category, x); }
  }

  // ---- Queueing ----

  lemma QueueSound(cfg: Config, m: Manager, e: HookEvent, category: Category, now: int, task: string, result: string)
    requires Sound(m)
    requires m.dispatch.Some? ==>
      forall x :: x in m.dispatch.value.due && x.id == e.id ==>
        !Dead(m.log, x.ticket) && Tied(x, e.session, TurnOf(e), category)
    ensures Sound(Queue(cfg, m, e, category, now, task, result))
  {
    var m' := Queue(cfg, m, e, category, now, task, result);
    var z := m'.log[|m.log|].item;
    var o := Queued(z);
    assert m'.log == m.log + [o] && m'.pending == Put(m.pending, z) && z.id == e.id && z.ticket == m.tickets;
    assert z.session == e.session && z.turn == TurnOf(e) && z.category == category;
    hide Queue;
    PutPlace(m.pending, z);
    QuietAppend(m.log, o);
    NewAlive(m, z);
    hide LogQuiet, Put;
    forall x | Known(m.log, x) ensures Known(m'.log, x) { KnownAppend(m.log, o, x); }
    forall t ensures Dead(m'.log, t) <==> Dead(m.log, t) { DeadAfterOther(m.log, o, t); }
    hide Known, Dead;
    if m.dispatch.Some? {
      forall x | x in m.dispatch.value.due ensures SoundDue(m', x) { assert SoundDue(m, x); }
    }
  }

  lemma NewAlive(m: Manager, z: Item)
    requires TicketsOk(m.log, m.tickets) && z.ticket == m.tickets
    ensures TicketsOk(m.log + [Queued(z)], m.tickets + 1)
    ensures Known(m.log + [Queued(z)], z) && !Dead(m.log, z.ticket)
  {
    assert (m.log + [Queued(z)])[|m.log|] == Queued(z);
  }

  // ---- Ingesting ----

  /** Turns, seen ids and receipts do not matter. */
  lemma RestSound(m: Manager, m': Manager)
    requires Sound(m) && m' == m.(turns := m'.turns, seen := m'.seen, receipts := m'.receipts)
    ensures Sound(m')
  {
    if m.dispatch.Some? {
      forall x | x in m.dispatch.value.due ensures SoundDue(m', x) { assert SoundDue(m, x); }
    }
  }

  /** The approvals that a stop cancels are tied to no candidate that it queues. */
  lemma StopSpares(m: Manager, e: HookEvent, category: Category)
    requires Sound(m) && category != ApprovalRequired && m.dispatch.Some?
    requires forall x :: x in m.dispatch.value.due && x.id == e.id ==>
      !Dead(m.log, x.ticket) && Tied(x, e.session, TurnOf(e), category)
    ensures forall x :: x in m.dispatch.value.due && x.id == e.id ==>
      !Dead(Cancel(m, e.session, e.turn, Some(ApprovalRequired)).log, x.ticket) && Tied(x, e.session, TurnOf(e), category)
  {
    hide Dead, LogQuiet, Known;
    forall x | x in m.dispatch.value.due && x.id == e.id
      ensures !Dead(Cancel(m, e.session, e.turn, Some(ApprovalRequired)).log, x.ticket)
    {
      assert SoundDue(m, x);
      DeadAfterCancel(m.log, m.tickets, Cancelled(e.session, e.turn, Some(ApprovalRequired)), x);
    }
  }

  lemma StopSound(cfg: Config, m: Manager, e: HookEvent, now: int)
    requires Sound(m) && e.name.Stop? && !e.continued
    requires m.dispatch.Some? && Queues(cfg, m, e, now).Some? ==>
      forall x :: x in m.dispatch.value.due && x.id == e.id ==>
        !Dead(m.log, x.ticket) && Tied(x, e.session, TurnOf(e), Queues(cfg, m, e, now).value)
    ensures Sound(OnStop(cfg, m, e, now))
  {
    hide Sound, Dead, Tied, Or, TaskSummary, Cancel, Queue;
    var queued := Queues(cfg, m, e, now);
    assert queued != Some(ApprovalRequired);
    hide StopCategory;
    var m' := m;
    if Named(e.turn) {
      m' := Cancel(m, e.session, e.turn, Some(ApprovalRequired));
      CancelSound(m, e.session, e.turn, Some(ApprovalRequired));
      CancelKeepsRest(m, e.session, e.turn, Some(ApprovalRequired));
      if m.dispatch.Some? && queued.Some? { StopSpares(m, e, queued.value); }
    }
    var key := (e.session, if e.turn.Some? then e.turn.value else "");
    var m'' := m'.(turns := m'.turns - {key});
    RestSound(m', m'');
    var state := if key in m'.turns then Some(m'.turns[key]) else None;
    var result := Or(e.resultSummary, "The Codex turn has ended.");
    if queued.Some? {
      QueueSound(cfg, m'', e, queued.value, now, if state.Some? then state.value.taskSummary else TaskSummary(m'', e), result);
    }
  }

  lemma CancelKeepsRest(m: Manager, session: string, turn: Option<string>, category: Option<Category>)
    ensures var m' := Cancel(m, session, turn, category);
            m'.turns == m.turns && m'.dispatch == m.dispatch && m'.receipts == m.receipts && m'.seen == m.seen
  {}

  lemma IngestSound(cfg: Config, m: Manager, e: HookEvent, now: int)
    requires Sound(m) && Harmless(cfg, m, DoIngest(e, now))
    ensures Sound(Ingest(cfg, m, e, now))
  {
    hide Sound, Dead, Tied, Cancel, Queue, OnStop, MarkSeen, TaskSummary, Or, StopCategory;
    if e.id !in m.seen {
      var m1 := m.(seen := MarkSeen(m.seen, e.id, now));
      RestSound(m, m1);
      match e.name
      case UserPromptSubmit =>
        CancelSound(m1, e.session, None, None);
        RestSound(Cancel(m1, e.session, None, None), OnPrompt(m1, e, now));
      case PostToolUse => CancelSound(m1, e.session, e.turn, Some(ApprovalRequired));
      case SessionEnd =>
        CancelSound(m1, e.session, None, None);
        RestSound(Cancel(m1, e.session, None, None), OnSessionEnd(m1, e));
      case PermissionRequest =>
        QueueSound(cfg, m1, e, ApprovalRequired, now, TaskSummary(m1, e), Or(e.resultSummary, "Codex is waiting for approval."));
      case Stop => if !e.continued { StopSound(cfg, m1, e, now); }
    }
  }

  // ---- Dispatching ----

  lemma BeginSound(cfg: Config, m: Manager, now: int)
    requires Sound(m)
    ensures Sound(BeginDispatch(cfg, m, now))
  {
    var m' := BeginDispatch(cfg, m, now);
    DueItemsShape(m.pending, now);
    hide Dead, Known, LogQuiet;
    if m' != m {
      forall x | x in m'.dispatch.value.due ensures SoundDue(m', x) {
        forall z | z in m.pending && z.id == x.id ensures z == x { DistinctValue(m.pending, x, z); }
      }
    }
  }

  lemma PickSound(m: Manager)
    requires Sound(m)
    ensures Sound(PickNext(m))
  {
    if m.dispatch.None? || m.dispatch.value.sending.Some? || m.dispatch.value.due == [] {
      PickQuiet(m);
    } else {
      var d := m.dispatch.value;
      var item := d.due[0];
      PickCases(m);
      TailDistinct(d.due);
      FindMember(m.pending, item.id);
      WithoutPlace(m.pending, item.id);
      assert SoundDue(m, item);
      if Find(m.pending, item.id).Some? {
        var o := if (item.id, item.category) in m.receipts then Skipped(item.ticket) else Started(item.ticket, d.now);
        PickedSound(m, item, o);
        EmptyKept((x: Item) => x.id != item.id);
      } else {
        PassedSound(m, PickNext(m));
      }
    }
  }

  /** Looking past a candidate that is gone. */
  lemma PassedSound(m: Manager, m': Manager)
    requires Sound(m) && m.dispatch.Some? && m.dispatch.value.due != [] && m.dispatch.value.sending.None?
    requires m'.pending == m.pending && m'.inflight == m.inflight && m'.log == m.log && m'.tickets == m.tickets
    requires m'.dispatch == Some(m.dispatch.value.(due := m.dispatch.value.due[1..]))
    ensures Sound(m')
  {
    TailDistinct(m.dispatch.value.due);
    hide Dead, Known, LogQuiet, Tied, TicketsOk;
    forall x | x in m'.dispatch.value.due ensures SoundDue(m', x) { assert SoundDue(m, x); }
  }

  lemma PickedSound(m: Manager, item: Item, o: Obs)
    requires Sound(m) && m.dispatch.Some? && m.dispatch.value.sending.None? && m.dispatch.value.due != []
    requires item == m.dispatch.value.due[0] && Find(m.pending, item.id).Some?
    requires PickNext(m).log == m.log + [o] && PickNext(m).pending == Without(m.pending, item.id)
    requires o == if (item.id, item.category) in m.receipts then Skipped(item.ticket) else Started(item.ticket, m.dispatch.value.now)
    ensures Sound(PickNext(m))
  {
    var m', d := PickNext(m), m.dispatch.value;
    PickCases(m);
    hide PickNext;
    TailDistinct(d.due);
    FindMember(m.pending, item.id);
    WithoutPlace(m.pending, item.id);
    assert SoundDue(m, item);
    QuietAppend(m.log, o);
    SameLives(m, o);
    assert Without([], item.id) == [] && Put([], item) == [item];
    hide Dead, Known, LogQuiet, Tied, TicketsOk, Find, Without, Put;
    forall x | x in d.due[1..] ensures SoundDue(m', x) { assert SoundDue(m, x); }
  }

  lemma FinishSoundDue(m: Manager, m': Manager, s: Item, again: Item, x: Item)
    requires SoundDue(m, x) && x.id != s.id && again.id == s.id && DistinctIds(m.pending)
    requires m'.pending == m.pending || m'.pending == Put(m.pending, again)
    requires forall y :: Known(m.log, y) ==> Known(m'.log, y)
    requires forall t :: Dead(m'.log, t) <==> Dead(m.log, t)
    ensures SoundDue(m', x)
  {
    PutPlace(m.pending, again);
    hide Put, Known, Dead, Tied, DistinctIds;
  }

  lemma FinishSound(m: Manager, delivered: nat)
    requires Sound(m)
    ensures Sound(FinishSend(m, delivered))
  {
    if m.dispatch.Some? && m.dispatch.value.sending.Some? {
      var d := m.dispatch.value;
      var m' := FinishSend(m, delivered);
      EndsSend(m, delivered);
      hide FinishSend;
      if m'.log != m.log { FinishBooked(m, m', m'.log[|m.log|]); }
      FinishTogether(m, m', d, Again(d, d.sending.value));
    }
  }

  lemma FinishTogether(m: Manager, m': Manager, d: Dispatch, again: Item)
    requires Sound(m) && m.dispatch == Some(d) && d.sending.Some? && SameCandidate(again, d.sending.value)
    requires m'.inflight == [] && m'.dispatch == Some(d.(sending := None))
    requires TicketsOk(m'.log, m'.tickets) && LogQuiet(m'.log)
    requires m'.pending == m.pending || (m.inflight != [] && m'.pending == Put(m.pending, again))
    requires forall y :: Known(m.log, y) ==> Known(m'.log, y)
    requires forall t :: Dead(m'.log, t) <==> Dead(m.log, t)
    ensures Sound(m')
  {
    PutPlace(m.pending, again);
    assert Known(m.log, d.sending.value) ==> Known(m.log, again);
    hide Dead, Known, LogQuiet, Tied, TicketsOk, Put, DistinctIds;
    forall x | x in d.due ensures SoundDue(m', x) { FinishSoundDue(m, m', d.sending.value, again, x); }
    hide SoundDue;
  }

  lemma FinishBooked(m: Manager, m': Manager, o: Obs)
    requires TicketsOk(m.log, m.tickets) && LogQuiet(m.log) && m'.log == m.log + [o] && m'.tickets == m.tickets
    requires o.Delivered? || (o.Requeued? && !Dead(m.log, o.ticket))
    ensures TicketsOk(m'.log, m'.tickets) && LogQuiet(m'.log)
    ensures forall x :: Known(m.log, x) ==> Known(m'.log, x)
    ensures forall t :: Dead(m'.log, t) <==> Dead(m.log, t)
  {
    QuietAppend(m.log, o);
    SameLives(m, o);
  }

  // ---- Every run ----

  lemma ActSound(cfg: Config, m: Manager, a: Action)
    requires Sound(m) && Harmless(cfg, m, a)
    ensures Sound(Act(cfg, m, a))
  {
    hide Sound;
    match a
    case DoIngest(e, now) => IngestSound(cfg, m, e, now);
    case DoPrune(before) => RestSound(m, Prune(m, before));
    case DoBegin(now) => BeginSound(cfg, m, now);
    case DoPick => PickSound(m);
    case DoFinish(delivered) => FinishSound(m, delivered);
  }

  lemma {:induction false} RunSound(cfg: Config, m: Manager, trace: seq<Action>)
    requires Sound(m) && HarmlessAll(cfg, m, trace)
    ensures Sound(Run(cfg, m, trace))
  {
    hide Sound, Act, Harmless;
    if trace != [] {
      var n := |trace| - 1;
      forall k | 0 <= k < n ensures Harmless(cfg, Run(cfg, m, trace[..n][..k]), trace[..n][k]) {
        assert trace[..n][..k] == trace[..k];
      }
      RunSound(cfg, m, trace[..n]);
      ActSound(cfg, Run(cfg, m, trace[..n]), trace[n]);
    }
  }

  // ---- Runs, put together ----

  lemma HarmlessConcat(cfg: Config, m: Manager, a: seq<Action>, b: seq<Action>)
    requires HarmlessAll(cfg, m, a) && HarmlessAll(cfg, Run(cfg, m, a), b)
    ensures HarmlessAll(cfg, m, a + b) && Run(cfg, m, a + b) == Run(cfg, Run(cfg, m, a), b)
  {
    hide Act, Run, Harmless;
    RunConcat(cfg, m, a, b);
    var mid := Run(cfg, m, a);
    forall k | 0 <= k < |a + b| ensures Harmless(cfg, Run(cfg, m, (a + b)[..k]), (a + b)[k]) {
      if k < |a| {
        assert (a + b)[..k] == a[..k];
        assert Harmless(cfg, Run(cfg, m, a[..k]), a[k]);
      } else {
        var j := k - |a|;
        assert (a + b)[..k] == a + b[..j];
        RunConcat(cfg, m, a, b[..j]);
        assert Harmless(cfg, Run(cfg, mid, b[..j]), b[j]);
      }
    }
  }

  /** One step in front of a run. */
  lemma HarmlessFirst(cfg: Config, m: Manager, a: Action, rest: seq<Action>)
    requires Harmless(cfg, m, a) && HarmlessAll(cfg, Act(cfg, m, a), rest)
    ensures HarmlessAll(cfg, m, [a] + rest) && Run(cfg, m, [a] + rest) == Run(cfg, Act(cfg, m, a), rest)
  {
    hide Act, Run, Harmless;
    RunOne(cfg, m, a);
    assert [a][..0] == [] && Run(cfg, m, []) == m by { RunNone(cfg, m); }
    HarmlessConcat(cfg, m, [a], rest);
  }

  lemma RunNone(cfg: Config, m: Manager)
    ensures Run(cfg, m, []) == m
  {}

  // ---- A harmful reuse ----

  /** A cancelled candidate is still to be looked at, and its id is in the queue. */
  ghost predicate Trap(m: Manager, x: Item) {
    && m.dispatch.Some? && x in m.dispatch.value.due && DistinctIds(m.dispatch.value.due)
    && Find(m.pending, x.id).Some?
    && (x.id, x.category) !in m.receipts
    && Dead(m.log, x.ticket)
    && (m.dispatch.value.sending.Some? ==>
         && m.dispatch.value.sending.value.id != x.id
         && (m.inflight == [] || m.inflight == [m.dispatch.value.sending.value]))
    && (m.dispatch.value.sending.None? ==> m.inflight == [])
  }

  lemma FindOther(items: seq<Item>, id: Id, other: Id)
    requires id != other && Find(items, id).Some?
    ensures Find(Without(items, other), id).Some?
  {
    FindMember(items, id);
    FindMember(Without(items, other), id);
    WithoutMember(items, other, Find(items, id).value);
  }

  lemma DeadStays(log: seq<Obs>, o: Obs, ticket: nat)
    requires Dead(log, ticket)
    ensures Dead(log + [o], ticket)
  {
    DeadAppend(log, o, ticket);
  }

  lemma TrapFinishes(m: Manager, x: Item)
    requires Trap(m, x) && m.dispatch.value.sending.Some?
    ensures Trap(FinishSend(m, 1), x) && FinishSend(m, 1).dispatch.value.sending.None?
    ensures FinishSend(m, 1).dispatch.value.due == m.dispatch.value.due
  {
    EndsSend(m, 1);
    DeadStays(m.log, Delivered(m.dispatch.value.sending.value.ticket), x.ticket);
    hide FinishSend, Dead, Find;
  }

  lemma TrapPicks(m: Manager, x: Item)
    requires Trap(m, x) && m.dispatch.value.sending.None? && m.dispatch.value.due[0] != x
    ensures Trap(PickNext(m), x) && PickNext(m).dispatch.value.due == m.dispatch.value.due[1..]
  {
    var d := m.dispatch.value;
    var y := d.due[0];
    PickCases(m);
    hide PickNext;
    TailDistinct(d.due);
    var i :| 0 <= i < |d.due| && d.due[i] == x;
    assert d.due[1..][i - 1] == x;
    FindOther(m.pending, x.id, y.id);
    DeadStays(m.log, Skipped(y.ticket), x.ticket);
    DeadStays(m.log, Started(y.ticket, d.now), x.ticket);
    assert Without([], y.id) == [] && Put([], y) == [y];
    hide Dead, Find, Without, Put, DistinctIds;
  }

  lemma TrapCloses(m: Manager, x: Item)
    requires Trap(m, x) && m.dispatch.value.sending.None? && m.dispatch.value.due[0] == x
    ensures !LogQuiet(PickNext(m).log)
  {
    PickCases(m);
    var log := PickNext(m).log;
    assert log[..|m.log|] == m.log && log[|m.log|].Started?;
  }

  /** The dispatch goes on, and the cancelled candidate is sent. */
  lemma {:induction false} TrapSprings(cfg: Config, m: Manager, x: Item) returns (trace: seq<Action>)
    requires Trap(m, x)
    ensures HarmlessAll(cfg, m, trace) && !LogQuiet(Run(cfg, m, trace).log)
    decreases |m.dispatch.value.due|, if m.dispatch.value.sending.Some? then 1 else 0
  {
    var d := m.dispatch.value;
    var rest: seq<Action> := [];
    if d.sending.Some? {
      TrapFinishes(m, x);
      rest := TrapSprings(cfg, FinishSend(m, 1), x);
      HarmlessFirst(cfg, m, DoFinish(1), rest);
      trace := [DoFinish(1)] + rest;
    } else if d.due[0] == x {
      TrapCloses(m, x);
      HarmlessFirst(cfg, m, DoPick, []);
      RunNone(cfg, PickNext(m));
      trace := [DoPick] + [];
    } else {
      TrapPicks(m, x);
      rest := TrapSprings(cfg, PickNext(m), x);
      HarmlessFirst(cfg, m, DoPick, rest);
      trace := [DoPick] + rest;
    }
  }

  lemma SomeMember<T>(s: set<T>) returns (x: T)
    requires s != {}
    ensures x in s
  {
    x :| x in s;
  }

  lemma {:induction false} UnseenId(ids: set<Id>) returns (id: Id)
    ensures id !in ids && forall i :: i in ids ==> i < id
  {
    if ids == {} {
      id := 0;
    } else {
      var i := SomeMember(ids);
      var rest := UnseenId(ids - {i});
      id := if i < rest then rest else i + 1;
      forall j | j in ids ensures j < id { if j != i { assert j in ids - {i}; } }
    }
  }

  /** An event that cancels x and spares z: a prompt of x's session, or the end of its tool use. */
  function Parting(id: Id, x: Item, z: Item): HookEvent {
    if x.session != z.session then HookEvent(id, UserPromptSubmit, x.session, None, "", "", false)
    else HookEvent(id, PostToolUse, x.session, Some(x.turn), "", "", false)
  }

  /** A candidate x is still to be looked at, and z has its id and its place in the queue. */
  ghost predicate Harmed(m: Manager, x: Item, z: Item) {
    && m.dispatch.Some? && x in m.dispatch.value.due && DistinctIds(m.dispatch.value.due)
    && z in m.pending && z.id == x.id
    && (Dead(m.log, x.ticket) || !Tied(x, z.session, z.turn, z.category))
    && TicketsOk(m.log, m.tickets) && Known(m.log, x)
    && (m.dispatch.value.sending.Some? ==>
         && m.dispatch.value.sending.value.id != x.id
         && (m.inflight == [] || m.inflight == [m.dispatch.value.sending.value]))
    && (m.dispatch.value.sending.None? ==> m.inflight == [])
  }

  lemma PartingSets(cfg: Config, m: Manager, x: Item, z: Item, id: Id)
    requires id !in m.seen && Harmed(m, x, z) && !Tied(x, z.session, z.turn, z.category) && m.receipts == map[]
    ensures var a := DoIngest(Parting(id, x, z), 0);
            Harmless(cfg, m, a) && Trap(Act(cfg, m, a), x)
  {
    var e := Parting(id, x, z);
    var turn, category := if x.session != z.session then None else Some(x.turn),
                          if x.session != z.session then None else Some(ApprovalRequired);
    var m1 := m.(seen := MarkSeen(m.seen, id, 0));
    var m' := Ingest(cfg, m, e, 0);
    hide MarkSeen;
    assert m' == Cancel(m1, x.session, turn, category);
    assert Hits(x, x.session, turn, category) && !Hits(z, x.session, turn, category);
    DeadAfterCancel(m.log, m.tickets, Cancelled(x.session, turn, category), x);
    KeepMember(m.pending, (y: Item) => !Hits(y, x.session, turn, category), z);
    FindMember(m'.pending, x.id);
    if m.dispatch.value.sending.Some? { CancelSending(m1, x.session, turn, category, m.dispatch.value.sending.value); }
    EmptyKept((y: Item) => !Hits(y, x.session, turn, category));
    hide Dead, Find, DistinctIds, Known, TicketsOk, Ingest;
  }

  /** What a harmful ingest leaves behind. */
  lemma Harm(cfg: Config, m: Manager, e: HookEvent, now: int) returns (x: Item, z: Item)
    requires Sound(m) && !Harmless(cfg, m, DoIngest(e, now))
    ensures Harmed(Ingest(cfg, m, e, now), x, z)
  {
    hide Dead, Known, Tied, LogQuiet, Lives, SoundSending, MarkSeen, StopCategory;
    var category := Queues(cfg, m, e, now).value;
    x :| x in m.dispatch.value.due && x.id == e.id && (Dead(m.log, x.ticket) || !Tied(x, e.session, TurnOf(e), category));
    assert SoundDue(m, x);
    var m1 := m.(seen := MarkSeen(m.seen, e.id, now));
    RestSound(m, m1);
    assert Queues(cfg, m1, e, now) == Queues(cfg, m, e, now);
    hide Queues, IngestNew, TicketsOk, DistinctIds;
    z := HarmQueued(cfg, m1, e, now, x);
  }

  lemma HarmQueued(cfg: Config, m: Manager, e: HookEvent, now: int, x: Item) returns (z: Item)
    requires Sound(m) && Queues(cfg, m, e, now).Some? && m.dispatch.Some? && x in m.dispatch.value.due
    requires x.id == e.id && Known(m.log, x)
    ensures var m' := IngestNew(cfg, m, e, now);
            && z in m'.pending && z.id == e.id && z.session == e.session && z.turn == TurnOf(e)
            && z.category == Queues(cfg, m, e, now).value
            && TicketsOk(m'.log, m'.tickets) && Known(m'.log, x) && (Dead(m.log, x.ticket) ==> Dead(m'.log, x.ticket))
            && (m.dispatch.value.sending.Some? ==>
                 && m.dispatch.value.sending.value.id != x.id
                 && (m'.inflight == [] || m'.inflight == [m.dispatch.value.sending.value]))
            && (m.dispatch.value.sending.None? ==> m'.inflight == [])
  {
    var m' := m;
    if e.name.Stop? && Named(e.turn) {
      m' := Cancel(m, e.session, e.turn, Some(ApprovalRequired));
      CancelFacts(m, e.session, e.turn, Some(ApprovalRequired));
      EmptyKept((y: Item) => !Hits(y, e.session, e.turn, Some(ApprovalRequired)));
      if m.dispatch.value.sending.Some? {
        CancelSending(m, e.session, e.turn, Some(ApprovalRequired), m.dispatch.value.sending.value);
      }
    }
    assert m'.turns == m.turns;
    z := Queueing(cfg, m, m', e, now, x);
  }

  lemma Queueing(cfg: Config, m: Manager, m': Manager, e: HookEvent, now: int, x: Item) returns (z: Item)
    requires Queues(cfg, m, e, now).Some?
    requires m' == if e.name.Stop? && Named(e.turn) then Cancel(m, e.session, e.turn, Some(ApprovalRequired)) else m
    requires TicketsOk(m'.log, m'.tickets) && DistinctIds(m'.pending) && Known(m'.log, x)
    ensures var m'' := IngestNew(cfg, m, e, now);
            && z in m''.pending && z.id == e.id && z.session == e.session && z.turn == TurnOf(e)
            && z.category == Queues(cfg, m, e, now).value
            && TicketsOk(m''.log, m''.tickets) && Known(m''.log, x) && (Dead(m'.log, x.ticket) ==> Dead(m''.log, x.ticket))
            && m''.inflight == m'.inflight
  {
    CancelKeepsRest(m, e.session, e.turn, Some(ApprovalRequired));
    hide Dead, Known, Cancel, StopCategory, Or, TaskSummary, TicketsOk, DistinctIds;
    var m'' := IngestNew(cfg, m, e, now);
    z := m''.log[|m'.log|].item;
    assert m''.pending == Put(m'.pending, z) && m''.log == m'.log + [Queued(z)] && z.ticket == m'.tickets;
    PutPlace(m'.pending, z);
    NewAlive(m', z);
    KnownAppend(m'.log, Queued(z), x);
    DeadAfterOther(m'.log, Queued(z), x.ticket);
  }

  /** With no receipts left, the dispatch revives x once it is cancelled. */
  lemma HarmedRevives(cfg: Config, m: Manager, x: Item, z: Item) returns (more: seq<Action>)
    requires Harmed(m, x, z) && m.receipts == map[]
    ensures HarmlessAll(cfg, m, more) && !LogQuiet(Run(cfg, m, more).log)
  {
    hide Dead, DistinctIds, TicketsOk, Known, LogQuiet, Tied;
    if Dead(m.log, x.ticket) {
      FindMember(m.pending, x.id);
      more := TrapSprings(cfg, m, x);
    } else {
      var id := UnseenId(m.seen.Keys);
      var a := DoIngest(Parting(id, x, z), 0);
      PartingSets(cfg, m, x, z, id);
      hide Harmed, Trap, Parting;
      var rest := TrapSprings(cfg, Act(cfg, m, a), x);
      HarmlessFirst(cfg, m, a, rest);
      more := [a] + rest;
    }
  }

  /** If a reuse is harmful, then some continuation, itself without harmful reuse, sends a cancelled
      candidate. */
  lemma HarmfulReuseRevives(cfg: Config, m: Manager, e: HookEvent, now: int) returns (more: seq<Action>)
    requires Sound(m) && !Harmless(cfg, m, DoIngest(e, now))
    ensures HarmlessAll(cfg, Ingest(cfg, m, e, now), more)
    ensures !LogQuiet(Run(cfg, Ingest(cfg, m, e, now), more).log)
  {
    hide Ingest, Sound, LogQuiet, Run, HarmlessAll, Harmless, Dead, Tied;
    var m' := Ingest(cfg, m, e, now);
    var x, z := Harm(cfg, m, e, now);
    var before := PrunesAll(m');
    var m1 := Prune(m', before);
    assert Harmed(m1, x, z);
    hide Harmed;
    var rest := HarmedRevives(cfg, m1, x, z);
    PruningHarmless(cfg, m', before);
    HarmlessFirst(cfg, m', DoPrune(before), rest);
    more := [DoPrune(before)] + rest;
  }

  lemma PrunesAll(m: Manager) returns (before: int)
    ensures Prune(m, before) == m.(receipts := map[])
  {
    before := UnseenId(m.receipts.Values);
    forall k | k in m.receipts ensures m.receipts[k] < before { assert m.receipts[k] in m.receipts.Values; }
    assert PruneReceipts(m.receipts, before) == map[];
  }

  lemma PruningHarmless(cfg: Config, m: Manager, before: int)
    ensures Harmless(cfg, m, DoPrune(before)) && Act(cfg, m, DoPrune(before)) == Prune(m, before)
  {}

  /** Exactly the harmful reuses are dangerous: after an event is ingested, no continuation without harmful
      reuse starts a send of a cancelled candidate, or queues one for a retry, if and only if the event
      itself was harmless. */
  lemma CancellationHoldsIff(cfg: Config, m: Manager, e: HookEvent, now: int)
    requires Sound(m)
    ensures Harmless(cfg, m, DoIngest(e, now))
      <==> forall more :: HarmlessAll(cfg, Ingest(cfg, m, e, now), more) ==> LogQuiet(Run(cfg, Ingest(cfg, m, e, now), more).log)
  {
    var m' := Ingest(cfg, m, e, now);
    hide Ingest, Harmless, LogQuiet, SoundDispatch, TicketsOk, DistinctIds, Lives, Run;
    if Harmless(cfg, m, DoIngest(e, now)) {
      IngestSound(cfg, m, e, now);
      forall more | HarmlessAll(cfg, m', more) ensures LogQuiet(Run(cfg, m', more).log) { RunSound(cfg, m', more); }
    } else {
      var more := HarmfulReuseRevives(cfg, m, e, now);
    }
  }

  // ---- Cancelling a session ----

  lemma StartSound()
    ensures Sound(EMPTY)
  {}

  /** Once a prompt or the end of a session is ingested, no candidate queued earlier for that session ever
      starts a send or is queued for a retry, however ingests and dispatches interleave. Only a send that
      is already under way may still end. */
  lemma PromptSilencesSession(cfg: Config, m: Manager, e: HookEvent, now: int, more: seq<Action>, i: nat, k: nat)
    requires Sound(m) && HarmlessAll(cfg, Ingest(cfg, m, e, now), more)
    requires e.id !in m.seen && (e.name.UserPromptSubmit? || e.name.SessionEnd?)
    requires i < |m.log| <= k < |Run(cfg, Ingest(cfg, m, e, now), more).log|
    requires m.log[i].Queued? && m.log[i].item.session == e.session
    ensures var o := Run(cfg, Ingest(cfg, m, e, now), more).log[k];
            !((o.Started? || o.Requeued?) && o.ticket == m.log[i].item.ticket)
  {
    var mid := Ingest(cfg, m, e, now);
    var log := Run(cfg, mid, more).log;
    hide Sound, Ingest, Run, HarmlessAll;
    FreshPrompt(cfg, m, e, now);
    IngestSound(cfg, m, e, now);
    IngestLog(cfg, m, e, now);
    RunLogGrows(cfg, mid, [], more);
    RunNone(cfg, mid);
    assert [] + more == more;
    RunSound(cfg, mid, more);
    QuietOf(Run(cfg, mid, more));
    hide LogQuiet;
    assert mid.log == m.log + [Cancelled(e.session, None, None)] && mid.log <= log;
    assert log[i] == mid.log[i] && log[|m.log|] == mid.log[|m.log|];
    if k > |m.log| { DeadStaysQuiet(log, i, |m.log|, k); }
  }

  lemma QuietOf(m: Manager)
    requires Sound(m)
    ensures LogQuiet(m.log)
  {}

  /** A prompt or the end of a session queues nothing. */
  lemma FreshPrompt(cfg: Config, m: Manager, e: HookEvent, now: int)
    requires e.name.UserPromptSubmit? || e.name.SessionEnd?
    ensures Harmless(cfg, m, DoIngest(e, now))
  {}

  lemma DeadStaysQuiet(log: seq<Obs>, i: nat, j: nat, k: nat)
    requires LogQuiet(log) && i < j < k < |log|
    requires log[i].Queued? && log[j] == Cancelled(log[i].item.session, None, None)
    ensures !((log[k].Started? || log[k].Requeued?) && log[k].ticket == log[i].item.ticket)
  {
    assert log[..k][i] == log[i] && log[..k][j] == log[j];
    assert Dead(log[..k], log[i].item.ticket);
  }
}
