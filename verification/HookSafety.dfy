/** What holds of the hook notifications in every run whatsoever, however ids are reused: how often, how
    soon and how successfully a candidate is sent. */
module HookSafety {
  import opened Basics
  import opened Ordering
  import opened CodexHooks

  // ---- Lists of candidates ----

  ghost predicate DistinctIds(items: seq<Item>) {
    forall i, j :: 0 <= i < j < |items| ==> items[i].id != items[j].id
  }

  lemma {:induction false} KeepMember(items: seq<Item>, p: Item -> bool, x: Item)
    ensures x in Keep(items, p) <==> x in items && p(x)
  {
    if items != [] { KeepMember(items[1..], p, x); }
  }

  lemma {:induction false} KeepDistinct(items: seq<Item>, p: Item -> bool)
    requires DistinctIds(items)
    ensures DistinctIds(Keep(items, p))
  {
    if items != [] {
      KeepDistinct(items[1..], p);
      var rest := Keep(items[1..], p);
      forall k | 0 <= k < |rest| ensures rest[k].id != items[0].id {
        KeepMember(items[1..], p, rest[k]);
      }
    }
  }

  lemma {:induction false} FindMember(items: seq<Item>, id: Id)
    ensures Find(items, id).Some? ==> Find(items, id).value in items && Find(items, id).value.id == id
    ensures Find(items, id).None? ==> forall x :: x in items ==> x.id != id
  {
    if items != [] && items[0].id != id { FindMember(items[1..], id); }
  }

  lemma {:induction false} PutNew(items: seq<Item>, item: Item)
    requires forall x :: x in items ==> x.id != item.id
    ensures Put(items, item) == items + [item]
  {
    if items != [] { PutNew(items[1..], item); }
  }

  lemma KeepOne(items: seq<Item>, p: Item -> bool)
    requires |items| <= 1
    ensures Keep(items, p) == if items != [] && p(items[0]) then items else []
  {
    if items != [] { assert items == [items[0]] && items[1..] == []; }
  }

  lemma WithoutMember(items: seq<Item>, id: Id, x: Item)
    ensures x in Without(items, id) <==> x in items && x.id != id
  {
    KeepMember(items, (x: Item) => x.id != id, x);
  }

  lemma {:induction false} PutPlace(items: seq<Item>, item: Item)
    requires DistinctIds(items)
    ensures DistinctIds(Put(items, item))
    ensures forall x :: x in Put(items, item) <==> x == item || (x in items && x.id != item.id)
  {
    if items != [] {
      PutPlace(items[1..], item);
      var rest := Put(items[1..], item);
      assert forall x :: x in items <==> x == items[0] || x in items[1..];
      if items[0].id != item.id {
        assert forall x :: x in [items[0]] + rest <==> x == items[0] || x in rest;
        forall k | 0 <= k < |rest| ensures rest[k].id != items[0].id { assert rest[k] in rest; }
      } else {
        assert forall x :: x in [item] + items[1..] <==> x == item || x in items[1..];
      }
    } else {
      assert forall x :: x in [item] <==> x == item;
    }
  }

  lemma WithoutPlace(items: seq<Item>, id: Id)
    requires DistinctIds(items)
    ensures DistinctIds(Without(items, id)) && forall x :: x in Without(items, id) <==> x in items && x.id != id
  {
    KeepDistinct(items, (x: Item) => x.id != id);
    forall x ensures x in Without(items, id) <==> x in items && x.id != id { WithoutMember(items, id, x); }
  }

  lemma EmptyKept(p: Item -> bool)
    ensures Keep([], p) == []
  {}

  // ---- The history of a candidate ----

  ghost predicate SameCandidate(a: Item, b: Item) {
    a.ticket == b.ticket && a.id == b.id && a.session == b.session && a.turn == b.turn
    && a.category == b.category && a.queuedAt == b.queuedAt
  }

  ghost predicate Known(log: seq<Obs>, x: Item) {
    exists k :: 0 <= k < |log| && log[k].Queued? && SameCandidate(log[k].item, x)
  }

  /** The candidate was queued before an event that cancels it. */
  ghost predicate Dead(log: seq<Obs>, ticket: nat) {
    exists i, j :: 0 <= i < j < |log| && log[i].Queued? && log[i].item.ticket == ticket
      && log[j].Cancelled? && Hits(log[i].item, log[j].session, log[j].turn, log[j].category)
  }

  function Starts(log: seq<Obs>, ticket: nat): nat {
    if log == [] then 0
    else
      var o := log[|log| - 1];
      Starts(log[..|log| - 1], ticket) + if o.Started? && o.ticket == ticket then 1 else 0
  }

  /** When the last send of a candidate started. */
  function LastStart(log: seq<Obs>, ticket: nat): Option<int> {
    if log == [] then None
    else
      var o := log[|log| - 1];
      if o.Started? && o.ticket == ticket then Some(o.at) else LastStart(log[..|log| - 1], ticket)
  }

  lemma StartsAppend(log: seq<Obs>, o: Obs, ticket: nat)
    ensures Starts(log + [o], ticket) == Starts(log, ticket) + if o.Started? && o.ticket == ticket then 1 else 0
    ensures LastStart(log + [o], ticket) == if o.Started? && o.ticket == ticket then Some(o.at) else LastStart(log, ticket)
  {
    assert (log + [o])[..|log|] == log;
  }

  /** Appending anything but a matching cancellation kills nobody, and nobody comes back to life. */
  lemma DeadAppend(log: seq<Obs>, o: Obs, ticket: nat)
    ensures Dead(log, ticket) ==> Dead(log + [o], ticket)
    ensures Dead(log + [o], ticket) ==>
      Dead(log, ticket) ||
      (o.Cancelled? && exists i :: 0 <= i < |log| && log[i].Queued? && log[i].item.ticket == ticket
                         && Hits(log[i].item, o.session, o.turn, o.category))
  {
    var log' := log + [o];
    if i, j :| 0 <= i < j < |log| && log[i].Queued? && log[i].item.ticket == ticket
               && log[j].Cancelled? && Hits(log[i].item, log[j].session, log[j].turn, log[j].category) {
      assert log'[i] == log[i] && log'[j] == log[j];
    }
  }

  lemma KnownAppend(log: seq<Obs>, o: Obs, x: Item)
    requires Known(log, x)
    ensures Known(log + [o], x)
  {
    var k :| 0 <= k < |log| && log[k].Queued? && SameCandidate(log[k].item, x);
    assert (log + [o])[k] == log[k];
  }

  // ---- Invariant ----

  ghost predicate TicketsOk(log: seq<Obs>, tickets: nat) {
    && (forall i :: 0 <= i < |log| && log[i].Queued? ==> log[i].item.ticket < tickets)
    && (forall i, j :: 0 <= i < j < |log| && log[i].Queued? && log[j].Queued? ==> log[i].item.ticket != log[j].item.ticket)
  }

  /** How long the retry after the n-th failed send waits. */
  function RetryWait(n: nat): int { if n == 1 then 10 else 20 }

  /** A candidate that waits is undelivered and has failed as often as it says, the last time as long ago as
      its due time says. */
  ghost predicate Idle(cfg: Config, log: seq<Obs>, x: Item) {
    && Known(log, x)
    && x.dueAt >= x.queuedAt + cfg.grace
    && (x.attempts >= 1 ==> LastStart(log, x.ticket).Some? && x.dueAt == LastStart(log, x.ticket).value + RetryWait(x.attempts))
    && x.attempts <= 2
    && Starts(log, x.ticket) == x.attempts
    && Delivered(x.ticket) !in log
  }

  /** A candidate whose send is under way has one start more. */
  ghost predicate Sending(cfg: Config, log: seq<Obs>, x: Item, now: int) {
    && Known(log, x)
    && now >= x.queuedAt + cfg.grace
    && x.attempts <= 2
    && Starts(log, x.ticket) == x.attempts + 1
    && LastStart(log, x.ticket) == Some(now)
    && Delivered(x.ticket) !in log
  }

  ghost predicate Inflight(m: Manager) {
    m.inflight == [] || (m.dispatch.Some? && m.dispatch.value.sending.Some? && m.inflight == [m.dispatch.value.sending.value])
  }

  ghost predicate DispatchOk(cfg: Config, m: Manager, d: Dispatch) {
    && DistinctIds(d.due)
    && (forall x :: x in d.due ==> Idle(cfg, m.log, x) && x.dueAt <= d.now)
    && (d.sending.Some? ==>
         && Sending(cfg, m.log, d.sending.value, d.now)
         && (forall x :: x in d.due ==> x.id != d.sending.value.id)
         && (forall x :: x in m.pending ==> x.ticket != d.sending.value.ticket))
  }

  /** What one entry of the log may be, given the log before it: a send starts only after the grace period, at
      most three times, and as a retry no sooner than the one before says; a retry is queued for 10 seconds
      after the first send and 20 after the second; none follows a delivery, and a candidate is delivered at
      most once. */
  ghost predicate Proper(cfg: Config, log: seq<Obs>, o: Obs) {
    match o
    case Started(ticket, at) =>
      && Starts(log, ticket) <= 2
      && (Starts(log, ticket) >= 1 ==>
           LastStart(log, ticket).Some? && at >= LastStart(log, ticket).value + RetryWait(Starts(log, ticket)))
      && Delivered(ticket) !in log
      && exists k :: 0 <= k < |log| && log[k].Queued? && log[k].item.ticket == ticket && at >= log[k].item.queuedAt + cfg.grace
    case Requeued(ticket, dueAt) =>
      && 1 <= Starts(log, ticket) <= 2 && Delivered(ticket) !in log
      && LastStart(log, ticket).Some? && dueAt == LastStart(log, ticket).value + RetryWait(Starts(log, ticket))
    case Delivered(ticket) => Delivered(ticket) !in log && Starts(log, ticket) >= 1
    case _ => true
  }

  ghost predicate LogOk(cfg: Config, log: seq<Obs>) {
    forall k :: 0 <= k < |log| ==> Proper(cfg, log[..k], log[k])
  }

  ghost predicate Inv(cfg: Config, m: Manager) {
    && TicketsOk(m.log, m.tickets)
    && DistinctIds(m.pending)
    && (forall x :: x in m.pending ==> Idle(cfg, m.log, x))
    && Inflight(m)
    && (m.dispatch.Some? ==> DispatchOk(cfg, m, m.dispatch.value))
    && LogOk(cfg, m.log)
  }

  // ---- Log entries ----

  lemma LogAppend(cfg: Config, log: seq<Obs>, o: Obs)
    requires LogOk(cfg, log) && Proper(cfg, log, o)
    ensures LogOk(cfg, log + [o])
  {
    var log' := log + [o];
    forall k | 0 <= k < |log'| ensures Proper(cfg, log'[..k], log'[k]) {
      assert log'[..k] == log[..k];
      if k == |log| { assert log[..k] == log; }
    }
  }

  /** Entries other than the candidate's own starts and deliveries leave its books alone. */
  lemma IdleAppend(cfg: Config, log: seq<Obs>, o: Obs, x: Item)
    requires Idle(cfg, log, x)
    requires o.Started? || o.Delivered? ==> o.ticket != x.ticket
    ensures Idle(cfg, log + [o], x)
  {
    KnownAppend(log, o, x);
    StartsAppend(log, o, x.ticket);
  }

  lemma SendingAppend(cfg: Config, log: seq<Obs>, o: Obs, x: Item, now: int)
    requires Sending(cfg, log, x, now)
    requires !o.Started? && !o.Delivered?
    ensures Sending(cfg, log + [o], x, now)
  {
    KnownAppend(log, o, x);
    StartsAppend(log, o, x.ticket);
  }

  lemma QueuedTwice(log: seq<Obs>, tickets: nat, x: Item, k: nat)
    requires TicketsOk(log, tickets) && Known(log, x)
    requires k < |log| && log[k].Queued? && log[k].item.ticket == x.ticket
    ensures SameCandidate(log[k].item, x)
  {
    var i :| 0 <= i < |log| && log[i].Queued? && SameCandidate(log[i].item, x);
    assert i == k;
  }

  lemma OtherTicket(log: seq<Obs>, tickets: nat, x: Item, y: Item)
    requires TicketsOk(log, tickets) && Known(log, x) && Known(log, y) && x.id != y.id
    ensures x.ticket != y.ticket
  {
    var k: nat :| k < |log| && log[k].Queued? && SameCandidate(log[k].item, x);
    if x.ticket == y.ticket { QueuedTwice(log, tickets, y, k); }
  }

  lemma {:induction false} StartedWasQueued(cfg: Config, log: seq<Obs>, ticket: nat)
    requires LogOk(cfg, log) && Starts(log, ticket) >= 1
    ensures exists k :: 0 <= k < |log| && log[k].Queued? && log[k].item.ticket == ticket
  {
    var n := |log| - 1;
    if log[n].Started? && log[n].ticket == ticket {
      assert Proper(cfg, log[..n], log[n]);
    } else {
      forall k | 0 <= k < n ensures Proper(cfg, log[..n][..k], log[..n][k]) { assert log[..n][..k] == log[..k]; }
      StartedWasQueued(cfg, log[..n], ticket);
      var k :| 0 <= k < n && log[..n][k].Queued? && log[..n][k].item.ticket == ticket;
      assert log[k] == log[..n][k];
    }
  }

  /** A ticket that was never given out has no history. */
  lemma FreshTicket(cfg: Config, log: seq<Obs>, tickets: nat)
    requires LogOk(cfg, log) && TicketsOk(log, tickets)
    ensures Starts(log, tickets) == 0 && !Dead(log, tickets) && Delivered(tickets) !in log
  {
    if Starts(log, tickets) >= 1 { StartedWasQueued(cfg, log, tickets); }
    if Delivered(tickets) in log {
      var k :| 0 <= k < |log| && log[k] == Delivered(tickets);
      assert Proper(cfg, log[..k], log[k]);
      forall i | 0 <= i < k ensures Proper(cfg, log[..k][..i], log[..k][i]) { assert log[..k][..i] == log[..i]; }
      StartedWasQueued(cfg, log[..k], tickets);
    }
  }

  /** Entries about other things leave all books alone. */
  lemma BooksAppend(cfg: Config, log: seq<Obs>, o: Obs)
    requires !o.Started? && !o.Delivered?
    ensures forall x :: Idle(cfg, log, x) ==> Idle(cfg, log + [o], x)
    ensures forall x, now :: Sending(cfg, log, x, now) ==> Sending(cfg, log + [o], x, now)
  {
    forall x | Idle(cfg, log, x) ensures Idle(cfg, log + [o], x) { IdleAppend(cfg, log, o, x); }
    forall x, now | Sending(cfg, log, x, now) ensures Sending(cfg, log + [o], x, now) { SendingAppend(cfg, log, o, x, now); }
  }

  lemma TicketsAppend(log: seq<Obs>, o: Obs, tickets: nat)
    requires TicketsOk(log, tickets) && !o.Queued?
    ensures TicketsOk(log + [o], tickets)
  {}

  // ---- Ingesting ----

  lemma CancelSending(m: Manager, session: string, turn: Option<string>, category: Option<Category>, s: Item)
    requires m.inflight == [] || m.inflight == [s]
    ensures Cancel(m, session, turn, category).inflight == if m.inflight == [s] && !Hits(s, session, turn, category) then [s] else []
  {
    KeepOne(m.inflight, (x: Item) => !Hits(x, session, turn, category));
  }

  /** An ingest leaves a running dispatch alone. */
  lemma DispatchKept(cfg: Config, m: Manager, m': Manager, d: Dispatch, o: Obs)
    requires DispatchOk(cfg, m, d) && m'.log == m.log + [o] && !o.Started? && !o.Delivered?
    requires d.sending.Some? ==> forall x :: x in m'.pending ==> x in m.pending || x.ticket != d.sending.value.ticket
    ensures DispatchOk(cfg, m', d)
  {
    hide Idle, Sending, DistinctIds;
    BooksAppend(cfg, m.log, o);
  }

  lemma CancelKeeps(cfg: Config, m: Manager, session: string, turn: Option<string>, category: Option<Category>)
    requires Inv(cfg, m)
    ensures Inv(cfg, Cancel(m, session, turn, category))
  {
    var c := Cancelled(session, turn, category);
    var p := (x: Item) => !Hits(x, session, turn, category);
    var m' := Cancel(m, session, turn, category);
    assert m'.pending == Keep(m.pending, p) && m'.inflight == Keep(m.inflight, p) && m'.log == m.log + [c];
    hide Cancel, Keep, Idle, LogOk, TicketsOk, DistinctIds, DispatchOk;
    forall x | x in m'.pending ensures x in m.pending { KeepMember(m.pending, p, x); }
    KeepDistinct(m.pending, p);
    EmptyKept(p);
    if m.inflight != [] { KeepOne(m.inflight, p); }
    TicketsAppend(m.log, c, m.tickets);
    LogAppend(cfg, m.log, c);
    BooksAppend(cfg, m.log, c);
    if m.dispatch.Some? { DispatchKept(cfg, m, m', m.dispatch.value, c); }
  }

  lemma NewCandidate(cfg: Config, log: seq<Obs>, tickets: nat, item: Item)
    requires LogOk(cfg, log) && TicketsOk(log, tickets)
    requires item.ticket == tickets && item.attempts == 0 && item.dueAt == item.queuedAt + cfg.grace
    ensures Idle(cfg, log + [Queued(item)], item) && TicketsOk(log + [Queued(item)], tickets + 1)
  {
    FreshTicket(cfg, log, tickets);
    StartsAppend(log, Queued(item), tickets);
    assert (log + [Queued(item)])[|log|] == Queued(item);
  }

  lemma KnownTicket(log: seq<Obs>, tickets: nat, x: Item)
    requires TicketsOk(log, tickets) && Known(log, x)
    ensures x.ticket < tickets
  {}

  /** What is being sent has an older ticket. */
  lemma OlderTicket(cfg: Config, m: Manager, d: Dispatch)
    requires TicketsOk(m.log, m.tickets) && DispatchOk(cfg, m, d) && d.sending.Some?
    ensures d.sending.value.ticket < m.tickets
  {
    KnownTicket(m.log, m.tickets, d.sending.value);
  }

  /** What queueing does. */
  lemma QueueCase(cfg: Config, m: Manager, e: HookEvent, category: Category, now: int, task: string, result: string)
    returns (item: Item)
    ensures var m' := Queue(cfg, m, e, category, now, task, result);
            m' == m.(pending := Put(m.pending, item), tickets := m.tickets + 1, log := m.log + [Queued(item)])
    ensures item.id == e.id && item.session == e.session && item.turn == (if Named(e.turn) then e.turn.value else "session")
    ensures item.category == category && item.ticket == m.tickets
    ensures item.attempts == 0 && item.dueAt == item.queuedAt + cfg.grace
  {
    item := Queue(cfg, m, e, category, now, task, result).log[|m.log|].item;
  }

  lemma QueueKeeps(cfg: Config, m: Manager, e: HookEvent, category: Category, now: int, task: string, result: string)
    requires Inv(cfg, m)
    ensures Inv(cfg, Queue(cfg, m, e, category, now, task, result))
  {
    hide Queue, Put, Idle, LogOk, TicketsOk, DistinctIds, DispatchOk;
    var m' := Queue(cfg, m, e, category, now, task, result);
    var item := QueueCase(cfg, m, e, category, now, task, result);
    var o := Queued(item);
    PutPlace(m.pending, item);
    if m.dispatch.Some? {
      if m.dispatch.value.sending.Some? { OlderTicket(cfg, m, m.dispatch.value); }
      DispatchKept(cfg, m, m', m.dispatch.value, o);
    }
    NewCandidate(cfg, m.log, m.tickets, item);
    LogAppend(cfg, m.log, o);
    BooksAppend(cfg, m.log, o);
  }

  lemma RestKeeps(cfg: Config, m: Manager, m': Manager)
    requires Inv(cfg, m) && m' == m.(turns := m'.turns, seen := m'.seen, receipts := m'.receipts)
    ensures Inv(cfg, m')
  {}

  lemma StopKeeps(cfg: Config, m: Manager, e: HookEvent, now: int)
    requires Inv(cfg, m)
    ensures Inv(cfg, OnStop(cfg, m, e, now))
  {
    hide Inv, Cancel, Queue, StopCategory, TaskSummary, Or;
    var m' := m;
    if Named(e.turn) {
      CancelKeeps(cfg, m, e.session, e.turn, Some(ApprovalRequired));
      m' := Cancel(m, e.session, e.turn, Some(ApprovalRequired));
    }
    var key := (e.session, if e.turn.Some? then e.turn.value else "");
    var state := if key in m'.turns then Some(m'.turns[key]) else None;
    var m'' := m'.(turns := m'.turns - {key});
    RestKeeps(cfg, m', m'');
    var elapsed := if state.Some? then Some(now - state.value.startedAt) else None;
    var result := Or(e.resultSummary, "The Codex turn has ended.");
    match StopCategory(cfg, result, elapsed)
    case None =>
    case Some(category) =>
      QueueKeeps(cfg, m'', e, category, now, if state.Some? then state.value.taskSummary else TaskSummary(m'', e), result);
  }

  lemma IngestKeeps(cfg: Config, m: Manager, e: HookEvent, now: int)
    requires Inv(cfg, m)
    ensures Inv(cfg, Ingest(cfg, m, e, now))
  {
    hide Inv, Cancel, Queue, OnStop, MarkSeen, TaskSummary, Or;
    if e.id !in m.seen {
      var m1 := m.(seen := MarkSeen(m.seen, e.id, now));
      RestKeeps(cfg, m, m1);
      match e.name
      case UserPromptSubmit =>
        CancelKeeps(cfg, m1, e.session, None, None);
        RestKeeps(cfg, Cancel(m1, e.session, None, None), OnPrompt(m1, e, now));
      case PostToolUse => CancelKeeps(cfg, m1, e.session, e.turn, Some(ApprovalRequired));
      case SessionEnd =>
        CancelKeeps(cfg, m1, e.session, None, None);
        RestKeeps(cfg, Cancel(m1, e.session, None, None), OnSessionEnd(m1, e));
      case PermissionRequest =>
        QueueKeeps(cfg, m1, e, ApprovalRequired, now, TaskSummary(m1, e), Or(e.resultSummary, "Codex is waiting for approval."));
      case Stop => if !e.continued { StopKeeps(cfg, m1, e, now); }
    }
  }

  // ---- Dispatching ----

  predicate SameId(a: Item, b: Item) { a.id == b.id }

  lemma DueItemsShape(pending: seq<Item>, now: int)
    requires DistinctIds(pending)
    ensures DistinctIds(DueItems(pending, now))
    ensures forall x :: x in DueItems(pending, now) <==> x in pending && x.dueAt <= now
  {
    var p := (x: Item) => x.dueAt <= now;
    KeepDistinct(pending, p);
    SortApart(Keep(pending, p), ByDue, SameId);
    forall x ensures x in DueItems(pending, now) <==> x in pending && x.dueAt <= now {
      SortMember(Keep(pending, p), ByDue, x);
      KeepMember(pending, p, x);
    }
  }

  lemma DistinctValue(items: seq<Item>, x: Item, y: Item)
    requires DistinctIds(items) && x in items && y in items && x.id == y.id
    ensures x == y
  {}

  lemma BeginKeeps(cfg: Config, m: Manager, now: int)
    requires Inv(cfg, m)
    ensures Inv(cfg, BeginDispatch(cfg, m, now))
  {
    DueItemsShape(m.pending, now);
  }

  lemma TailDistinct(due: seq<Item>)
    requires DistinctIds(due) && due != []
    ensures DistinctIds(due[1..]) && forall x :: x in due[1..] ==> x in due && x.id != due[0].id
  {}

  /** The ways a turn of the loop can go on. */
  lemma PickCases(m: Manager)
    requires m.dispatch.Some? && m.dispatch.value.sending.None? && m.dispatch.value.due != []
    ensures var d := m.dispatch.value;
            var item, rest, m' := d.due[0], d.(due := d.due[1..]), PickNext(m);
            && m' == m.(pending := m'.pending, inflight := m'.inflight, log := m'.log, dispatch := m'.dispatch)
            && (if Find(m.pending, item.id).None? then
                  m'.pending == m.pending && m'.inflight == m.inflight && m'.log == m.log && m'.dispatch == Some(rest)
                else
                  && m'.pending == Without(m.pending, item.id)
                  && (if (item.id, item.category) in m.receipts then
                        && m'.log == m.log + [Skipped(item.ticket)] && m'.dispatch == Some(rest)
                        && m'.inflight == Without(m.inflight, item.id)
                      else
                        && m'.log == m.log + [Started(item.ticket, d.now)]
                        && m'.dispatch == Some(rest.(sending := Some(item)))
                        && m'.inflight == Put(m.inflight, item)))
  {
    hide Find, Without, Put;
  }

  lemma PickQuiet(m: Manager)
    requires m.dispatch.None? || m.dispatch.value.sending.Some? || m.dispatch.value.due == []
    ensures var m' := PickNext(m); m' == m || (m.dispatch.Some? && m.dispatch.value.sending.None? && m' == m.(dispatch := None))
  {}

  /** The next candidate goes: what is left behind does not change. */
  lemma OthersIdle(cfg: Config, m: Manager, item: Item, o: Obs, items: seq<Item>)
    requires TicketsOk(m.log, m.tickets) && Known(m.log, item)
    requires o.Started? || o.Delivered? ==> o.ticket == item.ticket
    requires forall x :: x in items ==> Idle(cfg, m.log, x) && x.id != item.id
    ensures forall x :: x in items ==> Idle(cfg, m.log + [o], x) && x.ticket != item.ticket
  {
    forall x | x in items ensures Idle(cfg, m.log + [o], x) && x.ticket != item.ticket {
      OtherTicket(m.log, m.tickets, x, item);
      IdleAppend(cfg, m.log, o, x);
    }
  }

  lemma StartBooks(cfg: Config, log: seq<Obs>, item: Item, now: int)
    requires Idle(cfg, log, item) && item.dueAt <= now
    ensures Proper(cfg, log, Started(item.ticket, now)) && Sending(cfg, log + [Started(item.ticket, now)], item, now)
  {
    StartsAppend(log, Started(item.ticket, now), item.ticket);
    KnownAppend(log, Started(item.ticket, now), item);
  }

  /** A candidate is taken off both lists. */
  lemma PickedKeeps(cfg: Config, m: Manager, m': Manager, d: Dispatch, item: Item, o: Obs)
    requires Inv(cfg, m) && m.dispatch == Some(d) && d.sending.None? && d.due != [] && item == d.due[0]
    requires o == Skipped(item.ticket) || o == Started(item.ticket, d.now)
    requires m' == m.(pending := Without(m.pending, item.id), inflight := m'.inflight, log := m.log + [o],
                      dispatch := Some(d.(due := d.due[1..], sending := if o.Started? then Some(item) else None)))
    requires m'.inflight == if o.Started? then [item] else []
    ensures Inv(cfg, m')
  {
    TailDistinct(d.due);
    assert Idle(cfg, m.log, item) && Known(m.log, item) && item.dueAt <= d.now;
    hide Idle, LogOk, TicketsOk, Sending, DistinctIds, Known, Without;
    WithoutPlace(m.pending, item.id);
    OthersIdle(cfg, m, item, o, m'.pending);
    OthersIdle(cfg, m, item, o, d.due[1..]);
    assert o.Started? ==> Sending(cfg, m'.log, item, d.now) by { StartBooks(cfg, m.log, item, d.now); }
    assert DispatchOk(cfg, m', m'.dispatch.value);
    hide DispatchOk;
    assert Proper(cfg, m.log, o) by { StartBooks(cfg, m.log, item, d.now); }
    hide Proper;
    TicketsAppend(m.log, o, m.tickets);
    LogAppend(cfg, m.log, o);
  }

  lemma PickKeeps(cfg: Config, m: Manager)
    requires Inv(cfg, m)
    ensures Inv(cfg, PickNext(m))
  {
    hide PickNext, Idle, LogOk, TicketsOk, Sending, DistinctIds;
    if m.dispatch.None? || m.dispatch.value.sending.Some? || m.dispatch.value.due == [] {
      PickQuiet(m);
    } else {
      var m', d := PickNext(m), m.dispatch.value;
      var item := d.due[0];
      PickCases(m);
      if Find(m.pending, item.id).Some? {
        assert Without([], item.id) == [] && Put([], item) == [item];
        hide Find, Without, Put, Inv;
        PickedKeeps(cfg, m, m', d, item,
                    if (item.id, item.category) in m.receipts then Skipped(item.ticket) else Started(item.ticket, d.now));
      } else {
        TailDistinct(d.due);
      }
    }
  }

  function Again(d: Dispatch, s: Item): Item {
    s.(attempts := s.attempts + 1, dueAt := d.now + Backoff(s.attempts + 1))
  }

  /** The three ways a send can end, whoever has taken the candidate's place in the queue. */
  lemma EndsSend(m: Manager, delivered: nat)
    requires m.dispatch.Some? && m.dispatch.value.sending.Some?
    requires m.inflight == [] || m.inflight == [m.dispatch.value.sending.value]
    ensures var d := m.dispatch.value;
            var s := d.sending.value;
            var m' := FinishSend(m, delivered);
            && m' == m.(inflight := [], pending := m'.pending, receipts := m'.receipts, log := m'.log,
                        dispatch := Some(d.(sending := None)))
            && (forall key :: key in m.receipts ==> key in m'.receipts)
            && (forall key :: key in m'.receipts ==> key in m.receipts || key == (s.id, s.category))
            && (delivered < 1 ==> m'.receipts == m.receipts)
            && (if delivered >= 1 then m'.pending == m.pending && m'.log == m.log + [Delivered(s.ticket)]
                else if m.inflight != [] && s.attempts < 2 then
                  m'.pending == Put(m.pending, Again(d, s)) && m'.log == m.log + [Requeued(s.ticket, Again(d, s).dueAt)]
                else m'.pending == m.pending && m'.log == m.log)
  {
    var s := m.dispatch.value.sending.value;
    KeepOne(m.inflight, (x: Item) => x.id != s.id);
    FindMember(m.inflight, s.id);
    hide Put, Backoff, Find;
  }

  lemma BackoffMeans(n: nat)
    requires 1 <= n <= 2
    ensures Backoff(n) == RetryWait(n)
  {
    assert Pow2(1) == 2 && Pow2(2) == 4 && Pow2(0) == 1;
  }

  lemma RetryIdle(cfg: Config, log: seq<Obs>, d: Dispatch, s: Item)
    requires Sending(cfg, log, s, d.now) && s.attempts < 2
    ensures Idle(cfg, log + [Requeued(s.ticket, Again(d, s).dueAt)], Again(d, s))
  {
    var o := Requeued(s.ticket, Again(d, s).dueAt);
    BackoffMeans(s.attempts + 1);
    KnownAppend(log, o, Again(d, s));
    StartsAppend(log, o, s.ticket);
  }

  /** Whoever waits while a candidate is sent has another ticket. */
  lemma DeliveryIdle(cfg: Config, m: Manager, s: Item, items: seq<Item>)
    requires forall x :: x in items ==> Idle(cfg, m.log, x) && x.ticket != s.ticket
    ensures forall x :: x in items ==> Idle(cfg, m.log + [Delivered(s.ticket)], x)
  {
    forall x | x in items ensures Idle(cfg, m.log + [Delivered(s.ticket)], x) { IdleAppend(cfg, m.log, Delivered(s.ticket), x); }
  }

  lemma FinishProper(cfg: Config, log: seq<Obs>, s: Item, now: int)
    requires Sending(cfg, log, s, now)
    ensures Known(log, s) && Proper(cfg, log, Delivered(s.ticket))
    ensures s.attempts < 2 ==> Proper(cfg, log, Requeued(s.ticket, now + Backoff(s.attempts + 1)))
  {
    if s.attempts < 2 { BackoffMeans(s.attempts + 1); }
  }

  lemma DueTickets(cfg: Config, m: Manager, d: Dispatch)
    requires TicketsOk(m.log, m.tickets) && DispatchOk(cfg, m, d) && d.sending.Some?
    ensures forall x :: x in d.due ==> x.ticket != d.sending.value.ticket
  {
    forall x | x in d.due ensures x.ticket != d.sending.value.ticket { OtherTicket(m.log, m.tickets, x, d.sending.value); }
  }

  lemma DeliveredKeeps(cfg: Config, m: Manager, m': Manager, d: Dispatch)
    requires Inv(cfg, m) && m.dispatch == Some(d) && d.sending.Some?
    requires m' == m.(inflight := [], receipts := m'.receipts, dispatch := Some(d.(sending := None)),
                      log := m.log + [Delivered(d.sending.value.ticket)])
    ensures Inv(cfg, m')
  {
    var s := d.sending.value;
    FinishProper(cfg, m.log, s, d.now);
    DueTickets(cfg, m, d);
    hide Idle, LogOk, TicketsOk, Sending;
    TicketsAppend(m.log, Delivered(s.ticket), m.tickets);
    DeliveryIdle(cfg, m, s, m.pending);
    DeliveryIdle(cfg, m, s, d.due);
    LogAppend(cfg, m.log, Delivered(s.ticket));
    hide Proper;
  }

  lemma RequeuedKeeps(cfg: Config, m: Manager, m': Manager, d: Dispatch)
    requires Inv(cfg, m) && m.dispatch == Some(d) && d.sending.Some? && d.sending.value.attempts < 2
    requires var again := Again(d, d.sending.value);
             m' == m.(inflight := [], dispatch := Some(d.(sending := None)), pending := Put(m.pending, again),
                      log := m.log + [Requeued(d.sending.value.ticket, again.dueAt)])
    ensures Inv(cfg, m')
  {
    hide Idle, LogOk, TicketsOk, Sending, Put, Proper, Known, Backoff, DistinctIds;
    var s := d.sending.value;
    var again := Again(d, s);
    var o := Requeued(s.ticket, again.dueAt);
    FinishProper(cfg, m.log, s, d.now);
    RetryIdle(cfg, m.log, d, s);
    TicketsAppend(m.log, o, m.tickets);
    PutPlace(m.pending, again);
    BooksAppend(cfg, m.log, o);
    LogAppend(cfg, m.log, o);
  }

  lemma FinishKeeps(cfg: Config, m: Manager, delivered: nat)
    requires Inv(cfg, m)
    ensures Inv(cfg, FinishSend(m, delivered))
  {
    if m.dispatch.Some? && m.dispatch.value.sending.Some? {
      var d := m.dispatch.value;
      var m' := FinishSend(m, delivered);
      assert Inflight(m);
      EndsSend(m, delivered);
      hide FinishSend, Idle, LogOk, TicketsOk, Sending, Put;
      if delivered >= 1 {
        DeliveredKeeps(cfg, m, m', d);
      } else if m'.log != m.log {
        RequeuedKeeps(cfg, m, m', d);
      }
    }
  }

  // ---- Every run ----

  lemma ActKeeps(cfg: Config, m: Manager, a: Action)
    requires Inv(cfg, m)
    ensures Inv(cfg, Act(cfg, m, a))
  {
    match a
    case DoIngest(e, now) => IngestKeeps(cfg, m, e, now);
    case DoPrune(before) => RestKeeps(cfg, m, Prune(m, before));
    case DoBegin(now) => BeginKeeps(cfg, m, now);
    case DoPick => PickKeeps(cfg, m);
    case DoFinish(delivered) => FinishKeeps(cfg, m, delivered);
  }

  lemma {:induction false} RunKeeps(cfg: Config, m: Manager, trace: seq<Action>)
    requires Inv(cfg, m)
    ensures Inv(cfg, Run(cfg, m, trace))
  {
    hide Inv, Act;
    if trace != [] {
      RunKeeps(cfg, m, trace[..|trace| - 1]);
      ActKeeps(cfg, Run(cfg, m, trace[..|trace| - 1]), trace[|trace| - 1]);
    }
  }

  lemma StartInv(cfg: Config)
    ensures Inv(cfg, EMPTY)
  {}

  /** How often a candidate was delivered. */
  function Successes(log: seq<Obs>, ticket: nat): nat {
    if log == [] then 0
    else Successes(log[..|log| - 1], ticket) + if log[|log| - 1] == Delivered(ticket) then 1 else 0
  }

  lemma {:induction false} LogBounds(cfg: Config, log: seq<Obs>, ticket: nat)
    requires LogOk(cfg, log)
    ensures Starts(log, ticket) <= 3 && Successes(log, ticket) == if Delivered(ticket) in log then 1 else 0
  {
    if log != [] {
      var n := |log| - 1;
      forall k | 0 <= k < n ensures Proper(cfg, log[..n][..k], log[..n][k]) { assert log[..n][..k] == log[..k]; }
      LogBounds(cfg, log[..n], ticket);
      assert Proper(cfg, log[..n], log[n]);
      assert log == log[..n] + [log[n]];
    }
  }

  /** Over every run from the start, whatever ids arrive again: a candidate is sent at most three times and
      delivered at most once, no send of it follows its delivery, none starts before its grace period is over,
      the second no sooner than 10 seconds after the first and the third than 20 after the second, and that is
      when they are queued for. */
  lemma EveryInterleaving(cfg: Config, trace: seq<Action>, ticket: nat, k: nat)
    ensures var log := Run(cfg, EMPTY, trace).log;
            && Starts(log, ticket) <= 3 && Successes(log, ticket) <= 1
            && (k < |log| && log[k].Started? ==>
                 && Delivered(log[k].ticket) !in log[..k]
                 && (exists i :: 0 <= i < k && log[i].Queued? && log[i].item.ticket == log[k].ticket
                                 && log[k].at >= log[i].item.queuedAt + cfg.grace)
                 && (Starts(log[..k], log[k].ticket) >= 1 ==>
                      && LastStart(log[..k], log[k].ticket).Some?
                      && log[k].at - LastStart(log[..k], log[k].ticket).value
                           >= if Starts(log[..k], log[k].ticket) == 1 then 10 else 20))
            && (k < |log| && log[k].Requeued? ==>
                 && LastStart(log[..k], log[k].ticket).Some?
                 && log[k].dueAt - LastStart(log[..k], log[k].ticket).value
                      == if Starts(log[..k], log[k].ticket) == 1 then 10 else 20)
  {
    StartInv(cfg);
    RunKeeps(cfg, EMPTY, trace);
    var log := Run(cfg, EMPTY, trace).log;
    LogBounds(cfg, log, ticket);
    assert k < |log| ==> Proper(cfg, log[..k], log[k]);
    if k < |log| && log[k].Started? {
      var i :| 0 <= i < k && log[..k][i].Queued? && log[..k][i].item.ticket == log[k].ticket
               && log[k].at >= log[..k][i].item.queuedAt + cfg.grace;
      assert log[..k][i] == log[i];
    }
  }

  lemma LogGrows(cfg: Config, m: Manager, a: Action)
    ensures m.log <= Act(cfg, m, a).log
  {
    if a.DoIngest? { IngestLog(cfg, m, a.event, a.now); }
  }

  lemma IngestLog(cfg: Config, m: Manager, e: HookEvent, now: int)
    ensures m.log <= Ingest(cfg, m, e, now).log
    ensures e.id !in m.seen && (e.name.UserPromptSubmit? || e.name.SessionEnd?) ==>
      Ingest(cfg, m, e, now).log == m.log + [Cancelled(e.session, None, None)]
  {
    if e.id !in m.seen {
      var m1 := m.(seen := MarkSeen(m.seen, e.id, now));
      if e.name.Stop? && !e.continued { StopLog(cfg, m1, e, now); }
    }
  }

  lemma StopLog(cfg: Config, m: Manager, e: HookEvent, now: int)
    ensures m.log <= OnStop(cfg, m, e, now).log
  {}

  lemma RunLastGrows(cfg: Config, m: Manager, trace: seq<Action>)
    requires trace != []
    ensures Run(cfg, m, trace[..|trace| - 1]).log <= Run(cfg, m, trace).log
  {
    LogGrows(cfg, Run(cfg, m, trace[..|trace| - 1]), trace[|trace| - 1]);
  }

  lemma PrefixTrans(a: seq<Obs>, b: seq<Obs>, c: seq<Obs>)
    requires a <= b <= c
    ensures a <= c
  {}

  lemma {:induction false} RunLogGrows(cfg: Config, m: Manager, trace: seq<Action>, more: seq<Action>)
    ensures Run(cfg, m, trace).log <= Run(cfg, m, trace + more).log
  {
    hide Run, Act;
    if more == [] {
      assert trace + more == trace;
    } else {
      var less := more[..|more| - 1];
      assert (trace + more)[..|trace + more| - 1] == trace + less;
      RunLogGrows(cfg, m, trace, less);
      RunLastGrows(cfg, m, trace + more);
      PrefixTrans(Run(cfg, m, trace).log, Run(cfg, m, trace + less).log, Run(cfg, m, trace + more).log);
    }
  }
}
