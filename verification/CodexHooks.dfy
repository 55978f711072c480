/** The delayed notifications of Codex lifecycle hooks. Ingesting a hook event is synchronous;
    dispatching awaits one broadcast per candidate, and events may be ingested during each await. */
module CodexHooks {
  import opened Basics
  import opened Ordering

  datatype HookName = UserPromptSubmit | PermissionRequest | PostToolUse | Stop | SessionEnd
  datatype Category = ApprovalRequired | InputRequired | ExecutionFailed | LongTurnComplete

  /** Event ids, ordered as the source orders its strings. */
  type Id = int

  datatype HookEvent = HookEvent(
    id: Id, name: HookName, session: string, turn: Option<string>,
    taskSummary: string, resultSummary: string, continued: bool)

  datatype TurnState = TurnState(startedAt: int, taskSummary: string)

  /** A candidate notification. The ticket numbers candidates in the order they were queued; it
      stands for the identity of the source's mutable object. */
  datatype Item = Item(
    id: Id, session: string, turn: string, category: Category, taskSummary: string, resultSummary: string,
    queuedAt: int, dueAt: int, attempts: nat, ticket: nat)

  /** The three message classifiers are the source's regular expressions. */
  datatype Config = Config(
    grace: nat, longTurn: int, retentionDays: nat,
    rejected: string -> bool, needsInput: string -> bool, failed: string -> bool)

  /** What an observer of the candidates sees. */
  datatype Obs =
    | Queued(item: Item)
    | Cancelled(session: string, turn: Option<string>, category: Option<Category>)
    | Started(ticket: nat, at: int)
    | Skipped(ticket: nat)  // a receipt shows it was delivered already
    | Delivered(ticket: nat)
    | Requeued(ticket: nat, dueAt: int)

  /** The local variables of a running `dispatch_due`. */
  datatype Dispatch = Dispatch(now: int, due: seq<Item>, sending: Option<Item>)

  datatype Manager = Manager(
    turns: map<(string, string), TurnState>, pending: seq<Item>, inflight: seq<Item>, seen: map<Id, int>,
    receipts: map<(Id, Category), int>, dispatch: Option<Dispatch>, tickets: nat, log: seq<Obs>)

  // ---- Dicts of candidates, in insertion order ----

  function Find(items: seq<Item>, id: Id): Option<Item> {
    if items == [] then None
    else if items[0].id == id then Some(items[0])
    else Find(items[1..], id)
  }

  function Put(items: seq<Item>, item: Item): seq<Item> {
    if items == [] then [item]
    else if items[0].id == item.id then [item] + items[1..]
    else [items[0]] + Put(items[1..], item)
  }

  function Keep(items: seq<Item>, p: Item -> bool): seq<Item> {
    if items == [] then []
    else if p(items[0]) then [items[0]] + Keep(items[1..], p)
    else Keep(items[1..], p)
  }

  function Without(items: seq<Item>, id: Id): seq<Item> { Keep(items, (x: Item) => x.id != id) }

  // ---- Ingesting an event ----

  const SEEN_LIMIT := 2000
  const SEEN_SECONDS := 86400

  function MarkSeen(seen: map<Id, int>, id: Id, now: int): map<Id, int> {
    var seen' := seen[id := now];
    if |seen'| > SEEN_LIMIT then map k | k in seen' && seen'[k] >= now - SEEN_SECONDS :: seen'[k] else seen'
  }

  predicate Hits(item: Item, session: string, turn: Option<string>, category: Option<Category>) {
    item.session == session && (turn.Some? ==> item.turn == turn.value) && (category.Some? ==> item.category == category.value)
  }

  function Cancel(m: Manager, session: string, turn: Option<string>, category: Option<Category>): (r: Manager)
    ensures r.dispatch == m.dispatch
  {
    m.(pending := Keep(m.pending, (x: Item) => !Hits(x, session, turn, category)),
       inflight := Keep(m.inflight, (x: Item) => !Hits(x, session, turn, category)),
       log := m.log + [Cancelled(session, turn, category)])
  }

  predicate Named(turn: Option<string>) { turn.Some? && turn.value != "" }

  function Or(text: string, default: string): string { if text != "" then text else default }

  function TaskSummary(m: Manager, e: HookEvent): string {
    if e.taskSummary != "" then e.taskSummary
    else if Named(e.turn) && (e.session, e.turn.value) in m.turns then m.turns[(e.session, e.turn.value)].taskSummary
    else "Codex task"
  }

  function Queue(cfg: Config, m: Manager, e: HookEvent, category: Category, now: int, task: string, result: string): (r: Manager)
    ensures r.dispatch == m.dispatch
  {
    var item := Item(e.id, e.session, if Named(e.turn) then e.turn.value else "session", category, task, result,
                     now, now + cfg.grace, 0, m.tickets);
    m.(pending := Put(m.pending, item), tickets := m.tickets + 1, log := m.log + [Queued(item)])
  }

  function StopCategory(cfg: Config, message: string, elapsed: Option<int>): Option<Category> {
    if cfg.rejected(message) then None
    else if cfg.needsInput(message) then Some(InputRequired)
    else if cfg.failed(message) then Some(ExecutionFailed)
    else if elapsed.Some? && elapsed.value >= cfg.longTurn then Some(LongTurnComplete)
    else None
  }

  function OnPrompt(m: Manager, e: HookEvent, now: int): (r: Manager)
    ensures r.dispatch == m.dispatch
  {
    var m' := Cancel(m, e.session, None, None);
    if Named(e.turn) then
      m'.(turns := m'.turns[(e.session, e.turn.value) := TurnState(now, Or(e.taskSummary, "Codex task"))])
    else m'
  }

  function OnSessionEnd(m: Manager, e: HookEvent): (r: Manager)
    ensures r.dispatch == m.dispatch
  {
    var m' := Cancel(m, e.session, None, None);
    m'.(turns := map k | k in m'.turns && k.0 != e.session :: m'.turns[k])
  }

  function OnStop(cfg: Config, m: Manager, e: HookEvent, now: int): (r: Manager)
    ensures r.dispatch == m.dispatch
  {
    var m' := if Named(e.turn) then Cancel(m, e.session, e.turn, Some(ApprovalRequired)) else m;
    var key := (e.session, if e.turn.Some? then e.turn.value else "");
    var state := if key in m'.turns then Some(m'.turns[key]) else None;
    var m'' := m'.(turns := m'.turns - {key});
    var elapsed := if state.Some? then Some(now - state.value.startedAt) else None;
    var result := Or(e.resultSummary, "The Codex turn has ended.");
    match StopCategory(cfg, result, elapsed)
    case None => m''
    case Some(category) =>
      Queue(cfg, m'', e, category, now, if state.Some? then state.value.taskSummary else TaskSummary(m'', e), result)
  }

  function IngestNew(cfg: Config, m: Manager, e: HookEvent, now: int): (r: Manager)
    ensures r.dispatch == m.dispatch
  {
    match e.name
    case UserPromptSubmit => OnPrompt(m, e, now)
    case PostToolUse => Cancel(m, e.session, e.turn, Some(ApprovalRequired))
    case SessionEnd => OnSessionEnd(m, e)
    case PermissionRequest =>
      Queue(cfg, m, e, ApprovalRequired, now, TaskSummary(m, e), Or(e.resultSummary, "Codex is waiting for approval."))
    case Stop => if e.continued then m else OnStop(cfg, m, e, now)
  }

  function Ingest(cfg: Config, m: Manager, e: HookEvent, now: int): (r: Manager)
    ensures r.dispatch == m.dispatch
  {
    if e.id in m.seen then m
    else IngestNew(cfg, m.(seen := MarkSeen(m.seen, e.id, now)), e, now)
  }

  // ---- Dispatching what is due ----

  predicate ByDue(a: Item, b: Item) { a.dueAt < b.dueAt || (a.dueAt == b.dueAt && a.id <= b.id) }

  function DueItems(pending: seq<Item>, now: int): seq<Item> {
    Sort(Keep(pending, (x: Item) => x.dueAt <= now), ByDue)
  }

  function PruneReceipts(receipts: map<(Id, Category), int>, before: int): map<(Id, Category), int> {
    map k | k in receipts && receipts[k] >= before :: receipts[k]
  }

  /** The endpoint of another source prunes the receipts of all. */
  function Prune(m: Manager, before: int): (r: Manager)
    ensures r.dispatch == m.dispatch
  {
    m.(receipts := PruneReceipts(m.receipts, before))
  }

  function BeginDispatch(cfg: Config, m: Manager, now: int): Manager {
    if m.dispatch.Some? || DueItems(m.pending, now) == [] then m
    else
      m.(receipts := PruneReceipts(m.receipts, now - cfg.retentionDays * 86400),
         dispatch := Some(Dispatch(now, DueItems(m.pending, now), None)))
  }

  /** Takes the next due candidate; if it is still pending and has no receipt, its send starts. */
  function PickNext(m: Manager): Manager {
    if m.dispatch.None? || m.dispatch.value.sending.Some? then m
    else
      var d := m.dispatch.value;
      if d.due == [] then m.(dispatch := None)
      else
        var item := d.due[0];
        var d' := d.(due := d.due[1..]);
        if Find(m.pending, item.id).None? then m.(dispatch := Some(d'))
        else
          var m' := m.(pending := Without(m.pending, item.id), dispatch := Some(d'));
          if (item.id, item.category) in m.receipts then
            m'.(inflight := Without(m'.inflight, item.id), log := m'.log + [Skipped(item.ticket)])
          else
            m'.(inflight := Put(m'.inflight, item), dispatch := Some(d'.(sending := Some(item))),
                log := m'.log + [Started(item.ticket, d.now)])
  }

  function Backoff(attempts: nat): int {
    if 5 * Pow2(attempts) <= 60 then 5 * Pow2(attempts) else 60
  }

  /** The await returns: a delivered candidate gets its receipt; a failed one is retried unless it was
      cancelled meanwhile or has had its three attempts. */
  function FinishSend(m: Manager, delivered: nat): Manager {
    if m.dispatch.None? || m.dispatch.value.sending.None? then m
    else
      var d := m.dispatch.value;
      var item := d.sending.value;
      var cancelled := Find(m.inflight, item.id).None?;
      var m' := m.(inflight := Without(m.inflight, item.id), dispatch := Some(d.(sending := None)));
      if delivered >= 1 then
        m'.(receipts := if (item.id, item.category) in m'.receipts then m'.receipts
                        else m'.receipts[(item.id, item.category) := d.now],
            log := m'.log + [Delivered(item.ticket)])
      else if !cancelled && item.attempts < 2 then
        var again := item.(attempts := item.attempts + 1, dueAt := d.now + Backoff(item.attempts + 1));
        m'.(pending := Put(m'.pending, again), log := m'.log + [Requeued(again.ticket, again.dueAt)])
      else m'
  }

  // ---- Runs ----

  datatype Action =
    | DoIngest(event: HookEvent, now: int)
    | DoPrune(before: int)
    | DoBegin(now: int)
    | DoPick
    | DoFinish(delivered: nat)

  function Act(cfg: Config, m: Manager, a: Action): Manager {
    match a
    case DoIngest(e, now) => Ingest(cfg, m, e, now)
    case DoPrune(before) => Prune(m, before)
    case DoBegin(now) => BeginDispatch(cfg, m, now)
    case DoPick => PickNext(m)
    case DoFinish(delivered) => FinishSend(m, delivered)
  }

  function Run(cfg: Config, m: Manager, trace: seq<Action>): Manager {
    if trace == [] then m else Act(cfg, Run(cfg, m, trace[..|trace| - 1]), trace[|trace| - 1])
  }

  const EMPTY := Manager(map[], [], [], map[], map[], None, 0, [])

  // ---- The manager as the source writes it ----

  /** What can come while a send is awaited: a hook event, or a pruning of the receipts. */
  datatype Outer = Event(event: HookEvent, now: int) | Pruning(before: int)

  /** Everything the outside does during a dispatch: the outcome of the k-th send, and what comes while
      it is awaited. */
  datatype Outside = Outside(delivered: nat -> nat, during: nat -> seq<Outer>)

  function Meet(cfg: Config, m: Manager, o: Outer): (r: Manager)
    ensures r.dispatch == m.dispatch
  {
    match o
    case Event(e, now) => Ingest(cfg, m, e, now)
    case Pruning(before) => Prune(m, before)
  }

  function MeetAll(cfg: Config, m: Manager, outers: seq<Outer>): (r: Manager)
    ensures r.dispatch == m.dispatch
  {
    if outers == [] then m
    else
      var n := |outers| - 1;
      Meet(cfg, MeetAll(cfg, m, outers[..n]), outers[n])
  }

  function DueLeft(m: Manager): nat {
    if m.dispatch.None? then 0 else |m.dispatch.value.due| + 1
  }

  /** One turn of the dispatch loop, its await included. */
  function Turn(cfg: Config, m: Manager, k: nat, outside: Outside): (r: (Manager, nat))
    ensures m.dispatch.Some? && m.dispatch.value.sending.None? ==>
      DueLeft(r.0) < DueLeft(m) && (r.0.dispatch.Some? ==> r.0.dispatch.value.sending.None?)
  {
    var picked := PickNext(m);
    if picked.dispatch.Some? && picked.dispatch.value.sending.Some? then
      (FinishSend(MeetAll(cfg, picked, outside.during(k)), outside.delivered(k)), k + 1)
    else (picked, k)
  }

  /** The dispatch loop from its k-th send on. */
  function Dispatching(cfg: Config, m: Manager, k: nat, outside: Outside): (r: Manager)
    requires m.dispatch.Some? ==> m.dispatch.value.sending.None?
    ensures r.dispatch.None?
    decreases DueLeft(m)
  {
    if m.dispatch.None? then m
    else var (m', k') := Turn(cfg, m, k, outside); Dispatching(cfg, m', k', outside)
  }

  /** A whole call of `dispatch_due`. */
  function WholeDispatch(cfg: Config, m: Manager, now: int, outside: Outside): (r: Manager)
    requires m.dispatch.None?
    ensures r.dispatch.None?
  {
    Dispatching(cfg, BeginDispatch(cfg, m, now), 0, outside)
  }

  lemma AtRest(cfg: Config, m: Manager, k: nat, outside: Outside)
    requires m.dispatch.None?
    ensures Dispatching(cfg, m, k, outside) == m
  {}

  lemma LastTurn(cfg: Config, m: Manager, k: nat, outside: Outside)
    requires m.dispatch.Some? && m.dispatch.value.due == [] && m.dispatch.value.sending.None?
    ensures Dispatching(cfg, m, k, outside) == m.(dispatch := None)
  {}

  lemma Unfold(cfg: Config, m: Manager, k: nat, outside: Outside)
    requires m.dispatch.Some? && m.dispatch.value.sending.None?
    ensures var (m', k') := Turn(cfg, m, k, outside);
            Dispatching(cfg, m, k, outside) == Dispatching(cfg, m', k', outside)
  {}

  function Deliveries(log: seq<Obs>): nat {
    if log == [] then 0 else Deliveries(log[..|log| - 1]) + if log[|log| - 1].Delivered? then 1 else 0
  }

  lemma DeliveriesAppend(log: seq<Obs>, o: Obs)
    ensures Deliveries(log + [o]) == Deliveries(log) + if o.Delivered? then 1 else 0
  {
    assert (log + [o])[..|log|] == log;
  }

  lemma CancelDelivers(m: Manager, session: string, turn: Option<string>, category: Option<Category>)
    ensures Deliveries(Cancel(m, session, turn, category).log) == Deliveries(m.log)
  {
    DeliveriesAppend(m.log, Cancelled(session, turn, category));
  }

  lemma QueueDelivers(cfg: Config, m: Manager, e: HookEvent, category: Category, now: int, task: string, result: string)
    ensures Deliveries(Queue(cfg, m, e, category, now, task, result).log) == Deliveries(m.log)
  {
    var m' := Queue(cfg, m, e, category, now, task, result);
    DeliveriesAppend(m.log, m'.log[|m.log|]);
  }

  lemma StopDelivers(cfg: Config, m: Manager, e: HookEvent, now: int)
    ensures Deliveries(OnStop(cfg, m, e, now).log) == Deliveries(m.log)
  {
    hide Cancel, Queue, StopCategory, TaskSummary, Or, Deliveries;
    CancelDelivers(m, e.session, e.turn, Some(ApprovalRequired));
    forall x: Manager, category, task, result
      ensures Deliveries(Queue(cfg, x, e, category, now, task, result).log) == Deliveries(x.log)
    {
      QueueDelivers(cfg, x, e, category, now, task, result);
    }
  }

  /** Ingesting an event delivers nothing. */
  lemma IngestDelivers(cfg: Config, m: Manager, e: HookEvent, now: int)
    ensures Deliveries(Ingest(cfg, m, e, now).log) == Deliveries(m.log)
  {
    hide Cancel, Queue, OnStop, MarkSeen, TaskSummary, Or, Deliveries;
    var m1 := m.(seen := MarkSeen(m.seen, e.id, now));
    match e.name
    case UserPromptSubmit => CancelDelivers(m1, e.session, None, None);
    case PostToolUse => CancelDelivers(m1, e.session, e.turn, Some(ApprovalRequired));
    case SessionEnd => CancelDelivers(m1, e.session, None, None);
    case PermissionRequest =>
      QueueDelivers(cfg, m1, e, ApprovalRequired, now, TaskSummary(m1, e), Or(e.resultSummary, "Codex is waiting for approval."));
    case Stop => StopDelivers(cfg, m1, e, now);
  }

  class CodexHookNotificationManager {
    const cfg: Config
    var turns: map<(string, string), TurnState>
    var pending: seq<Item>
    var inflight: seq<Item>
    var seen: map<Id, int>
    var receipts: map<(Id, Category), int>
    var tickets: nat
    ghost var dispatch: Option<Dispatch>
    ghost var log: seq<Obs>

    ghost function State(): Manager
      reads this
    {
      Manager(turns, pending, inflight, seen, receipts, dispatch, tickets, log)
    }

    constructor (cfg: Config)
      ensures this.cfg == cfg && State() == EMPTY
    {
      this.cfg := cfg;
      turns, pending, inflight, seen, receipts, tickets := map[], [], [], map[], map[], 0;
      dispatch, log := None, [];
    }

    method CancelMatching(session: string, turn: Option<string>, category: Option<Category>) returns (count: nat)
      modifies this
      ensures State() == Cancel(old(State()), session, turn, category)
      ensures count == |old(pending)| - |pending| + |old(inflight)| - |inflight|
    {
      KeepShorter(pending, (x: Item) => !Hits(x, session, turn, category));
      KeepShorter(inflight, (x: Item) => !Hits(x, session, turn, category));
      var before := |pending| + |inflight|;
      pending := Keep(pending, (x: Item) => !Hits(x, session, turn, category));
      inflight := Keep(inflight, (x: Item) => !Hits(x, session, turn, category));
      log := log + [Cancelled(session, turn, category)];
      count := before - |pending| - |inflight|;
    }

    method QueueCandidate(e: HookEvent, category: Category, now: int, task: string, result: string)
      modifies this
      ensures State() == Queue(cfg, old(State()), e, category, now, task, result)
    {
      var item := Item(e.id, e.session, if Named(e.turn) then e.turn.value else "session", category, task, result,
                       now, now + cfg.grace, 0, tickets);
      pending := Put(pending, item);
      tickets := tickets + 1;
      log := log + [Queued(item)];
    }

    method Summarize(e: HookEvent) returns (task: string)
      ensures task == TaskSummary(State(), e)
    {
      task := "Codex task";
      if e.taskSummary != "" { return e.taskSummary; }
      if Named(e.turn) && (e.session, e.turn.value) in turns { return turns[(e.session, e.turn.value)].taskSummary; }
    }

    method StopTurn(e: HookEvent, now: int)
      modifies this
      ensures State() == OnStop(cfg, old(State()), e, now)
    {
      if Named(e.turn) { var n := CancelMatching(e.session, e.turn, Some(ApprovalRequired)); }
      var key := (e.session, if e.turn.Some? then e.turn.value else "");
      var state := if key in turns then Some(turns[key]) else None;
      turns := turns - {key};
      var elapsed := if state.Some? then Some(now - state.value.startedAt) else None;
      var result := Or(e.resultSummary, "The Codex turn has ended.");
      match StopCategory(cfg, result, elapsed) {
        case None =>
        case Some(category) =>
          var task := Summarize(e);
          QueueCandidate(e, category, now, if state.Some? then state.value.taskSummary else task, result);
      }
    }

    method IngestEvent(e: HookEvent, now: int)
      modifies this
      ensures State() == Ingest(cfg, old(State()), e, now)
    {
      if e.id in seen { return; }
      seen := MarkSeen(seen, e.id, now);
      match e.name {
        case UserPromptSubmit =>
          var n := CancelMatching(e.session, None, None);
          if Named(e.turn) {
            turns := turns[(e.session, e.turn.value) := TurnState(now, Or(e.taskSummary, "Codex task"))];
          }
        case PostToolUse =>
          var n := CancelMatching(e.session, e.turn, Some(ApprovalRequired));
        case SessionEnd =>
          var n := CancelMatching(e.session, None, None);
          turns := map k | k in turns && k.0 != e.session :: turns[k];
        case PermissionRequest =>
          var task := Summarize(e);
          QueueCandidate(e, ApprovalRequired, now, task, Or(e.resultSummary, "Codex is waiting for approval."));
        case Stop =>
          if !e.continued { StopTurn(e, now); }
      }
    }

    /** `prune_notification_receipts`, as any source may call it. */
    method PruneNotificationReceipts(before: int)
      modifies this
      ensures State() == Prune(old(State()), before)
    {
      receipts := PruneReceipts(receipts, before);
    }

    /** What comes during an await. */
    method Await(outers: seq<Outer>)
      modifies this
      ensures State() == MeetAll(cfg, old(State()), outers) && Deliveries(log) == Deliveries(old(log))
    {
      for i := 0 to |outers|
        invariant State() == MeetAll(cfg, old(State()), outers[..i]) && Deliveries(log) == Deliveries(old(log))
      {
        match outers[i] {
          case Event(e, now) =>
            IngestDelivers(cfg, State(), e, now);
            IngestEvent(e, now);
          case Pruning(before) => PruneNotificationReceipts(before);
        }
        assert outers[..i + 1][..i] == outers[..i];
      }
      assert outers[..|outers|] == outers;
    }

    /** Takes the candidate off the queue and starts its send, unless it is gone or was delivered. */
    method StartSend(item: Item, rest: seq<Item>, now: int) returns (started: bool)
      requires dispatch == Some(Dispatch(now, [item] + rest, None))
      modifies this
      ensures State() == PickNext(old(State()))
      ensures dispatch == Some(Dispatch(now, rest, if started then Some(item) else None))
      ensures Deliveries(log) == Deliveries(old(log))
    {
      hide Deliveries, Find, Without, Put;
      DeliveriesAppend(log, Skipped(item.ticket));
      DeliveriesAppend(log, Started(item.ticket, now));
      assert ([item] + rest)[1..] == rest;
      dispatch := Some(Dispatch(now, rest, None));
      if Find(pending, item.id).None? { return false; }
      pending := Without(pending, item.id);
      if (item.id, item.category) in receipts {
        inflight := Without(inflight, item.id);
        log := log + [Skipped(item.ticket)];
        return false;
      }
      inflight := Put(inflight, item);
      dispatch := Some(Dispatch(now, rest, Some(item)));
      log := log + [Started(item.ticket, now)];
      return true;
    }

    /** Books the outcome of a send. */
    method Settle(item: Item, rest: seq<Item>, now: int, delivered: nat)
      requires dispatch == Some(Dispatch(now, rest, Some(item)))
      modifies this
      ensures State() == FinishSend(old(State()), delivered)
      ensures dispatch == Some(Dispatch(now, rest, None))
      ensures Deliveries(log) == Deliveries(old(log)) + if delivered >= 1 then 1 else 0
    {
      hide Deliveries, Find, Without, Put, Backoff;
      DeliveriesAppend(log, Delivered(item.ticket));
      DeliveriesAppend(log, Requeued(item.ticket, now + Backoff(item.attempts + 1)));
      var cancelled := Find(inflight, item.id).None?;
      inflight := Without(inflight, item.id);
      dispatch := Some(Dispatch(now, rest, None));
      if delivered >= 1 {
        if (item.id, item.category) !in receipts { receipts := receipts[(item.id, item.category) := now]; }
        log := log + [Delivered(item.ticket)];
      } else if !cancelled && item.attempts < 2 {
        var again := item.(attempts := item.attempts + 1, dueAt := now + Backoff(item.attempts + 1));
        pending := Put(pending, again);
        log := log + [Requeued(again.ticket, again.dueAt)];
      }
    }

    /** One candidate of the dispatch loop: `k` sends were made before it. */
    method DispatchOne(item: Item, rest: seq<Item>, now: int, k: nat, outside: Outside) returns (k': nat, sent: bool)
      requires dispatch == Some(Dispatch(now, [item] + rest, None))
      modifies this
      ensures (State(), k') == Turn(cfg, old(State()), k, outside)
      ensures dispatch == Some(Dispatch(now, rest, None))
      ensures Deliveries(log) == Deliveries(old(log)) + if sent then 1 else 0
    {
      hide Deliveries, PickNext, FinishSend, MeetAll;
      k', sent := k, false;
      var started := StartSend(item, rest, now);
      if started {
        Await(outside.during(k));
        Settle(item, rest, now, outside.delivered(k));
        k', sent := k + 1, outside.delivered(k) >= 1;
      }
    }

    method DispatchDue(now: int, outside: Outside) returns (sent: nat)
      requires dispatch.None?
      modifies this
      ensures dispatch.None?
      ensures State() == WholeDispatch(cfg, old(State()), now, outside)
      ensures sent == Deliveries(log) - Deliveries(old(log))
    {
      hide Deliveries, Dispatching, Turn, DueItems;
      sent := 0;
      var due := DueItems(pending, now);
      if due == [] {
        AtRest(cfg, State(), 0, outside);
        return;
      }
      receipts := PruneReceipts(receipts, now - cfg.retentionDays * 86400);
      dispatch := Some(Dispatch(now, due, None));
      ghost var begun := State();
      var k := 0;
      for i := 0 to |due|
        invariant dispatch == Some(Dispatch(now, due[i..], None))
        invariant Dispatching(cfg, State(), k, outside) == Dispatching(cfg, begun, 0, outside)
        invariant Deliveries(log) == Deliveries(old(log)) + sent
      {
        assert due[i..] == [due[i]] + due[i + 1..];
        Unfold(cfg, State(), k, outside);
        var k', ok := DispatchOne(due[i], due[i + 1..], now, k, outside);
        k := k';
        if ok { sent := sent + 1; }
      }
      LastTurn(cfg, State(), k, outside);
      dispatch := None;
    }
  }

  lemma {:induction false} KeepShorter(items: seq<Item>, p: Item -> bool)
    ensures |Keep(items, p)| <= |items|
  {
    if items != [] { KeepShorter(items[1..], p); }
  }
}
