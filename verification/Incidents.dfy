/** The incident engine: the events table, the digest table and one round of the state machine
    that opens, defers and resolves events. A round is cut at its awaits, so that the same steps
    serve the sequential method and the interleaving of several jobs. */
module Incidents {
  import opened Basics
  import opened Ordering

  datatype Rule =
    | ServiceDown | LatencyDegraded | LogErrorSpike | LogErrorNew | DiskUsage | DiskForecast
    | MemPressure | MiddlewareDown | ContainerRestart | BackupStale | ResticBackupStale | CertExpiry
    | ScanFailedPrometheus | ScanFailedLoki | ContainerDown | ContainerUnhealthy | ContainerOom
    | ContainerCrashloop | ScanFailedDocker

  type Key = (Rule, string)

  datatype Finding = Finding(
    rule: Rule, subject: string, severity: string, detail: string,
    payload: map<string, string>, needsDiagnosis: bool, point: bool)

  datatype Status = Open | Resolved
  datatype Diagnosis = Pending | Done | Failed | Skipped

  datatype Event = Event(
    id: nat, ts: int, rule: Rule, subject: string, severity: string, status: Status,
    detail: string, payload: map<string, string>, diagnosis: Diagnosis,
    cooldownUntil: int, resolvedTs: Option<int>, notified: bool)

  datatype DigestState = Observed | Recovered
  datatype DigestItem = DigestItem(
    id: nat, firstTs: int, lastTs: int, rule: Rule, subject: string, severity: string,
    state: DigestState, detail: string, payload: map<string, string>,
    occurrences: nat, sentTs: Option<int>)

  /** One call of `Broadcaster.send` and the number of channels it reached. */
  datatype Broadcast =
    | Alert(key: Key, ts: int, point: bool, delivered: nat)
    | Recovery(key: Key, id: nat, ts: int, delivered: nat)

  datatype Db = Db(events: seq<Event>, digest: seq<DigestItem>, log: seq<Broadcast>)

  /** How many channels each broadcast of a round will reach. A round alerts a key at most once
      and announces its recovery at most once, so the key names the broadcast. */
  datatype Outcomes = Outcomes(alert: Key -> nat, recovery: Key -> nat)

  /** The arguments of one round. */
  datatype Round = Round(
    findings: seq<Finding>, scope: set<Rule>, hold: set<Key>, now: int, cooldown: int,
    cap: Option<int>, deferNonurgent: bool, out: Outcomes)

  function KeyOf(f: Finding): Key { (f.rule, f.subject) }

  function EventKey(e: Event): Key { (e.rule, e.subject) }

  // ---- Notification policy ----

  const ALWAYS_IMMEDIATE: set<Rule> :=
    {ServiceDown, MiddlewareDown, DiskUsage, LogErrorSpike, ScanFailedPrometheus, ScanFailedLoki,
     ScanFailedDocker, ContainerDown, ContainerUnhealthy, ContainerOom, ContainerCrashloop}

  predicate ShouldNotifyImmediately(f: Finding) {
    if f.rule in ALWAYS_IMMEDIATE then true
    else if f.rule == ContainerRestart then
      f.subject == "host" || ("kind" in f.payload && f.payload["kind"] == "OOM")
    else if f.rule == MemPressure then f.severity == "critical"
    else false
  }

  predicate Immediate(r: Round, f: Finding) { !r.deferNonurgent || ShouldNotifyImmediately(f) }

  // ---- The events table ----

  /** Ids are assigned in order and no row is ever deleted. */
  ghost predicate Numbered(events: seq<Event>) {
    forall i :: 0 <= i < |events| ==> events[i].id == i + 1
  }

  function MaxCooldown(events: seq<Event>, key: Key): Option<int> {
    if events == [] then None
    else
      var rest := MaxCooldown(events[..|events| - 1], key);
      var e := events[|events| - 1];
      if EventKey(e) != key then rest
      else if rest.Some? && rest.value >= e.cooldownUntil then rest
      else Some(e.cooldownUntil)
  }

  function CooldownUntil(events: seq<Event>, key: Key): int {
    match MaxCooldown(events, key)
    case None => 0
    case Some(ts) => ts
  }

  function NewRow(r: Round, f: Finding, id: nat): Event {
    Event(id, r.now, f.rule, f.subject, f.severity, if f.point then Resolved else Open,
          f.detail, f.payload,
          if f.needsDiagnosis && Immediate(r, f) then Pending else Skipped,
          r.now + r.cooldown, if f.point then Some(r.now) else None, Immediate(r, f))
  }

  function ResolvedRow(e: Event, now: int): Event { e.(status := Resolved, resolvedTs := Some(now)) }

  /** `UPDATE events SET status = 'resolved' ... WHERE id = ?`. */
  function ResolveById(events: seq<Event>, id: nat, now: int): (r: seq<Event>)
    ensures |r| == |events|
  {
    seq(|events|, i requires 0 <= i < |events| =>
      if events[i].id == id then ResolvedRow(events[i], now) else events[i])
  }

  function SelectOpen(events: seq<Event>, scope: set<Rule>): seq<Event> {
    if events == [] then []
    else
      var rest := SelectOpen(events[..|events| - 1], scope);
      var e := events[|events| - 1];
      if e.status == Open && e.rule in scope then rest + [e] else rest
  }

  predicate ByTs(a: Event, b: Event) { a.ts <= b.ts }

  /** Inserting into a Python dict: an existing key keeps its place and takes the new value. */
  function Put(dict: seq<Event>, e: Event): seq<Event> {
    if dict == [] then [e]
    else if EventKey(dict[0]) == EventKey(e) then [e] + dict[1..]
    else [dict[0]] + Put(dict[1..], e)
  }

  function Dict(rows: seq<Event>): seq<Event> {
    if rows == [] then [] else Put(Dict(rows[..|rows| - 1]), rows[|rows| - 1])
  }

  /** `open_by_key`: the open events in scope, by key, in the order of their ts. */
  function OpenByKey(events: seq<Event>, scope: set<Rule>): seq<Event> {
    Dict(Sort(SelectOpen(events, scope), ByTs))
  }

  predicate HasKey(rows: seq<Event>, key: Key) {
    exists i :: 0 <= i < |rows| && EventKey(rows[i]) == key
  }

  // ---- The digest table ----

  /** The last unsent row of a (rule, subject), or -1. */
  function UnsentIndex(digest: seq<DigestItem>, key: Key): (i: int)
    ensures -1 <= i < |digest|
    ensures i >= 0 ==> digest[i].sentTs.None? && (digest[i].rule, digest[i].subject) == key
    ensures forall k :: i < k < |digest| ==> !(digest[k].sentTs.None? && (digest[k].rule, digest[k].subject) == key)
  {
    if digest == [] then -1
    else
      var n := |digest| - 1;
      if digest[n].sentTs.None? && (digest[n].rule, digest[n].subject) == key then n
      else UnsentIndex(digest[..n], key)
  }

  function Enqueue(digest: seq<DigestItem>, f: Finding, now: int, state: DigestState): seq<DigestItem> {
    var i := UnsentIndex(digest, KeyOf(f));
    if i >= 0 then
      digest[i := digest[i].(lastTs := now, severity := f.severity, state := state, detail := f.detail,
                             payload := f.payload, occurrences := digest[i].occurrences + 1)]
    else
      digest + [DigestItem(|digest| + 1, now, now, f.rule, f.subject, f.severity, state, f.detail,
                           f.payload, 1, None)]
  }

  function RecoveredFinding(e: Event): Finding {
    Finding(e.rule, e.subject, e.severity, "recovered; first seen as: " + e.detail, e.payload, false, false)
  }

  // ---- One round, cut at its awaits ----

  datatype Pc =
    | AtFinding(i: nat)      // about to look at finding i
    | AwaitAlert(i: nat)     // its alert is being sent
    | AtOpen(j: nat)         // about to look at the j-th event open at the start
    | AwaitRecovery(j: nat)  // its recovery is being sent

  datatype Job =
    | Idle
    | Running(round: Round, open: seq<Event>, firing: set<Key>, admitted: nat, pc: Pc)

  function Start(r: Round, events: seq<Event>): Job {
    Running(r, OpenByKey(events, r.scope), {}, 0, AtFinding(0))
  }

  predicate Sane(job: Job) {
    job.Running? ==>
      match job.pc
      case AtFinding(i) => i <= |job.round.findings|
      case AwaitAlert(i) => i < |job.round.findings|
      case AtOpen(j) => j <= |job.open|
      case AwaitRecovery(j) => j < |job.open|
  }

  /** Runs a job from one control point to the next; an await ends a step. */
  function Advance(job: Job, db: Db): (r: (Job, Db))
    requires Sane(job)
    ensures Sane(r.0)
  {
    match job
    case Idle => (Idle, db)
    case Running(r, open, firing, admitted, pc) =>
      match pc
      case AtFinding(i) =>
        if i == |r.findings| then (job.(pc := AtOpen(0)), db)
        else
          var f := r.findings[i];
          var seen := job.(firing := firing + {KeyOf(f)}, pc := AtFinding(i + 1));
          if KeyOf(f) in firing then (job.(pc := AtFinding(i + 1)), db)
          else if HasKey(open, KeyOf(f)) then (seen, db)
          else if CooldownUntil(db.events, KeyOf(f)) > r.now then (seen, db)
          else if r.cap.Some? && admitted >= r.cap.value then (seen, db)
          else if Immediate(r, f) then (seen.(pc := AwaitAlert(i)), db)
          else
            (seen.(admitted := admitted + 1),
             db.(digest := Enqueue(db.digest, f, r.now, Observed),
                 events := db.events + [NewRow(r, f, |db.events| + 1)]))
      case AwaitAlert(i) =>
        var f := r.findings[i];
        var d := r.out.alert(KeyOf(f));
        var db' := db.(log := db.log + [Alert(KeyOf(f), r.now, f.point, d)]);
        if d < 1 then (job.(pc := AtFinding(i + 1)), db')
        else
          (job.(admitted := admitted + 1, pc := AtFinding(i + 1)),
           db'.(events := db.events + [NewRow(r, f, |db.events| + 1)]))
      case AtOpen(j) =>
        if j == |open| then (Idle, db)
        else
          var e := open[j];
          var next := job.(pc := AtOpen(j + 1));
          if EventKey(e) in firing || EventKey(e) in r.hold then (next, db)
          else if e.notified then (job.(pc := AwaitRecovery(j)), db)
          else
            (next, db.(digest := Enqueue(db.digest, RecoveredFinding(e), r.now, Recovered),
                       events := ResolveById(db.events, e.id, r.now)))
      case AwaitRecovery(j) =>
        var e := open[j];
        var d := r.out.recovery(EventKey(e));
        var db' := db.(log := db.log + [Recovery(EventKey(e), e.id, r.now, d)]);
        var next := job.(pc := AtOpen(j + 1));
        if d < 1 then (next, db') else (next, db'.(events := ResolveById(db.events, e.id, r.now)))
  }

  function Remaining(job: Job): nat
    requires Sane(job)
  {
    match job
    case Idle => 0
    case Running(r, open, _, _, pc) =>
      match pc
      case AtFinding(i) => 2 * (|r.findings| - i) + 2 * |open| + 2
      case AwaitAlert(i) => 2 * (|r.findings| - i) - 1 + 2 * |open| + 2
      case AtOpen(j) => 2 * (|open| - j) + 1
      case AwaitRecovery(j) => 2 * (|open| - j)
  }

  /** The tables once the job, running by itself, is back to idle. */
  function Finish(job: Job, db: Db): Db
    requires Sane(job)
    decreases Remaining(job)
  {
    if job.Idle? then db
    else var (job', db') := Advance(job, db); Finish(job', db')
  }

  // ---- What a round means ----

  /** At most one open event for a (rule, subject). */
  ghost predicate OneOpen(events: seq<Event>) {
    forall i, j :: 0 <= i < j < |events| && events[i].status == Open && events[j].status == Open
      ==> EventKey(events[i]) != EventKey(events[j])
  }

  /** The caller's duty: a round reports findings of the rules it evaluated, and of no others. */
  ghost predicate InScope(r: Round) {
    forall i :: 0 <= i < |r.findings| ==> r.findings[i].rule in r.scope
  }

  function Firing(r: Round, n: nat): set<Key>
    requires n <= |r.findings|
  {
    set i | 0 <= i < n :: KeyOf(r.findings[i])
  }

  ghost predicate IsOpen(events: seq<Event>, key: Key) {
    exists i :: 0 <= i < |events| && events[i].status == Open && EventKey(events[i]) == key
  }

  /** Finding i is news: it is the first with its key, no event of that key is open, its cooldown is
      over, and fewer than the cap were admitted before it. */
  ghost predicate Asks(r: Round, events: seq<Event>, i: nat)
    requires i < |r.findings|
    decreases i, 1
  {
    var f := r.findings[i];
    && KeyOf(f) !in Firing(r, i)
    && !IsOpen(events, KeyOf(f))
    && CooldownUntil(events, KeyOf(f)) <= r.now
    && (r.cap.Some? ==> AdmittedBefore(r, events, i) < r.cap.value)
  }

  /** It opens an event: it is news and its alert, if it is not deferred, reached a channel. */
  ghost predicate Admits(r: Round, events: seq<Event>, i: nat)
    requires i < |r.findings|
    decreases i, 2
  {
    var f := r.findings[i];
    Asks(r, events, i) && (Immediate(r, f) ==> r.out.alert(KeyOf(f)) >= 1)
  }

  ghost function AdmittedBefore(r: Round, events: seq<Event>, n: nat): nat
    requires n <= |r.findings|
    decreases n, 0
  {
    if n == 0 then 0
    else AdmittedBefore(r, events, n - 1) + if Admits(r, events, n - 1) then 1 else 0
  }

  /** An open event looks recovered: its rule was evaluated, and it neither fired nor is held. */
  ghost predicate Quiet(r: Round, e: Event) {
    && e.status == Open
    && e.rule in r.scope
    && EventKey(e) !in Firing(r, |r.findings|)
    && EventKey(e) !in r.hold
  }

  /** It recovers: it looks so and its recovery, if its opening was announced, reached a channel. */
  ghost predicate Recovers(r: Round, e: Event) {
    Quiet(r, e) && (e.notified ==> r.out.recovery(EventKey(e)) >= 1)
  }

  /** The broadcasts of the first n findings: one alert for each piece of news that is not deferred. */
  ghost function AlertsSent(r: Round, events: seq<Event>, n: nat): seq<Broadcast>
    requires n <= |r.findings|
  {
    if n == 0 then []
    else
      var f := r.findings[n - 1];
      AlertsSent(r, events, n - 1)
      + if Asks(r, events, n - 1) && Immediate(r, f) then [Alert(KeyOf(f), r.now, f.point, r.out.alert(KeyOf(f)))] else []
  }

  /** The digest after the first n findings: the deferred news. */
  ghost function NewsDeferred(r: Round, events: seq<Event>, digest: seq<DigestItem>, n: nat): seq<DigestItem>
    requires n <= |r.findings|
  {
    if n == 0 then digest
    else
      var f := r.findings[n - 1];
      var rest := NewsDeferred(r, events, digest, n - 1);
      if Asks(r, events, n - 1) && !Immediate(r, f) then Enqueue(rest, f, r.now, Observed) else rest
  }

  /** The broadcasts of the first j open events: one recovery for each that looks recovered and was
      announced. */
  ghost function RecoveriesSent(r: Round, open: seq<Event>, j: nat): seq<Broadcast>
    requires j <= |open|
  {
    if j == 0 then []
    else
      var e := open[j - 1];
      RecoveriesSent(r, open, j - 1)
      + if Quiet(r, e) && e.notified then [Recovery(EventKey(e), e.id, r.now, r.out.recovery(EventKey(e)))] else []
  }

  /** The digest after the first j open events: the recoveries nobody was alerted about. */
  ghost function RecoveriesDeferred(r: Round, open: seq<Event>, digest: seq<DigestItem>, j: nat): seq<DigestItem>
    requires j <= |open|
  {
    if j == 0 then digest
    else
      var e := open[j - 1];
      var rest := RecoveriesDeferred(r, open, digest, j - 1);
      if Quiet(r, e) && !e.notified then Enqueue(rest, RecoveredFinding(e), r.now, Recovered) else rest
  }

  ghost function NewRows(r: Round, events: seq<Event>, n: nat): seq<Event>
    requires n <= |r.findings|
  {
    if n == 0 then []
    else
      var rest := NewRows(r, events, n - 1);
      if Admits(r, events, n - 1) then rest + [NewRow(r, r.findings[n - 1], |events| + |rest| + 1)] else rest
  }

  ghost function OldRows(r: Round, events: seq<Event>): (rows: seq<Event>)
    ensures |rows| == |events|
  {
    seq(|events|, i requires 0 <= i < |events| =>
      if Recovers(r, events[i]) then ResolvedRow(events[i], r.now) else events[i])
  }

  /** The events table after a round, said without its loops. */
  ghost function Meaning(r: Round, events: seq<Event>): seq<Event> {
    OldRows(r, events) + NewRows(r, events, |r.findings|)
  }

  /** All tables after a round: the alerts of the findings come first, then the recoveries, in the
      order in which their events opened. */
  ghost function TablesMeaning(r: Round, db: Db): Db {
    var n, open := |r.findings|, OpenByKey(db.events, r.scope);
    Db(Meaning(r, db.events),
       RecoveriesDeferred(r, open, NewsDeferred(r, db.events, db.digest, n), |open|),
       db.log + AlertsSent(r, db.events, n) + RecoveriesSent(r, open, |open|))
  }
}
