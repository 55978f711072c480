/** Several jobs share the incident engine. Each job is serial and owns a family of rules; their
    rounds interleave at every await. */
module IncidentJobs {
  import opened Basics
  import opened Ordering
  import opened Incidents
  import opened IncidentSnapshot
  import opened IncidentRound

  datatype JobKind = Probe | Metrics | Logs | Errors | Docker | Report

  /** Every rule a job may ever put in the scope of a round. */
  function Family(kind: JobKind): set<Rule> {
    match kind
    case Probe => {ServiceDown, LatencyDegraded}
    case Metrics => {DiskUsage, MemPressure, ContainerRestart, MiddlewareDown, ScanFailedPrometheus}
    case Logs => {LogErrorSpike, ScanFailedLoki}
    case Errors => {LogErrorNew}
    case Docker => {ContainerDown, ContainerUnhealthy, ContainerOom, ContainerCrashloop, ScanFailedDocker}
    case Report => {BackupStale, ResticBackupStale, DiskForecast, CertExpiry}
  }

  lemma FamiliesDisjoint(a: JobKind, b: JobKind)
    requires a != b
    ensures Family(a) !! Family(b)
  {}

  // ---- The shared system ----

  type SaneJob = job: Job | Sane(job) witness Idle

  datatype System = System(db: Db, jobs: map<JobKind, SaneJob>)

  datatype Action =
    | Begin(kind: JobKind, round: Round)  // the job starts a round, if it is idle
    | Step(kind: JobKind)                 // the job runs on to its next control point

  function JobOf(s: System, kind: JobKind): SaneJob {
    if kind in s.jobs then s.jobs[kind] else Idle
  }

  function Act(s: System, a: Action): System {
    match a
    case Begin(kind, round) =>
      if JobOf(s, kind).Idle? then s.(jobs := s.jobs[kind := Start(round, s.db.events)]) else s
    case Step(kind) =>
      var (job, db) := Advance(JobOf(s, kind), s.db);
      System(db, s.jobs[kind := job])
  }

  function Run(s: System, trace: seq<Action>): System {
    if trace == [] then s else Act(Run(s, trace[..|trace| - 1]), trace[|trace| - 1])
  }

  /** Rounds stay inside their family, report only rules in scope, and cool down at least `c`. */
  ghost predicate Legal(a: Action, c: nat) {
    a.Begin? ==> InScope(a.round) && a.round.scope <= Family(a.kind) && a.round.cooldown >= c
  }

  ghost predicate LegalTrace(trace: seq<Action>, c: nat) {
    forall i :: 0 <= i < |trace| ==> Legal(trace[i], c)
  }

  // ---- Invariant ----

  /** A later event of a key starts no earlier than the end of the cooldown of an earlier one. */
  ghost predicate Spaced(events: seq<Event>, c: nat) {
    && (forall i :: 0 <= i < |events| ==> events[i].cooldownUntil >= events[i].ts + c)
    && (forall i, j :: 0 <= i < j < |events| && EventKey(events[i]) == EventKey(events[j])
          ==> events[j].ts >= events[i].cooldownUntil)
  }

  ghost predicate AlertedAt(log: seq<Broadcast>, key: Key, ts: int, point: bool) {
    exists k :: 0 <= k < |log| && log[k].Alert? && log[k].key == key && log[k].ts == ts && log[k].point == point
                && log[k].delivered >= 1
  }

  ghost predicate RecoveryOf(log: seq<Broadcast>, id: nat) {
    exists k :: 0 <= k < |log| && log[k].Recovery? && log[k].id == id && log[k].delivered >= 1
  }

  /** No row claims a message that was not sent: a notified row has a delivered alert of its key and time,
      and, unless that was the alert of a point event, once it is resolved a delivered recovery. */
  ghost predicate Announced(events: seq<Event>, log: seq<Broadcast>) {
    forall i :: 0 <= i < |events| && events[i].notified ==> Told(log, events[i])
  }

  ghost predicate Told(log: seq<Broadcast>, e: Event) {
    || AlertedAt(log, EventKey(e), e.ts, true)
    || (AlertedAt(log, EventKey(e), e.ts, false) && (e.status == Resolved ==> RecoveryOf(log, e.id)))
  }

  ghost predicate TablesOk(db: Db, c: nat) {
    && Numbered(db.events)
    && OneOpen(db.events)
    && Spaced(db.events, c)
    && Announced(db.events, db.log)
  }

  /** Every open event in scope was open when the round began or was opened by it. */
  ghost predicate Covered(r: Round, open: seq<Event>, firing: set<Key>, events: seq<Event>) {
    forall i :: 0 <= i < |events| && events[i].status == Open && events[i].rule in r.scope
      ==> HasKey(open, EventKey(events[i])) || EventKey(events[i]) in firing
  }

  /** The events a round found open are still the same rows. */
  ghost predicate Tracks(r: Round, open: seq<Event>, events: seq<Event>) {
    forall k :: 0 <= k < |open| ==>
      && 1 <= open[k].id <= |events|
      && open[k].rule in r.scope
      && EventKey(events[open[k].id - 1]) == EventKey(open[k])
      && events[open[k].id - 1].notified == open[k].notified
  }

  ghost predicate JobOk(job: SaneJob, kind: JobKind, events: seq<Event>, c: nat) {
    job.Running? ==>
      var r := job.round;
      && InScope(r) && r.scope <= Family(kind) && r.cooldown >= c
      && Tracks(r, job.open, events)
      && match job.pc
         case AtFinding(i) => job.firing == Firing(r, i) && Covered(r, job.open, job.firing, events)
         case AwaitAlert(i) =>
           && job.firing == Firing(r, i + 1)
           && Covered(r, job.open, job.firing, events)
           && !IsOpen(events, KeyOf(r.findings[i]))
           && CooldownUntil(events, KeyOf(r.findings[i])) <= r.now
           && Immediate(r, r.findings[i])
         case AtOpen(_) => job.firing == Firing(r, |r.findings|)
         case AwaitRecovery(j) =>
           && job.firing == Firing(r, |r.findings|)
           && EventKey(job.open[j]) !in job.firing && EventKey(job.open[j]) !in r.hold
           && job.open[j].notified
  }

  ghost predicate Inv(s: System, c: nat) {
    && TablesOk(s.db, c)
    && forall kind: JobKind :: JobOk(JobOf(s, kind), kind, s.db.events, c)
  }

  // ---- What one step may do to the tables ----

  /** The rows of a step: rows of other families are untouched, and no row changes its identity. */
  ghost predicate Touches(kind: JobKind, events: seq<Event>, events': seq<Event>) {
    && |events'| >= |events|
    && (forall i :: 0 <= i < |events| ==>
         && events'[i].id == events[i].id && EventKey(events'[i]) == EventKey(events[i])
         && events'[i].notified == events[i].notified
         && (events'[i].status == Open ==> events[i].status == Open)
         && (events[i].rule !in Family(kind) ==> events'[i] == events[i]))
    && (forall i :: |events| <= i < |events'| ==> events'[i].rule in Family(kind))
  }

  lemma {:induction false} MaxCooldownBounds(events: seq<Event>, key: Key, i: nat)
    requires i < |events| && EventKey(events[i]) == key
    ensures MaxCooldown(events, key).Some? && MaxCooldown(events, key).value >= events[i].cooldownUntil
  {
    if i < |events| - 1 { MaxCooldownBounds(events[..|events| - 1], key, i); }
  }

  lemma {:induction false} MaxCooldownUntouched(kind: JobKind, events: seq<Event>, events': seq<Event>, key: Key)
    requires Touches(kind, events, events') && key.0 !in Family(kind)
    ensures MaxCooldown(events', key) == MaxCooldown(events, key)
    decreases |events'|
  {
    if |events'| > |events| {
      MaxCooldownUntouched(kind, events, events'[..|events'| - 1], key);
    } else if events' != [] {
      var n := |events| - 1;
      MaxCooldownUntouched(kind, events[..n], events'[..n], key);
    }
  }

  /** Inserting the row of a finding that is neither open nor cooling down. */
  lemma InsertKeepsTables(db: Db, r: Round, f: Finding, c: nat)
    requires TablesOk(db, c) && r.cooldown >= c
    requires !IsOpen(db.events, KeyOf(f)) && CooldownUntil(db.events, KeyOf(f)) <= r.now
    requires Immediate(r, f) ==> AlertedAt(db.log, KeyOf(f), r.now, f.point)
    ensures TablesOk(db.(events := db.events + [NewRow(r, f, |db.events| + 1)]), c)
  {
    var row := NewRow(r, f, |db.events| + 1);
    var events' := db.events + [row];
    forall i | 0 <= i < |db.events| && EventKey(db.events[i]) == EventKey(row)
      ensures row.ts >= db.events[i].cooldownUntil
    {
      MaxCooldownBounds(db.events, KeyOf(f), i);
    }
  }

  lemma ResolveKeepsTables(db: Db, id: nat, now: int, c: nat)
    requires TablesOk(db, c) && 1 <= id <= |db.events|
    requires db.events[id - 1].notified ==> RecoveryOf(db.log, id)
    ensures TablesOk(db.(events := ResolveById(db.events, id, now)), c)
  {}

  lemma LogKeepsTables(db: Db, b: Broadcast, c: nat)
    requires TablesOk(db, c)
    ensures TablesOk(db.(log := db.log + [b]), c)
    ensures b.Alert? && b.delivered >= 1 ==> AlertedAt(db.log + [b], b.key, b.ts, b.point)
    ensures b.Recovery? && b.delivered >= 1 ==> RecoveryOf(db.log + [b], b.id)
  {
    var log' := db.log + [b];
    assert log'[|db.log|] == b;
    forall i | 0 <= i < |db.events| && db.events[i].notified ensures Told(log', db.events[i]) {
      LogKeepsTold(db.log, b, db.events[i]);
    }
  }

  lemma LogKeepsTold(log: seq<Broadcast>, b: Broadcast, e: Event)
    requires Told(log, e)
    ensures Told(log + [b], e)
  {
    var log' := log + [b];
    var point := AlertedAt(log, EventKey(e), e.ts, true);
    var k :| 0 <= k < |log| && log[k].Alert? && log[k].key == EventKey(e) && log[k].ts == e.ts && log[k].point == point
             && log[k].delivered >= 1;
    assert log'[k] == log[k];
    if RecoveryOf(log, e.id) {
      var m :| 0 <= m < |log| && log[m].Recovery? && log[m].id == e.id && log[m].delivered >= 1;
      assert log'[m] == log[m];
    }
  }

  // ---- The running job keeps the invariant ----

  /** A row of a key that is firing keeps the books of the round that inserts it. */
  lemma InsertKeepsBooks(r: Round, open: seq<Event>, firing: set<Key>, events: seq<Event>, row: Event)
    requires Tracks(r, open, events) && Covered(r, open, firing, events)
    requires EventKey(row) in firing
    ensures Tracks(r, open, events + [row]) && Covered(r, open, firing, events + [row])
  {}

  lemma FindingInserts(job: SaneJob, kind: JobKind, db: Db, c: nat)
    requires TablesOk(db, c) && JobOk(job, kind, db.events, c) && job.Running? && job.pc.AtFinding?
    requires Advance(job, db).1 != db
    ensures var (job', db') := Advance(job, db);
            TablesOk(db', c) && JobOk(job', kind, db'.events, c) && Touches(kind, db.events, db'.events)
  {
    var r, i := job.round, job.pc.i;
    FindingMove(job, db);
    var f := r.findings[i];
    assert Firing(r, i + 1) == Firing(r, i) + {KeyOf(f)};
    assert !IsOpen(db.events, KeyOf(f));
    hide Advance, Enqueue, Spaced, Announced, OneOpen, CooldownUntil, Firing, HasKey, NewRow, Immediate;
    InsertKeepsTables(db, r, f, c);
    InsertKeepsBooks(r, job.open, job.firing + {KeyOf(f)}, db.events, NewRow(r, f, |db.events| + 1));
    RowOfFinding(r, kind, i, |db.events| + 1);
    hide Touches, IsOpen, InScope;
    AppendTouches(kind, db.events, NewRow(r, f, |db.events| + 1));
  }

  /** When a finding inserts a row without a message. */
  lemma FindingMove(job: SaneJob, db: Db)
    requires job.Running? && job.pc.AtFinding? && Advance(job, db).1 != db
    ensures job.pc.i < |job.round.findings|
    ensures var r, i := job.round, job.pc.i;
            var f := r.findings[i];
            && !HasKey(job.open, KeyOf(f)) && KeyOf(f) !in job.firing && CooldownUntil(db.events, KeyOf(f)) <= r.now && !Immediate(r, f)
            && Advance(job, db) ==
                 (job.(firing := job.firing + {KeyOf(f)}, pc := AtFinding(i + 1), admitted := job.admitted + 1),
                  db.(digest := Enqueue(db.digest, f, r.now, Observed), events := db.events + [NewRow(r, f, |db.events| + 1)]))
  {
    hide Enqueue, HasKey, CooldownUntil, NewRow, Immediate;
  }

  lemma FindingKeeps(job: SaneJob, kind: JobKind, db: Db, c: nat)
    requires TablesOk(db, c) && JobOk(job, kind, db.events, c) && job.Running? && job.pc.AtFinding?
    ensures var (job', db') := Advance(job, db);
            TablesOk(db', c) && JobOk(job', kind, db'.events, c) && Touches(kind, db.events, db'.events)
  {
    var r, i := job.round, job.pc.i;
    if Advance(job, db).1 != db {
      FindingInserts(job, kind, db, c);
    } else if i < |r.findings| {
      assert Firing(r, i + 1) == Firing(r, i) + {KeyOf(r.findings[i])};
      if HasKey(job.open, KeyOf(r.findings[i])) {
        assert Advance(job, db).0.pc.AtFinding?;
      }
    }
  }

  lemma RowOfFinding(r: Round, kind: JobKind, i: nat, id: nat)
    requires i < |r.findings| && InScope(r) && r.scope <= Family(kind)
    ensures var row := NewRow(r, r.findings[i], id);
            EventKey(row) == KeyOf(r.findings[i]) && KeyOf(r.findings[i]) in Firing(r, i + 1) && row.rule in Family(kind)
  {}

  lemma AppendTouches(kind: JobKind, events: seq<Event>, row: Event)
    requires row.rule in Family(kind)
    ensures Touches(kind, events, events) && Touches(kind, events, events + [row])
  {}

  lemma AlertMove(job: SaneJob, db: Db)
    requires job.Running? && job.pc.AwaitAlert?
    ensures var r, f := job.round, job.round.findings[job.pc.i];
            var d := r.out.alert(KeyOf(f));
            var db' := db.(log := db.log + [Alert(KeyOf(f), r.now, f.point, d)]);
            var job' := job.(pc := AtFinding(job.pc.i + 1));
            Advance(job, db) ==
              if d < 1 then (job', db')
              else (job'.(admitted := job.admitted + 1), db'.(events := db.events + [NewRow(r, f, |db.events| + 1)]))
  {}

  lemma AlertKeeps(job: SaneJob, kind: JobKind, db: Db, c: nat)
    requires TablesOk(db, c) && JobOk(job, kind, db.events, c) && job.Running? && job.pc.AwaitAlert?
    ensures var (job', db') := Advance(job, db);
            TablesOk(db', c) && JobOk(job', kind, db'.events, c) && Touches(kind, db.events, db'.events)
  {
    var r, i := job.round, job.pc.i;
    var f := r.findings[i];
    var b := Alert(KeyOf(f), r.now, f.point, r.out.alert(KeyOf(f)));
    var row := NewRow(r, f, |db.events| + 1);
    RowOfFinding(r, kind, i, |db.events| + 1);
    AlertMove(job, db);
    AppendTouches(kind, db.events, row);
    hide Advance, Touches, TablesOk, Tracks, Covered, NewRow, CooldownUntil, IsOpen, Immediate, Firing, AlertedAt;
    hide RecoveryOf, Family, InScope;
    LogKeepsTables(db, b, c);
    if b.delivered >= 1 {
      InsertKeepsTables(db.(log := db.log + [b]), r, f, c);
      InsertKeepsBooks(r, job.open, job.firing, db.events, row);
    }
  }

  lemma ResolveKeepsBooks(r: Round, open: seq<Event>, kind: JobKind, events: seq<Event>, id: nat)
    requires Numbered(events) && Tracks(r, open, events)
    requires 1 <= id <= |events| && events[id - 1].rule in Family(kind)
    ensures Tracks(r, open, ResolveById(events, id, r.now))
    ensures Touches(kind, events, ResolveById(events, id, r.now))
  {}

  lemma OpenKeeps(job: SaneJob, kind: JobKind, db: Db, c: nat)
    requires TablesOk(db, c) && JobOk(job, kind, db.events, c) && job.Running? && job.pc.AtOpen?
    ensures var (job', db') := Advance(job, db);
            TablesOk(db', c) && JobOk(job', kind, db'.events, c) && Touches(kind, db.events, db'.events)
  {
    var r, j := job.round, job.pc.j;
    OpenMove(job, db);
    TouchesNothing(kind, db.events);
    hide Advance, Enqueue, RecoveredFinding, CooldownUntil, IsOpen, InScope, ResolveById, Spaced, Announced, OneOpen, Touches;
    if j < |job.open| && !job.open[j].notified {
      var e := job.open[j];
      if EventKey(e) !in job.firing && EventKey(e) !in r.hold {
        ResolveKeepsTables(db, e.id, r.now, c);
        ResolveKeepsBooks(r, job.open, kind, db.events, e.id);
      }
    }
  }

  lemma TouchesNothing(kind: JobKind, events: seq<Event>)
    ensures Touches(kind, events, events)
  {}

  lemma OpenMove(job: SaneJob, db: Db)
    requires job.Running? && job.pc.AtOpen?
    ensures var r, j := job.round, job.pc.j;
            Advance(job, db) ==
              if j == |job.open| then (Idle, db)
              else
                var e := job.open[j];
                if EventKey(e) in job.firing || EventKey(e) in r.hold then (job.(pc := AtOpen(j + 1)), db)
                else if e.notified then (job.(pc := AwaitRecovery(j)), db)
                else
                  (job.(pc := AtOpen(j + 1)),
                   db.(digest := Enqueue(db.digest, RecoveredFinding(e), r.now, Recovered),
                       events := ResolveById(db.events, e.id, r.now)))
  {}

  lemma RecoveryKeeps(job: SaneJob, kind: JobKind, db: Db, c: nat)
    requires TablesOk(db, c) && JobOk(job, kind, db.events, c) && job.Running? && job.pc.AwaitRecovery?
    ensures var (job', db') := Advance(job, db);
            TablesOk(db', c) && JobOk(job', kind, db'.events, c) && Touches(kind, db.events, db'.events)
  {
    var r := job.round;
    var e := job.open[job.pc.j];
    var b := Recovery(EventKey(e), e.id, r.now, r.out.recovery(EventKey(e)));
    LogKeepsTables(db, b, c);
    if b.delivered >= 1 {
      ResolveKeepsTables(db.(log := db.log + [b]), e.id, r.now, c);
      ResolveKeepsBooks(r, job.open, kind, db.events, e.id);
    }
  }

  lemma StepKeepsOwn(job: SaneJob, kind: JobKind, db: Db, c: nat)
    requires TablesOk(db, c) && JobOk(job, kind, db.events, c)
    ensures var (job', db') := Advance(job, db);
            TablesOk(db', c) && JobOk(job', kind, db'.events, c) && Touches(kind, db.events, db'.events)
  {
    if job.Running? {
      match job.pc
      case AtFinding(_) => FindingKeeps(job, kind, db, c);
      case AwaitAlert(_) => AlertKeeps(job, kind, db, c);
      case AtOpen(_) => OpenKeeps(job, kind, db, c);
      case AwaitRecovery(_) => RecoveryKeeps(job, kind, db, c);
    }
  }

  /** A step of one job leaves every other job's invariant alone. */
  lemma StepKeepsOther(job: SaneJob, kind: JobKind, mover: JobKind, events: seq<Event>, events': seq<Event>, c: nat)
    requires JobOk(job, kind, events, c) && kind != mover && Touches(mover, events, events')
    ensures JobOk(job, kind, events', c)
  {
    FamiliesDisjoint(kind, mover);
    if job.Running? && job.pc.AwaitAlert? {
      var key := KeyOf(job.round.findings[job.pc.i]);
      MaxCooldownUntouched(mover, events, events', key);
    }
  }

  lemma StartOk(r: Round, kind: JobKind, events: seq<Event>, c: nat)
    requires Numbered(events) && OneOpen(events)
    requires InScope(r) && r.scope <= Family(kind) && r.cooldown >= c
    ensures JobOk(Start(r, events), kind, events, c)
  {
    var open := OpenByKey(events, r.scope);
    forall k | 0 <= k < |open|
      ensures 1 <= open[k].id <= |events| && open[k].rule in r.scope && events[open[k].id - 1] == open[k]
    {
      OpenByKeyMember(events, r.scope, open[k]);
    }
    forall i | 0 <= i < |events| && events[i].status == Open && events[i].rule in r.scope
      ensures HasKey(open, EventKey(events[i]))
    {
      OpenByKeyMember(events, r.scope, events[i]);
    }
    assert Firing(r, 0) == {};
  }

  lemma ActKeeps(s: System, a: Action, c: nat)
    requires Inv(s, c) && Legal(a, c)
    ensures Inv(Act(s, a), c)
  {
    var s' := Act(s, a);
    match a
    case Begin(starter, round) =>
      StartOk(round, starter, s.db.events, c);
      forall kind: JobKind ensures JobOk(JobOf(s', kind), kind, s'.db.events, c) {
        assert JobOk(JobOf(s, kind), kind, s.db.events, c);
      }
    case Step(mover) =>
      StepKeepsOwn(JobOf(s, mover), mover, s.db, c);
      forall kind: JobKind ensures JobOk(JobOf(s', kind), kind, s'.db.events, c) {
        if kind != mover { StepKeepsOther(JobOf(s, kind), kind, mover, s.db.events, s'.db.events, c); }
      }
  }

  /** Whatever the interleaving, no (rule, subject) is ever open twice, no cooldown is cut short and
      no row claims a message that was not sent. */
  lemma {:induction false} InterleavingSafe(s: System, trace: seq<Action>, c: nat)
    requires Inv(s, c) && LegalTrace(trace, c)
    ensures Inv(Run(s, trace), c)
  {
    if trace != [] {
      InterleavingSafe(s, trace[..|trace| - 1], c);
      ActKeeps(Run(s, trace[..|trace| - 1]), trace[|trace| - 1], c);
    }
  }

  lemma EmptyStoreSafe(trace: seq<Action>, c: nat)
    requires LegalTrace(trace, c)
    ensures Inv(Run(System(Db([], [], []), map[]), trace), c)
  {
    InterleavingSafe(System(Db([], [], []), map[]), trace, c);
  }

  // ---- Who resolves an event ----

  lemma OpenResolves(job: SaneJob, kind: JobKind, db: Db, c: nat, i: nat)
    requires TablesOk(db, c) && JobOk(job, kind, db.events, c)
    requires job.Running? && (job.pc.AtOpen? || job.pc.AwaitRecovery?)
    requires i < |db.events| && db.events[i].status == Open
    ensures i < |Advance(job, db).1.events|
    ensures Advance(job, db).1.events[i].status == Resolved ==>
      Recovers(job.round, db.events[i]) && job.pc.j < |job.open| && job.open[job.pc.j].id == i + 1
  {
    hide Enqueue, RecoveredFinding, Spaced, Announced, OneOpen, Firing;
    if job.pc.j < |job.open| {
      var e := job.open[job.pc.j];
      assert EventKey(db.events[e.id - 1]) == EventKey(e);
      assert forall k :: 0 <= k < |db.events| ==> (db.events[k].id == e.id <==> k == e.id - 1);
    }
  }

  lemma FindingResolves(job: SaneJob, db: Db, i: nat)
    requires job.Running? && (job.pc.AtFinding? || job.pc.AwaitAlert?) && i < |db.events|
    ensures i < |Advance(job, db).1.events| && Advance(job, db).1.events[i] == db.events[i]
  {
    hide Enqueue, NewRow, CooldownUntil, HasKey, Immediate;
  }

  ghost predicate HasId(events: seq<Event>, id: nat) {
    exists k :: 0 <= k < |events| && events[k].id == id
  }

  /** Whichever step resolves an event is a step of the job that owns its rule, in a round that had the
      rule in scope, did not find it firing and did not hold it, and after its recovery was delivered, if
      its opening was announced. */
  lemma ActResolves(s: System, a: Action, i: nat, c: nat)
    requires Inv(s, c) && i < |s.db.events| && s.db.events[i].status == Open
    ensures i < |Act(s, a).db.events|
    ensures Act(s, a).db.events[i].status == Resolved ==>
      && a.Step? && JobOf(s, a.kind).Running?
      && s.db.events[i].rule in Family(a.kind)
      && Recovers(JobOf(s, a.kind).round, s.db.events[i])
      && HasId(JobOf(s, a.kind).open, i + 1)
  {
    if a.Step? {
      var job := JobOf(s, a.kind);
      assert JobOk(job, a.kind, s.db.events, c);
      if job.Running? {
        if job.pc.AtOpen? || job.pc.AwaitRecovery? {
          OpenResolves(job, a.kind, s.db, c, i);
        } else {
          FindingResolves(job, s.db, i);
        }
      }
      hide Advance, Recovers, TablesOk, Tracks;
    }
  }

  /** Over every run: an event that is open at some point and resolved later was resolved by such a step. */
  lemma {:induction false} RecoveryHasItsJob(s: System, trace: seq<Action>, m: nat, i: nat, c: nat) returns (k: nat)
    requires Inv(s, c) && LegalTrace(trace, c) && m <= |trace|
    requires i < |Run(s, trace[..m]).db.events| && Run(s, trace[..m]).db.events[i].status == Open
    requires i < |Run(s, trace).db.events| && Run(s, trace).db.events[i].status == Resolved
    ensures m <= k < |trace| && trace[k].Step? && ResolvedAt(s, trace, i, k)
    ensures var before := Run(s, trace[..k]);
            var job := JobOf(before, trace[k].kind);
            && job.Running? && before.db.events[i].rule in Family(trace[k].kind)
            && Recovers(job.round, before.db.events[i]) && HasId(job.open, i + 1)
  {
    hide Act, Inv, Recovers, HasId;
    assert trace[..|trace|] == trace;
    var n := |trace| - 1;
    var before := Run(s, trace[..n]);
    assert trace[..n][..m] == trace[..m];
    InterleavingSafe(s, trace[..n], c);
    RowsStay(s, trace[..n], m, i, c);
    if before.db.events[i].status == Open {
      ActResolves(before, trace[n], i, c);
      assert trace[..n + 1] == trace;
      k := n;
    } else {
      k := RecoveryHasItsJob(s, trace[..n], m, i, c);
      assert trace[..n][..k] == trace[..k] && trace[..n][..k + 1] == trace[..k + 1];
    }
  }

  /** Step k of the run resolves row i. */
  ghost predicate ResolvedAt(s: System, trace: seq<Action>, i: nat, k: nat) {
    && k < |trace|
    && i < |Run(s, trace[..k]).db.events| && Run(s, trace[..k]).db.events[i].status == Open
    && i < |Run(s, trace[..k + 1]).db.events| && Run(s, trace[..k + 1]).db.events[i].status == Resolved
  }

  lemma SameRound(job: SaneJob, db: Db)
    requires Advance(job, db).0.Running?
    ensures job.Running? && Advance(job, db).0.round == job.round && Advance(job, db).0.open == job.open
  {
    hide Enqueue, NewRow, CooldownUntil, HasKey, Immediate, ResolveById;
  }

  /** The job begins this round at step j, and it is still at it after l steps. */
  ghost predicate InRound(s: System, trace: seq<Action>, kind: JobKind, j: nat, l: nat) {
    && j < l <= |trace| && trace[j].Begin? && trace[j].kind == kind
    && JobOf(Run(s, trace[..j]), kind).Idle?
    && forall n :: j < n <= l ==>
         var job := JobOf(Run(s, trace[..n]), kind);
         job.Running? && job.round == trace[j].round && job.open == OpenByKey(Run(s, trace[..j]).db.events, trace[j].round.scope)
  }

  /** One step of a running round, or its beginning. */
  lemma ActRunning(s: System, a: Action, kind: JobKind)
    requires JobOf(Act(s, a), kind).Running?
    ensures var job := JobOf(Act(s, a), kind);
            if JobOf(s, kind).Idle? then
              a == Begin(kind, job.round) && job.open == OpenByKey(s.db.events, job.round.scope)
            else job.round == JobOf(s, kind).round && job.open == JobOf(s, kind).open
  {
    if a == Step(kind) { SameRound(JobOf(s, kind), s.db); }
    hide Advance, OpenByKey;
  }

  /** A round that runs was begun, by an idle job that has been at it ever since. */
  lemma {:induction false} RoundBegan(s: System, trace: seq<Action>, kind: JobKind) returns (j: nat)
    requires JobOf(s, kind).Idle? && JobOf(Run(s, trace), kind).Running?
    ensures InRound(s, trace, kind, j, |trace|)
  {
    hide Act;
    assert trace != [] by { RunNone(s); }
    var n := |trace| - 1;
    var before := Run(s, trace[..n]);
    ActRunning(before, trace[n], kind);
    assert trace[..n + 1] == trace;
    if JobOf(before, kind).Idle? {
      j := n;
    } else {
      j := RoundBegan(s, trace[..n], kind);
      RoundGoesOn(s, trace, kind, j);
    }
  }

  lemma RoundGoesOn(s: System, trace: seq<Action>, kind: JobKind, j: nat)
    requires trace != [] && InRound(s, trace[..|trace| - 1], kind, j, |trace| - 1)
    requires var before, job := JobOf(Run(s, trace[..|trace| - 1]), kind), JobOf(Run(s, trace), kind);
             job.Running? && before.Running? && job.round == before.round && job.open == before.open
    ensures InRound(s, trace, kind, j, |trace|)
  {
    hide Run, OpenByKey, JobOf;
    var n := |trace| - 1;
    var less := trace[..n];
    assert less[..j] == trace[..j] && less[..n] == less && trace[..|trace|] == trace;
    assert JobOf(Run(s, less[..n]), kind).Running?;
    forall l | j < l <= |trace|
      ensures var job := JobOf(Run(s, trace[..l]), kind);
              job.Running? && job.round == trace[j].round
              && job.open == OpenByKey(Run(s, trace[..j]).db.events, trace[j].round.scope)
    {
      if l <= n { assert less[..l] == trace[..l]; }
    }
  }

  /** Row i recovers at step k, in the round that its job began at step j and was at ever since; it was open
      when the round began. */
  ghost predicate RecoversIn(s: System, trace: seq<Action>, i: nat, j: nat, k: nat) {
    && ResolvedAt(s, trace, i, k) && trace[k].Step? && InRound(s, trace, trace[k].kind, j, k)
    && i < |Run(s, trace[..j]).db.events| && Run(s, trace[..j]).db.events[i].status == Open
    && EventKey(Run(s, trace[..j]).db.events[i]) == EventKey(Run(s, trace[..k]).db.events[i])
    && Run(s, trace[..k]).db.events[i].rule in Family(trace[k].kind)
    && Recovers(trace[j].round, Run(s, trace[..k]).db.events[i])
  }

  /** So behind every recovery, over every run from a state in which all jobs are idle, there is a round
      that was under way and had begun when the event was open, and in which the event recovers. */
  lemma RecoveryHasItsRound(s: System, trace: seq<Action>, m: nat, i: nat, c: nat) returns (j: nat, k: nat)
    requires Inv(s, c) && LegalTrace(trace, c) && (forall kind :: JobOf(s, kind).Idle?) && m <= |trace|
    requires i < |Run(s, trace[..m]).db.events| && Run(s, trace[..m]).db.events[i].status == Open
    requires i < |Run(s, trace).db.events| && Run(s, trace).db.events[i].status == Resolved
    ensures m <= k && RecoversIn(s, trace, i, j, k)
    ensures EventKey(Run(s, trace[..k]).db.events[i]) == EventKey(Run(s, trace[..m]).db.events[i])
  {
    hide Act, Inv, Recovers, Run;
    k := RecoveryHasItsJob(s, trace, m, i, c);
    var kind := trace[k].kind;
    var now := trace[..k];
    j := RoundBegan(s, now, kind);
    assert now[..k] == now && now[..j] == trace[..j] && now[..m] == trace[..m];
    forall l | j < l <= k ensures now[..l] == trace[..l] {}
    assert InRound(s, trace, kind, j, k);
    InterleavingSafe(s, trace[..j], c);
    RowsStay(s, now, m, i, c);
    RowsStay(s, now, j, i, c) by { WasOpen(s, trace, i, j, c); }
    WasOpen(s, trace, i, j, c);
  }

  /** The rows a round found open were open when it began. */
  lemma WasOpen(s: System, trace: seq<Action>, i: nat, j: nat, c: nat)
    requires j < |trace| && Inv(Run(s, trace[..j]), c)
    requires trace[j].Begin? && HasId(OpenByKey(Run(s, trace[..j]).db.events, trace[j].round.scope), i + 1)
    ensures i < |Run(s, trace[..j]).db.events| && Run(s, trace[..j]).db.events[i].status == Open
  {
    var events, scope := Run(s, trace[..j]).db.events, trace[j].round.scope;
    var open := OpenByKey(events, scope);
    var k :| 0 <= k < |open| && open[k].id == i + 1;
    OpenByKeyMember(events, scope, open[k]);
  }

  lemma RunNone(s: System)
    ensures Run(s, []) == s
  {}

  /** A row keeps its key, and it stays. */
  lemma {:induction false} RowsStay(s: System, trace: seq<Action>, m: nat, i: nat, c: nat)
    requires Inv(s, c) && LegalTrace(trace, c) && m <= |trace| && i < |Run(s, trace[..m]).db.events|
    ensures i < |Run(s, trace).db.events|
    ensures EventKey(Run(s, trace).db.events[i]) == EventKey(Run(s, trace[..m]).db.events[i])
  {
    hide Act, Inv;
    var n := |trace| - 1;
    if m == |trace| {
      assert trace[..m] == trace;
    } else {
      assert trace[..n][..m] == trace[..m];
      RowsStay(s, trace[..n], m, i, c);
      InterleavingSafe(s, trace[..n], c);
      ActGrows(Run(s, trace[..n]), trace[n], c);
    }
  }

  lemma ActGrows(s: System, a: Action, c: nat)
    requires Inv(s, c)
    ensures |Act(s, a).db.events| >= |s.db.events|
    ensures forall i :: 0 <= i < |s.db.events| ==> EventKey(Act(s, a).db.events[i]) == EventKey(s.db.events[i])
  {
    if a.Step? {
      assert JobOk(JobOf(s, a.kind), a.kind, s.db.events, c);
      StepKeepsOwn(JobOf(s, a.kind), a.kind, s.db, c);
    }
  }

  lemma ActChanges(s: System, a: Action, i: nat, c: nat)
    requires Inv(s, c) && i < |s.db.events|
    ensures i < |Act(s, a).db.events|
    ensures Act(s, a).db.events[i] != s.db.events[i] ==>
      a.Step? && JobOf(s, a.kind).Running? && s.db.events[i].rule in JobOf(s, a.kind).round.scope
  {
    if a.Step? {
      var job := JobOf(s, a.kind);
      assert JobOk(job, a.kind, s.db.events, c);
      if job.Running? {
        if job.pc.AtOpen? || job.pc.AwaitRecovery? {
          OpenChanges(job, a.kind, s.db, c, i);
        } else {
          FindingResolves(job, s.db, i);
        }
      }
      hide Advance, TablesOk, Tracks;
    }
  }

  lemma OpenChanges(job: SaneJob, kind: JobKind, db: Db, c: nat, i: nat)
    requires TablesOk(db, c) && JobOk(job, kind, db.events, c)
    requires job.Running? && (job.pc.AtOpen? || job.pc.AwaitRecovery?) && i < |db.events|
    ensures i < |Advance(job, db).1.events|
    ensures Advance(job, db).1.events[i] != db.events[i] ==> db.events[i].rule in job.round.scope
  {
    hide Enqueue, RecoveredFinding, Spaced, Announced, OneOpen, Firing;
    if job.pc.j < |job.open| {
      var e := job.open[job.pc.j];
      assert EventKey(db.events[e.id - 1]) == EventKey(e);
      assert forall k :: 0 <= k < |db.events| ==> (db.events[k].id == e.id <==> k == e.id - 1);
    }
  }

  /** As long as no round has its rule in scope, because its scan fails, say, an event does not change. */
  lemma {:induction false} UnevaluatedStays(s: System, trace: seq<Action>, i: nat, c: nat)
    requires Inv(s, c) && LegalTrace(trace, c) && (forall kind :: JobOf(s, kind).Idle?) && i < |s.db.events|
    requires forall k :: 0 <= k < |trace| && trace[k].Begin? ==> s.db.events[i].rule !in trace[k].round.scope
    ensures i < |Run(s, trace).db.events| && Run(s, trace).db.events[i] == s.db.events[i]
  {
    hide Act, Inv;
    if trace != [] {
      var n := |trace| - 1;
      var before := Run(s, trace[..n]);
      UnevaluatedStays(s, trace[..n], i, c);
      InterleavingSafe(s, trace[..n], c);
      ActChanges(before, trace[n], i, c);
      if JobOf(before, trace[n].kind).Running? {
        var j := RoundBegan(s, trace[..n], trace[n].kind);
        assert trace[..n][j] == trace[j] && trace[..n][..n] == trace[..n];
      }
    }
  }

  // ---- How often a key can open ----

  /** How many events of a key start in the interval from `from` of length `length`. */
  function CountIn(events: seq<Event>, key: Key, from: int, length: nat): nat {
    if events == [] then 0
    else
      var e := events[|events| - 1];
      CountIn(events[..|events| - 1], key, from, length)
      + if EventKey(e) == key && from <= e.ts <= from + length then 1 else 0
  }

  lemma TimesNext(n: int, c: int)
    ensures (n - 1) * c + c == n * c
  {}

  lemma {:induction false} CountSpan(events: seq<Event>, key: Key, from: int, length: nat, c: nat) returns (last: nat)
    requires Spaced(events, c) && CountIn(events, key, from, length) >= 1
    ensures last < |events| && EventKey(events[last]) == key
    ensures from + (CountIn(events, key, from, length) - 1) * c <= events[last].ts <= from + length
  {
    var n := |events| - 1;
    var rest: int := CountIn(events[..n], key, from, length);
    if EventKey(events[n]) == key && from <= events[n].ts <= from + length {
      last := n;
      if rest >= 1 {
        var prev := CountSpan(events[..n], key, from, length, c);
        assert events[n].ts >= events[prev].ts + c;
        TimesNext(rest, c);
      } else {
        assert rest * c == 0;
      }
    } else {
      last := CountSpan(events[..n], key, from, length, c);
    }
  }

  lemma SpanFits(n: int, c: int, from: int, ts: int, length: int)
    requires from + (n - 1) * c <= ts <= from + length
    ensures (n - 1) * c <= length
  {}

  lemma SpacedBound(events: seq<Event>, key: Key, from: int, length: nat, c: nat)
    requires Spaced(events, c)
    ensures (CountIn(events, key, from, length) - 1) * c <= length
  {
    if CountIn(events, key, from, length) >= 1 {
      var last := CountSpan(events, key, from, length, c);
      hide CountIn, Spaced;
      SpanFits(CountIn(events, key, from, length), c, from, events[last].ts, length);
    } else {
      TimesNext(0, c);
    }
  }

  /** An interval of length L holds at most L / cooldown + 1 events of a key, however the clocks of
      the rounds run. */
  lemma CooldownBound(s: System, trace: seq<Action>, key: Key, from: int, length: nat, c: nat)
    requires Inv(s, c) && LegalTrace(trace, c) && c > 0
    ensures (CountIn(Run(s, trace).db.events, key, from, length) - 1) * c <= length
  {
    InterleavingSafe(s, trace, c);
    SpacedBound(Run(s, trace).db.events, key, from, length, c);
  }
}
