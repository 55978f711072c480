/** A job among others behaves as it would alone: seen through its own rule family, the shared
    table goes through exactly the states of a table that only this job uses. */
module IncidentIndependence {
  import opened Ordering
  import opened Incidents
  import opened IncidentSnapshot
  import opened IncidentRound
  import opened IncidentJobs

  // ---- The family's own table ----

  /** The rows of a family, renumbered as if the table held no others. */
  function FamilyRows(events: seq<Event>, family: set<Rule>): seq<Event> {
    if events == [] then []
    else
      var rest := FamilyRows(events[..|events| - 1], family);
      var e := events[|events| - 1];
      if e.rule in family then rest + [e.(id := |rest| + 1)] else rest
  }

  /** The id a family row has in the family's own table. */
  function OwnId(events: seq<Event>, family: set<Rule>, id: nat): nat {
    if id <= |events| then |FamilyRows(events[..id], family)| else 0
  }

  function OwnRow(events: seq<Event>, family: set<Rule>, e: Event): Event {
    e.(id := OwnId(events, family, e.id))
  }

  function OwnRows(events: seq<Event>, family: set<Rule>, rows: seq<Event>): (r: seq<Event>)
    ensures |r| == |rows|
  {
    Map(e => OwnRow(events, family, e), rows)
  }

  function OwnJob(events: seq<Event>, family: set<Rule>, job: SaneJob): (r: SaneJob)
    ensures r.Idle? <==> job.Idle?
  {
    match job
    case Idle => Idle
    case Running(_, open, _, _, _) => job.(open := OwnRows(events, family, open))
  }

  // ---- The family's table follows the shared one ----

  lemma {:induction false} OwnIdKept(events: seq<Event>, events': seq<Event>, family: set<Rule>, id: nat)
    requires id <= |events| <= |events'|
    requires forall i :: 0 <= i < |events| ==> events'[i].rule == events[i].rule
    ensures OwnId(events', family, id) == OwnId(events, family, id)
  {
    if id > 0 {
      OwnIdKept(events, events', family, id - 1);
      assert events[..id][..id - 1] == events[..id - 1] && events'[..id][..id - 1] == events'[..id - 1];
    }
  }

  lemma OwnRowsKept(events: seq<Event>, events': seq<Event>, family: set<Rule>, rows: seq<Event>)
    requires |events| <= |events'|
    requires forall i :: 0 <= i < |events| ==> events'[i].rule == events[i].rule
    requires forall k :: 0 <= k < |rows| ==> rows[k].id <= |events|
    ensures OwnRows(events', family, rows) == OwnRows(events, family, rows)
  {
    forall k | 0 <= k < |rows|
      ensures OwnRow(events', family, rows[k]) == OwnRow(events, family, rows[k])
    {
      OwnIdKept(events, events', family, rows[k].id);
    }
  }

  lemma FamilyRowsAppend(events: seq<Event>, family: set<Rule>, row: Event)
    ensures FamilyRows(events + [row], family)
         == if row.rule in family then FamilyRows(events, family) + [row.(id := |FamilyRows(events, family)| + 1)]
            else FamilyRows(events, family)
  {
    assert (events + [row])[..|events|] == events;
  }

  lemma {:induction false} FamilyRowsNumbered(events: seq<Event>, family: set<Rule>)
    ensures Numbered(FamilyRows(events, family))
  {
    if events != [] { FamilyRowsNumbered(events[..|events| - 1], family); }
  }

  lemma {:induction false} MaxCooldownOwn(events: seq<Event>, family: set<Rule>, key: Key)
    requires key.0 in family
    ensures MaxCooldown(FamilyRows(events, family), key) == MaxCooldown(events, key)
  {
    if events != [] {
      var n := |events| - 1;
      MaxCooldownOwn(events[..n], family, key);
      var rest := FamilyRows(events[..n], family);
      assert (rest + [events[n].(id := |rest| + 1)])[..|rest|] == rest;
    }
  }

  lemma {:induction false} OwnIdBound(events: seq<Event>, family: set<Rule>, id: nat)
    requires id <= |events|
    ensures OwnId(events, family, id) <= |FamilyRows(events, family)|
    decreases |events|
  {
    assert events[..|events|] == events;
    if id < |events| {
      var n := |events| - 1;
      OwnIdBound(events[..n], family, id);
      assert events[..n][..id] == events[..id];
    }
  }

  /** Resolving a row of the shared table is resolving its counterpart in the family's table. */
  lemma {:induction false} FamilyRowsResolve(events: seq<Event>, family: set<Rule>, id: nat, now: int)
    requires Numbered(events) && 1 <= id <= |events| && events[id - 1].rule in family
    ensures FamilyRows(ResolveById(events, id, now), family)
         == ResolveById(FamilyRows(events, family), OwnId(events, family, id), now)
    decreases |events|
  {
    var n := |events| - 1;
    if id == |events| {
      ResolveLast(events, family, now);
    } else {
      FamilyRowsResolve(events[..n], family, id, now);
      ResolveEarlier(events, family, id, now);
    }
  }

  lemma ResolveLast(events: seq<Event>, family: set<Rule>, now: int)
    requires Numbered(events) && events != [] && events[|events| - 1].rule in family
    ensures FamilyRows(ResolveById(events, |events|, now), family)
         == ResolveById(FamilyRows(events, family), OwnId(events, family, |events|), now)
  {
    var n := |events| - 1;
    FamilyRowsNumbered(events[..n], family);
    assert events[..|events|] == events && ResolveById(events, |events|, now)[..n] == events[..n];
  }

  lemma ResolveEarlier(events: seq<Event>, family: set<Rule>, id: nat, now: int)
    requires Numbered(events) && 1 <= id < |events|
    requires var rows := events[..|events| - 1];
             FamilyRows(ResolveById(rows, id, now), family) == ResolveById(FamilyRows(rows, family), OwnId(rows, family, id), now)
    ensures FamilyRows(ResolveById(events, id, now), family)
         == ResolveById(FamilyRows(events, family), OwnId(events, family, id), now)
  {
    var n := |events| - 1;
    var e, rows := events[n], events[..n];
    assert ResolveById(events, id, now) == ResolveById(rows, id, now) + [e];
    hide ResolveById, Numbered;
    OwnIdBound(rows, family, id);
    assert rows[..id] == events[..id];
    assert events == rows + [e];
    FamilyRowsAppend(rows, family, e);
    FamilyRowsAppend(ResolveById(rows, id, now), family, e);
    hide FamilyRows;
    var rest := FamilyRows(rows, family);
    ResolveAppend(rest, e.(id := |rest| + 1), OwnId(events, family, id), now);
  }

  lemma ResolveAppend(rows: seq<Event>, e: Event, id: nat, now: int)
    requires e.id != id
    ensures ResolveById(rows + [e], id, now) == ResolveById(rows, id, now) + [e]
  {}

  lemma {:induction false} FamilyRowsOther(events: seq<Event>, events': seq<Event>, mover: JobKind, family: set<Rule>)
    requires Touches(mover, events, events') && family !! Family(mover)
    ensures FamilyRows(events', family) == FamilyRows(events, family)
    decreases |events'|
  {
    if |events'| > |events| {
      FamilyRowsOther(events, events'[..|events'| - 1], mover, family);
    } else if events' != [] {
      var n := |events| - 1;
      FamilyRowsOther(events[..n], events'[..n], mover, family);
    }
  }

  // ---- The snapshot of a round ----

  lemma {:induction false} SelectOpenOwn(events: seq<Event>, family: set<Rule>, scope: set<Rule>)
    requires Numbered(events) && scope <= family
    ensures SelectOpen(FamilyRows(events, family), scope) == OwnRows(events, family, SelectOpen(events, scope))
  {
    if events != [] {
      var n := |events| - 1;
      var e := events[n];
      var before, own := SelectOpen(events[..n], scope), FamilyRows(events[..n], family);
      SelectOpenOwn(events[..n], family, scope);
      forall k | 0 <= k < |before| ensures before[k].id <= n {
        SelectOpenMember(events[..n], scope, before[k]);
      }
      OwnRowsKept(events[..n], events, family, before);
      assert events[..e.id] == events;
      assert (own + [e.(id := |own| + 1)])[..|own|] == own;
    }
  }

  lemma MapFirst(f: Event -> Event, first: Event, rest: seq<Event>)
    ensures Map(f, [first] + rest) == [f(first)] + Map(f, rest)
  {}

  lemma {:induction false} PutMap(dict: seq<Event>, e: Event, f: Event -> Event)
    requires forall x :: EventKey(f(x)) == EventKey(x)
    ensures Put(Map(f, dict), f(e)) == Map(f, Put(dict, e))
  {
    if dict != [] {
      var first, rest := dict[0], dict[1..];
      assert Map(f, dict)[1..] == Map(f, rest) && Map(f, dict)[0] == f(first);
      if EventKey(first) != EventKey(e) {
        PutMap(rest, e, f);
        MapFirst(f, first, Put(rest, e));
      } else {
        MapFirst(f, e, rest);
      }
    }
  }

  lemma {:induction false} DictMap(rows: seq<Event>, f: Event -> Event)
    requires forall x :: EventKey(f(x)) == EventKey(x)
    ensures Dict(Map(f, rows)) == Map(f, Dict(rows))
  {
    if rows != [] {
      var n := |rows| - 1;
      assert Map(f, rows)[..n] == Map(f, rows[..n]);
      DictMap(rows[..n], f);
      PutMap(Dict(rows[..n]), rows[n], f);
    }
  }

  lemma OpenByKeyOwn(events: seq<Event>, family: set<Rule>, scope: set<Rule>)
    requires Numbered(events) && scope <= family
    ensures OpenByKey(FamilyRows(events, family), scope) == OwnRows(events, family, OpenByKey(events, scope))
  {
    var f := e => OwnRow(events, family, e);
    SelectOpenOwn(events, family, scope);
    SortMap(SelectOpen(events, scope), f, ByTs, ByTs);
    DictMap(Sort(SelectOpen(events, scope), ByTs), f);
  }

  lemma HasKeyOwn(events: seq<Event>, family: set<Rule>, rows: seq<Event>, key: Key)
    ensures HasKey(OwnRows(events, family, rows), key) <==> HasKey(rows, key)
  {
    var own := OwnRows(events, family, rows);
    assert forall i :: 0 <= i < |rows| ==> EventKey(own[i]) == EventKey(rows[i]);
    if i :| 0 <= i < |rows| && EventKey(rows[i]) == key { assert EventKey(own[i]) == key; }
  }

  // ---- One step ----

  /** The family's table and the job as the family sees it. */
  ghost predicate Mirrors(alone: System, s: System, kind: JobKind) {
    && alone.db.events == FamilyRows(s.db.events, Family(kind))
    && JobOf(alone, kind) == OwnJob(s.db.events, Family(kind), JobOf(s, kind))
  }

  /** A step of the job and a step of its mirror end in states that mirror each other; the new
      job's rows are still numbered by the old table. */
  ghost predicate StepsMirror(job: SaneJob, kind: JobKind, db: Db, own: Db) {
    var (job', db') := Advance(job, db);
    var (own', owndb') := Advance(OwnJob(db.events, Family(kind), job), own);
    && owndb'.events == FamilyRows(db'.events, Family(kind))
    && own' == OwnJob(db.events, Family(kind), job')
  }

  lemma OwnNewRow(r: Round, f: Finding, kind: JobKind, events: seq<Event>)
    requires f.rule in Family(kind)
    ensures FamilyRows(events + [NewRow(r, f, |events| + 1)], Family(kind))
         == FamilyRows(events, Family(kind)) + [NewRow(r, f, |FamilyRows(events, Family(kind))| + 1)]
  {
    FamilyRowsAppend(events, Family(kind), NewRow(r, f, |events| + 1));
  }

  /** Jobs that differ in their snapshots decide alike about a finding, if these agree on its key. */
  lemma SameAboutFinding(job: Job, open: seq<Event>, db: Db, own: Db)
    requires job.Running? && job.pc.AtFinding? && Sane(job)
    requires job.pc.i < |job.round.findings| ==>
      var key := KeyOf(job.round.findings[job.pc.i]);
      (HasKey(open, key) <==> HasKey(job.open, key)) && CooldownUntil(own.events, key) == CooldownUntil(db.events, key)
    ensures var (a, db') := Advance(job, db);
            var (b, own') := Advance(job.(open := open), own);
            && a.Running? && a.open == job.open && b == a.(open := open)
            && (|| (db'.events == db.events && own'.events == own.events)
                || (job.pc.i < |job.round.findings|
                    && db'.events == db.events + [NewRow(job.round, job.round.findings[job.pc.i], |db.events| + 1)]
                    && own'.events == own.events + [NewRow(job.round, job.round.findings[job.pc.i], |own.events| + 1)]))
  {
    hide HasKey, CooldownUntil, NewRow, Enqueue, Immediate;
  }

  lemma FindingMirrors(job: SaneJob, kind: JobKind, db: Db, own: Db, c: nat)
    requires TablesOk(db, c) && JobOk(job, kind, db.events, c)
    requires job.Running? && job.pc.AtFinding?
    requires own.events == FamilyRows(db.events, Family(kind))
    ensures StepsMirror(job, kind, db, own)
  {
    var r, i := job.round, job.pc.i;
    var open := OwnRows(db.events, Family(kind), job.open);
    if i < |r.findings| {
      var f := r.findings[i];
      HasKeyOwn(db.events, Family(kind), job.open, KeyOf(f));
      assert CooldownUntil(own.events, KeyOf(f)) == CooldownUntil(db.events, KeyOf(f)) by {
        MaxCooldownOwn(db.events, Family(kind), KeyOf(f));
      }
      OwnNewRow(r, f, kind, db.events);
    }
    hide Advance, TablesOk, JobOk, CooldownUntil, FamilyRows, NewRow, HasKey, OwnRows, Family;
    SameAboutFinding(job, open, db, own);
  }

  lemma AlertMirrors(job: SaneJob, kind: JobKind, db: Db, own: Db, c: nat)
    requires TablesOk(db, c) && JobOk(job, kind, db.events, c)
    requires job.Running? && job.pc.AwaitAlert?
    requires own.events == FamilyRows(db.events, Family(kind))
    ensures StepsMirror(job, kind, db, own)
  {
    OwnNewRow(job.round, job.round.findings[job.pc.i], kind, db.events);
    hide TablesOk, JobOk, FamilyRows, NewRow, OwnRows, Family;
  }

  lemma SameAboutOpen(job: Job, open: seq<Event>, db: Db, own: Db)
    requires job.Running? && (job.pc.AtOpen? || job.pc.AwaitRecovery?) && Sane(job)
    requires |open| == |job.open|
    requires job.pc.j < |open| ==>
      EventKey(open[job.pc.j]) == EventKey(job.open[job.pc.j]) && open[job.pc.j].notified == job.open[job.pc.j].notified
    ensures var (a, db') := Advance(job, db);
            var (b, own') := Advance(job.(open := open), own);
            && (if a.Running? then a.open == job.open && b == a.(open := open) else b.Idle?)
            && (|| (db'.events == db.events && own'.events == own.events)
                || (job.pc.j < |open|
                    && db'.events == ResolveById(db.events, job.open[job.pc.j].id, job.round.now)
                    && own'.events == ResolveById(own.events, open[job.pc.j].id, job.round.now)))
  {
    hide Enqueue, ResolveById;
  }

  lemma OpenMirrors(job: SaneJob, kind: JobKind, db: Db, own: Db, c: nat)
    requires TablesOk(db, c) && JobOk(job, kind, db.events, c)
    requires job.Running? && (job.pc.AtOpen? || job.pc.AwaitRecovery?)
    requires own.events == FamilyRows(db.events, Family(kind))
    ensures StepsMirror(job, kind, db, own)
  {
    var r, j := job.round, job.pc.j;
    var open := OwnRows(db.events, Family(kind), job.open);
    if j < |job.open| {
      FamilyRowsResolve(db.events, Family(kind), job.open[j].id, r.now);
      assert open[j] == OwnRow(db.events, Family(kind), job.open[j]);
    }
    hide Advance, TablesOk, JobOk, FamilyRows, OwnRows, OwnId, Family, ResolveById;
    SameAboutOpen(job, open, db, own);
  }

  /** The running job's view survives its own step: old ids keep their own numbers. */
  lemma OwnJobKept(job: SaneJob, kind: JobKind, mover: JobKind, events: seq<Event>, events': seq<Event>)
    requires Touches(mover, events, events')
    requires job.Running? ==> forall k :: 0 <= k < |job.open| ==> job.open[k].id <= |events|
    ensures OwnJob(events', Family(kind), job) == OwnJob(events, Family(kind), job)
  {
    if job.Running? {
      forall i | 0 <= i < |events| ensures events'[i].rule == events[i].rule {
        assert EventKey(events'[i]) == EventKey(events[i]);
      }
      OwnRowsKept(events, events', Family(kind), job.open);
    }
  }

  lemma StepKeepsOpen(job: SaneJob, kind: JobKind, db: Db, c: nat)
    requires TablesOk(db, c) && JobOk(job, kind, db.events, c)
    ensures var (job', db') := Advance(job, db);
            OwnJob(db'.events, Family(kind), job') == OwnJob(db.events, Family(kind), job')
  {
    StepKeepsOwn(job, kind, db, c);
    var (job', db') := Advance(job, db);
    assert job'.Running? ==> job.Running? && job'.open == job.open;
    OwnJobKept(job', kind, kind, db.events, db'.events);
  }

  lemma OwnStepMirrors(alone: System, s: System, kind: JobKind, c: nat)
    requires Inv(s, c) && Mirrors(alone, s, kind)
    ensures Mirrors(Act(alone, Step(kind)), Act(s, Step(kind)), kind)
  {
    var job := JobOf(s, kind);
    assert JobOk(job, kind, s.db.events, c);
    if job.Running? {
      match job.pc
      case AtFinding(_) => FindingMirrors(job, kind, s.db, alone.db, c);
      case AwaitAlert(_) => AlertMirrors(job, kind, s.db, alone.db, c);
      case AtOpen(_) => OpenMirrors(job, kind, s.db, alone.db, c);
      case AwaitRecovery(_) => OpenMirrors(job, kind, s.db, alone.db, c);
    }
    StepKeepsOpen(JobOf(s, kind), kind, s.db, c);
  }

  lemma OtherStepMirrors(alone: System, s: System, kind: JobKind, mover: JobKind, c: nat)
    requires Inv(s, c) && Mirrors(alone, s, kind) && mover != kind
    ensures Mirrors(alone, Act(s, Step(mover)), kind)
  {
    assert JobOk(JobOf(s, mover), mover, s.db.events, c) && JobOk(JobOf(s, kind), kind, s.db.events, c);
    StepKeepsOwn(JobOf(s, mover), mover, s.db, c);
    FamiliesDisjoint(kind, mover);
    hide JobOk, TablesOk, Advance, FamilyRows, Touches, OwnJob;
    var events' := Act(s, Step(mover)).db.events;
    FamilyRowsOther(s.db.events, events', mover, Family(kind));
    OwnJobKept(JobOf(s, kind), kind, mover, s.db.events, events');
  }

  // ---- Whole runs ----

  /** The actions of one job. */
  function Only(trace: seq<Action>, kind: JobKind): seq<Action> {
    if trace == [] then []
    else
      var rest := Only(trace[..|trace| - 1], kind);
      var a := trace[|trace| - 1];
      if a.kind == kind then rest + [a] else rest
  }

  lemma ActMirrors(alone: System, s: System, kind: JobKind, a: Action, c: nat)
    requires Inv(s, c) && Legal(a, c) && Mirrors(alone, s, kind)
    ensures Mirrors(if a.kind == kind then Act(alone, a) else alone, Act(s, a), kind)
  {
    match a
    case Begin(starter, round) =>
      if starter == kind { OpenByKeyOwn(s.db.events, Family(kind), round.scope); }
    case Step(mover) =>
      if mover == kind { OwnStepMirrors(alone, s, kind, c); } else { OtherStepMirrors(alone, s, kind, mover, c); }
  }

  /** In any interleaving, the events of a job's family are, up to ids, those of the job running
      alone on its own table with the same rounds and the same broadcast outcomes. */
  lemma {:induction false} RunsAsAlone(s: System, alone: System, trace: seq<Action>, kind: JobKind, c: nat)
    requires Inv(s, c) && LegalTrace(trace, c) && Mirrors(alone, s, kind)
    ensures Mirrors(Run(alone, Only(trace, kind)), Run(s, trace), kind)
  {
    if trace != [] {
      var n := |trace| - 1;
      RunsAsAlone(s, alone, trace[..n], kind, c);
      InterleavingSafe(s, trace[..n], c);
      ActMirrors(Run(alone, Only(trace[..n], kind)), Run(s, trace[..n]), kind, trace[n], c);
      var own := Only(trace[..n], kind);
      assert (own + [trace[n]])[..|own|] == own;
    }
  }

  // ---- A round among others ----

  lemma {:induction false} OnlySteps(trace: seq<Action>, kind: JobKind)
    requires forall i :: 0 <= i < |trace| ==> trace[i].kind == kind ==> trace[i].Step?
    ensures forall i :: 0 <= i < |Only(trace, kind)| ==> Only(trace, kind)[i] == Step(kind)
  {
    if trace != [] { OnlySteps(trace[..|trace| - 1], kind); }
  }

  lemma {:induction false} StepsFinish(alone: System, kind: JobKind, trace: seq<Action>)
    requires forall i :: 0 <= i < |trace| ==> trace[i] == Step(kind)
    ensures var s := Run(alone, trace); Finish(JobOf(s, kind), s.db) == Finish(JobOf(alone, kind), alone.db)
  {
    if trace != [] {
      var n := |trace| - 1;
      StepsFinish(alone, kind, trace[..n]);
      var s := Run(alone, trace[..n]);
      MovesFinish(JobOf(s, kind), s.db, Advance(JobOf(s, kind), s.db).0, Advance(JobOf(s, kind), s.db).1);
    }
  }

  lemma {:induction false} FamilyRowsMember(events: seq<Event>, family: set<Rule>, i: nat) returns (j: nat)
    requires i < |FamilyRows(events, family)|
    ensures j < |events| && events[j].rule in family
    ensures OwnId(events, family, j + 1) == i + 1
    ensures FamilyRows(events, family)[i] == events[j].(id := i + 1)
    decreases |events|
  {
    var n := |events| - 1;
    var rest := FamilyRows(events[..n], family);
    assert events[..|events|] == events;
    if i < |rest| {
      j := FamilyRowsMember(events[..n], family, i);
      assert events[..n][..j + 1] == events[..j + 1];
    } else {
      j := n;
    }
  }

  lemma {:induction false} FamilyRowsOneOpen(events: seq<Event>, family: set<Rule>)
    requires OneOpen(events)
    ensures OneOpen(FamilyRows(events, family))
  {
    if events != [] {
      var n := |events| - 1;
      FamilyRowsOneOpen(events[..n], family);
      var rest := FamilyRows(events[..n], family);
      forall i | 0 <= i < |rest| && rest[i].status == Open && events[n].status == Open
        ensures EventKey(rest[i]) != EventKey(events[n])
      {
        var j := FamilyRowsMember(events[..n], family, i);
      }
    }
  }

  /** A round that began in a shared system and is over has changed its family's rows exactly as its
      meaning says, whatever the other jobs did meanwhile. */
  lemma RoundAmongOthers(s: System, kind: JobKind, r: Round, trace: seq<Action>, c: nat)
    requires Inv(s, c) && Legal(Begin(kind, r), c) && LegalTrace(trace, c)
    requires JobOf(s, kind).Idle?
    requires forall i :: 0 <= i < |trace| ==> trace[i].kind == kind ==> trace[i].Step?
    requires JobOf(Run(Act(s, Begin(kind, r)), trace), kind).Idle?
    ensures FamilyRows(Run(Act(s, Begin(kind, r)), trace).db.events, Family(kind))
         == Meaning(r, FamilyRows(s.db.events, Family(kind)))
  {
    var own := FamilyRows(s.db.events, Family(kind));
    var alone := System(Db(own, [], []), map[]);
    var begun, aloneBegun := Act(s, Begin(kind, r)), Act(alone, Begin(kind, r));
    assert Mirrors(alone, s, kind);
    ActMirrors(alone, s, kind, Begin(kind, r), c);
    ActKeeps(s, Begin(kind, r), c);
    RunsAsAlone(begun, aloneBegun, trace, kind, c);
    OnlySteps(trace, kind);
    StepsFinish(aloneBegun, kind, Only(trace, kind));
    FamilyRowsNumbered(s.db.events, Family(kind));
    FamilyRowsOneOpen(s.db.events, Family(kind));
    RoundMeaning(r, alone.db);
  }
}
