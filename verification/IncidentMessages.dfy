/** What people are told of a family of rules is what its job would have told them alone: the messages, one
    by one, and the rows of the digest. */
module IncidentMessages {
  import opened Basics
  import opened Ordering
  import opened Incidents
  import opened IncidentRound
  import opened IncidentJobs
  import opened IncidentIndependence

  // ---- What a family sees ----

  /** A message without the number of the event it is about. */
  function Unnumbered(b: Broadcast): Broadcast { if b.Recovery? then b.(id := 0) else b }

  function FamilyLog(log: seq<Broadcast>, family: set<Rule>): seq<Broadcast> {
    if log == [] then []
    else
      var b := log[|log| - 1];
      FamilyLog(log[..|log| - 1], family) + if b.key.0 in family then [Unnumbered(b)] else []
  }

  /** The digest rows of a family, without their numbers. */
  function FamilyDigest(digest: seq<DigestItem>, family: set<Rule>): seq<DigestItem> {
    if digest == [] then []
    else
      var x := digest[|digest| - 1];
      FamilyDigest(digest[..|digest| - 1], family) + if x.rule in family then [x.(id := 0)] else []
  }

  ghost predicate Alike(own: Db, db: Db, family: set<Rule>) {
    FamilyLog(own.log, family) == FamilyLog(db.log, family) && FamilyDigest(own.digest, family) == FamilyDigest(db.digest, family)
  }

  // ---- What a step sends and defers ----

  function Sends(job: SaneJob): Option<Broadcast> {
    match job
    case Idle => None
    case Running(r, open, _, _, pc) =>
      match pc
      case AwaitAlert(i) => Some(Alert(KeyOf(r.findings[i]), r.now, r.findings[i].point, r.out.alert(KeyOf(r.findings[i]))))
      case AwaitRecovery(j) => Some(Recovery(EventKey(open[j]), open[j].id, r.now, r.out.recovery(EventKey(open[j]))))
      case _ => None
  }

  function Defers(job: SaneJob, events: seq<Event>): Option<(Finding, DigestState)> {
    match job
    case Idle => None
    case Running(r, open, firing, admitted, pc) =>
      match pc
      case AtFinding(i) =>
        if i == |r.findings| then None
        else
          var f := r.findings[i];
          if KeyOf(f) in firing || HasKey(open, KeyOf(f)) || CooldownUntil(events, KeyOf(f)) > r.now
             || (r.cap.Some? && admitted >= r.cap.value) || Immediate(r, f) then None
          else Some((f, Observed))
      case AtOpen(j) =>
        if j == |open| || EventKey(open[j]) in firing || EventKey(open[j]) in r.hold || open[j].notified then None
        else Some((RecoveredFinding(open[j]), Recovered))
      case _ => None
  }

  lemma AdvanceParts(job: SaneJob, db: Db)
    ensures Advance(job, db).1.log == db.log + if Sends(job).Some? then [Sends(job).value] else []
    ensures Advance(job, db).1.digest ==
      if Defers(job, db.events).None? then db.digest
      else Enqueue(db.digest, Defers(job, db.events).value.0, job.round.now, Defers(job, db.events).value.1)
  {
    hide Enqueue, HasKey, CooldownUntil, NewRow, Immediate, ResolveById, RecoveredFinding;
    assert db.log + [] == db.log;
  }

  /** The job and its mirror send and defer the same, but for numbers. */
  lemma SameParts(job: SaneJob, kind: JobKind, db: Db, own: Db, c: nat)
    requires TablesOk(db, c) && JobOk(job, kind, db.events, c) && own.events == FamilyRows(db.events, Family(kind))
    ensures var mirror := OwnJob(db.events, Family(kind), job);
            && Defers(mirror, own.events) == Defers(job, db.events)
            && (Sends(mirror).Some? <==> Sends(job).Some?)
            && (Sends(job).Some? ==> Unnumbered(Sends(mirror).value) == Unnumbered(Sends(job).value))
            && (mirror.Running? <==> job.Running?) && (job.Running? ==> mirror.round.now == job.round.now)
  {
    if job.Running? {
      hide FamilyRows, OwnId, TablesOk;
      var open := OwnRows(db.events, Family(kind), job.open);
      assert forall k :: 0 <= k < |job.open| ==> open[k] == OwnRow(db.events, Family(kind), job.open[k]);
      if job.pc.AtFinding? && job.pc.i < |job.round.findings| {
        var key := KeyOf(job.round.findings[job.pc.i]);
        HasKeyOwn(db.events, Family(kind), job.open, key);
        assert key.0 in Family(kind);
        MaxCooldownOwn(db.events, Family(kind), key);
      }
      hide HasKey, CooldownUntil, Immediate, Family, OwnRows, Firing;
    }
  }

  /** It all belongs to the family of the job. */
  lemma PartsInFamily(job: SaneJob, kind: JobKind, events: seq<Event>, c: nat)
    requires JobOk(job, kind, events, c)
    ensures Sends(job).Some? ==> Sends(job).value.key.0 in Family(kind)
    ensures Defers(job, events).Some? ==> Defers(job, events).value.0.rule in Family(kind)
  {
    hide HasKey, CooldownUntil, Immediate, Family, Firing;
  }

  // ---- The digest of a family ----

  lemma {:induction false} DigestUpdate(digest: seq<DigestItem>, family: set<Rule>, i: nat, x: DigestItem)
    requires i < |digest| && digest[i].rule in family && x.rule == digest[i].rule
    ensures var own, k := FamilyDigest(digest, family), |FamilyDigest(digest[..i], family)|;
            k < |own| && own[k] == digest[i].(id := 0) && FamilyDigest(digest[i := x], family) == own[k := x.(id := 0)]
  {
    var n := |digest| - 1;
    var rest := FamilyDigest(digest[..n], family);
    if i < n {
      assert digest[..n][..i] == digest[..i] && digest[i := x][..n] == digest[..n][i := x];
      DigestUpdate(digest[..n], family, i, x);
    } else {
      assert digest[i := x][..n] == digest[..n];
      assert (rest + [digest[n].(id := 0)])[|rest| := x.(id := 0)] == rest + [x.(id := 0)];
    }
  }

  lemma {:induction false} UnsentOwn(digest: seq<DigestItem>, family: set<Rule>, key: Key)
    requires key.0 in family
    ensures var i := UnsentIndex(digest, key);
            UnsentIndex(FamilyDigest(digest, family), key) == if i < 0 then -1 else |FamilyDigest(digest[..i], family)|
  {
    if digest != [] {
      var n := |digest| - 1;
      var rest := FamilyDigest(digest[..n], family);
      UnsentOwn(digest[..n], family, key);
      var i := UnsentIndex(digest, key);
      assert (rest + [digest[n].(id := 0)])[..|rest|] == rest && rest + [] == rest;
      if 0 <= i < n { assert digest[..n][..i] == digest[..i]; }
    }
  }

  /** What is enqueued, seen by the family. */
  function EnqueueOwn(own: seq<DigestItem>, f: Finding, now: int, state: DigestState): seq<DigestItem> {
    var i := UnsentIndex(own, KeyOf(f));
    if i >= 0 then Enqueue(own, f, now, state)
    else own + [DigestItem(0, now, now, f.rule, f.subject, f.severity, state, f.detail, f.payload, 1, None)]
  }

  lemma DigestEnqueue(digest: seq<DigestItem>, family: set<Rule>, f: Finding, now: int, state: DigestState)
    ensures FamilyDigest(Enqueue(digest, f, now, state), family) ==
      if f.rule in family then EnqueueOwn(FamilyDigest(digest, family), f, now, state) else FamilyDigest(digest, family)
  {
    var i := UnsentIndex(digest, KeyOf(f));
    var digest' := Enqueue(digest, f, now, state);
    if f.rule in family {
      UnsentOwn(digest, family, KeyOf(f));
      if i >= 0 { DigestUpdate(digest, family, i, digest'[i]); } else { assert digest'[..|digest|] == digest; }
    } else {
      if i >= 0 { DigestOther(digest, family, i, digest'[i]); } else { assert digest'[..|digest|] == digest; }
    }
  }

  lemma {:induction false} DigestOther(digest: seq<DigestItem>, family: set<Rule>, i: nat, x: DigestItem)
    requires i < |digest| && digest[i].rule !in family && x.rule == digest[i].rule
    ensures FamilyDigest(digest[i := x], family) == FamilyDigest(digest, family)
  {
    var n := |digest| - 1;
    if i < n {
      assert digest[i := x][..n] == digest[..n][i := x];
      DigestOther(digest[..n], family, i, x);
    } else {
      assert digest[i := x][..n] == digest[..n];
    }
  }

  lemma LogAppend(log: seq<Broadcast>, family: set<Rule>, b: Broadcast)
    ensures FamilyLog(log + [b], family) == FamilyLog(log, family) + if b.key.0 in family then [Unnumbered(b)] else []
  {
    assert (log + [b])[..|log|] == log;
  }

  // ---- One step ----

  /** What a step adds, as a family sees it. */
  lemma PartAlike(job: SaneJob, db: Db, family: set<Rule>)
    ensures var db', sent, deferred := Advance(job, db).1, Sends(job), Defers(job, db.events);
            && FamilyLog(db'.log, family) ==
                 FamilyLog(db.log, family) + (if sent.Some? && sent.value.key.0 in family then [Unnumbered(sent.value)] else [])
            && (deferred.Some? ==> job.Running?)
            && FamilyDigest(db'.digest, family) ==
                 if deferred.Some? && deferred.value.0.rule in family then
                   EnqueueOwn(FamilyDigest(db.digest, family), deferred.value.0, job.round.now, deferred.value.1)
                 else FamilyDigest(db.digest, family)
  {
    AdvanceParts(job, db);
    var sent, deferred := Sends(job), Defers(job, db.events);
    assert deferred.Some? ==> job.Running?;
    hide Advance, Sends, Defers, EnqueueOwn, Enqueue;
    assert db.log + [] == db.log;
    if sent.Some? { LogAppend(db.log, family, sent.value); }
    if deferred.Some? { DigestEnqueue(db.digest, family, deferred.value.0, job.round.now, deferred.value.1); }
  }

  lemma OwnStepAlike(alone: System, s: System, kind: JobKind, c: nat)
    requires Inv(s, c) && Mirrors(alone, s, kind) && Alike(alone.db, s.db, Family(kind))
    ensures Alike(Act(alone, Step(kind)).db, Act(s, Step(kind)).db, Family(kind))
  {
    var job, mirror, family := JobOf(s, kind), JobOf(alone, kind), Family(kind);
    assert JobOk(job, kind, s.db.events, c);
    SameParts(job, kind, s.db, alone.db, c);
    PartsInFamily(job, kind, s.db.events, c);
    hide Inv, TablesOk, JobOk, Advance, Sends, Defers, EnqueueOwn, FamilyRows, OwnJob, FamilyLog, FamilyDigest, Family, Unnumbered;
    PartAlike(job, s.db, family);
    PartAlike(mirror, alone.db, family);
  }

  lemma OtherStepAlike(alone: Db, s: System, kind: JobKind, mover: JobKind, c: nat)
    requires Inv(s, c) && Alike(alone, s.db, Family(kind)) && mover != kind
    ensures Alike(alone, Act(s, Step(mover)).db, Family(kind))
  {
    var job, family := JobOf(s, mover), Family(kind);
    assert JobOk(job, mover, s.db.events, c);
    PartsInFamily(job, mover, s.db.events, c);
    FamiliesDisjoint(kind, mover);
    hide Inv, TablesOk, JobOk, Advance, Sends, Defers, EnqueueOwn, FamilyLog, FamilyDigest, Family, Unnumbered;
    PartAlike(job, s.db, family);
    assert FamilyLog(s.db.log, family) + [] == FamilyLog(s.db.log, family);
  }

  /** In any interleaving, what people are told of a job's family is, up to the numbers of events and rows,
      what the job running alone with the same rounds and the same broadcast outcomes tells them: the same
      messages in the same order, and the same digest rows. */
  lemma {:induction false} TellsAsAlone(s: System, alone: System, trace: seq<Action>, kind: JobKind, c: nat)
    requires Inv(s, c) && LegalTrace(trace, c) && Mirrors(alone, s, kind) && Alike(alone.db, s.db, Family(kind))
    ensures Alike(Run(alone, Only(trace, kind)).db, Run(s, trace).db, Family(kind))
  {
    hide Inv, Mirrors, Alike, Act;
    if trace != [] {
      var n := |trace| - 1;
      var own := Only(trace[..n], kind);
      TellsAsAlone(s, alone, trace[..n], kind, c);
      RunsAsAlone(s, alone, trace[..n], kind, c);
      InterleavingSafe(s, trace[..n], c);
      ActAlike(Run(alone, own), Run(s, trace[..n]), kind, trace[n], c);
      assert (own + [trace[n]])[..|own|] == own;
    }
  }

  lemma ActAlike(alone: System, s: System, kind: JobKind, a: Action, c: nat)
    requires Inv(s, c) && Mirrors(alone, s, kind) && Alike(alone.db, s.db, Family(kind))
    ensures Alike((if a.kind == kind then Act(alone, a) else alone).db, Act(s, a).db, Family(kind))
  {
    hide Inv, Mirrors, Alike;
    if a.Step? {
      if a.kind == kind { OwnStepAlike(alone, s, kind, c); } else { OtherStepAlike(alone.db, s, kind, a.kind, c); }
    }
  }
}
