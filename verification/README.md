# Sentinel: a verified model of its state machines

Sentinel watches services, containers and status pages and tells people what changed. Everything it
promises about messages rests on a few state machines over small tables: events that open, are
deferred, recover or are held back; hook notifications that wait out a grace period and can be
cancelled; reset announcements that several instances share under a lease; snapshots that are stored
only together with the card that announces them. This project models those machines in Dafny and
proves what they keep over every run.

How the source is rendered:

- A table is a sequence of rows or a map by its primary key. Times are integers. How many channels a
  broadcast reaches is given by the environment, for every broadcast separately.
- Code that updates state step by step is a class or a method with loops, proved equal to a
  specification function on values (`Advance`, `Act`, `Pass`, `Detect`, ...); the theorems are about
  runs of that function. Where the source awaits, the specification is cut into steps, so that other
  jobs, ingests or instances can be interleaved at exactly those points.
- A run is a sequence of actions. A theorem about runs holds for every sequence of actions, every
  outcome of every broadcast, and every state the invariant allows to start from.
- What an operation must tell, and to whom, is stated a second time over its inputs and the tables before
  and after it, by cases and counts and without the functions that compute it: `IncidentNews`, `HookStops`,
  `HookTells`, `ResetQueue`, `PollerTells`, `DiffTells`, `ProbeTells`.
- Text patterns are parameters. Latencies are real numbers.

Files, by component:

- Incident engine: `Incidents`, `IncidentSnapshot`, `IncidentNews`, `IncidentRound`, `IncidentJobs`,
  `IncidentIndependence`, `IncidentMessages`; its callers `Patrol`, `ProbeRules`, `ProbeTells`,
  `DockerScan`; the digest table `DigestQueue`.
- Codex hook notifier: `CodexHooks`, `HookSafety`, `HookStops`, `HookTells`, `HookCancel`, `HookLoss`,
  `HookProgress`, `HookIds`.
- Codex reset monitor: `ResetStore`, `ResetMonitor`, `ResetSafety`, `ResetQueue`, `ResetResults`,
  `ResetOverlap`, `ResetStages`, `ResetRetry`, `BankedBalance`, `Confirmation`.
- Crash-loop detector: `CrashLoop`. Digest grouping: `DigestSummary`, `DigestResults`. Status pages:
  `Differ`, `DiffTells`, `Poller`, `PollerTells`. Redaction: `Redact`. Log stream: `Demux`.
- Shared: `Basics` (optional values, powers of two), `Ordering` (stable sorting, counting), `Runs`
  (folding over concatenated runs).

## Model

| member | source | states |
|---|---|---|
| IncidentRound.ApplyFindings | src/sentinel/engine.py:15-108 | the two loops, run alone, leave exactly the tables of the declarative meaning of a round: which rows open, resolve or stay, what is deferred to the digest, which messages are sent and in what order; and these tables tell what `IncidentNews.RoundTells` says |
| IncidentRound.RaiseAlerts | src/sentinel/engine.py:45-86 | the loop over the findings, with its send before its commit, goes through the same states as the steps that other jobs can interleave with |
| IncidentRound.SendRecoveries | src/sentinel/engine.py:95-108 | likewise the loop over the events that were open |
| IncidentRound.RoundMeaning | src/sentinel/engine.py:15-108 | the meaning of a round in all three tables: a finding opens an event exactly if it is the first with its key, nothing is open, the cooldown is over, the cap is not reached, and its alert was delivered or deferred; an event recovers exactly if it is in scope, not firing, not held, and its recovery was delivered or nobody had been alerted; and what `IncidentNews.RoundTells` says of them |
| IncidentNews.RoundTells | src/sentinel/engine.py:40-108 | said of the tables before and after: with deferral off every piece of news is alerted; with it on exactly those of the eleven outage rules, restarts of the host or by OOM, and critical memory pressure, and all others have an unsent digest row instead; a new row is marked announced exactly if it was alerted and somebody heard it, cools down from now, and waits for a diagnosis exactly if it was announced and asks for one; exactly the open, evaluated events that neither fire nor are held recover, with a message exactly if they had been announced and else with a digest row; nothing else is said and no other row changes |
| IncidentNews.ImmediateMeans | src/sentinel/notification_policy.py:6-29 | told at once are, with deferral, exactly the outages, spelled out rule by rule, and without it everything |
| IncidentRound.OpenKeysAfterRound | src/sentinel/engine.py:40-108 | the keys open after a round are those open before that are out of scope, firing, held or with an undelivered recovery, plus the keys of the findings that open a state event |
| IncidentRound.OneMessagePerKey | src/sentinel/engine.py:45-108 | a round sends at most one message about a (rule, subject), alert or recovery |
| IncidentSnapshot.OpenByKeyMember | src/sentinel/engine.py:40 | as long as no key is open twice, the dict of open events loses none of them |
| IncidentSnapshot.OpenByKeyInOrder | src/sentinel/store.py:362-366 | and they come in order of time, so recoveries are sent oldest first |
| IncidentRound.Store.InsertEvent | src/sentinel/store.py:325-360 | a new row gets the next id and is appended; no other row changes |
| IncidentRound.Store.ResolveEvent | src/sentinel/store.py:375-380 | the row with that id becomes resolved and gets the time; every other row is as before |
| IncidentJobs.FamiliesDisjoint | src/sentinel/findings.py:31-43 | the rule families of the jobs are pairwise disjoint |
| IncidentJobs.InterleavingSafe | src/sentinel/engine.py:15-108 | however the jobs interleave at their awaits: at most one open event per (rule, subject), later events of a key start no earlier than the cooldown of the earlier ones, and no row claims a message that was not delivered: its alert, and its recovery unless it was the alert of a point event |
| IncidentJobs.EmptyStoreSafe | src/sentinel/engine.py:15-38 | the same from the empty store, with no condition on the start |
| IncidentJobs.CooldownBound | src/sentinel/engine.py:52-79 | an interval of length L holds at most L / cooldown + 1 events of a key over any run, with no assumption that the clocks of the rounds are monotone |
| IncidentJobs.StepKeepsOther | src/sentinel/engine.py:37-38 | a step of one job never breaks what another job relies on across its await |
| IncidentJobs.ActResolves | src/sentinel/engine.py:95-108 | whatever step resolves an open event is a step of the job that owns its rule, in a round in which the event recovers |
| IncidentJobs.RecoveryHasItsJob | src/sentinel/engine.py:15-108 | over every run: an event that is open at some point and resolved later was resolved by such a step, after that point |
| IncidentJobs.RecoveryHasItsRound | src/sentinel/engine.py:15-108 | over every run from idle jobs: that step belongs to the round its job is at; the job was idle when it began that round and has been at it ever since; the event was open at the beginning, its rule in scope, not firing and not held |
| IncidentJobs.UnevaluatedStays | src/sentinel/engine.py:15-38 | over every run: an event whose rule is in no round's scope, because its scan keeps failing, does not change at all |
| IncidentIndependence.RunsAsAlone | src/sentinel/engine.py:37-38 | in any interleaving the rows of a job's rule family are, up to ids, those of that job running alone on its own table with the same rounds and the same broadcast outcomes |
| IncidentMessages.TellsAsAlone | src/sentinel/engine.py:45-108 | and what people are told of the family is the same too: the same messages in the same order, and the same digest rows, up to numbers |
| IncidentIndependence.RoundAmongOthers | src/sentinel/engine.py:15-108 | so a round that shares the tables with any other jobs still has the declarative meaning on its own family |
| IncidentIndependence.FamilyRowsResolve | src/sentinel/store.py:375-380 | resolving a row of the shared table is resolving its counterpart in the family's own table |
| IncidentIndependence.OpenByKeyOwn | src/sentinel/engine.py:40 | the snapshot of open events a round takes is the same, up to ids, on the family's own table |
| Patrol.Ticks.MetricsTick | src/sentinel/app.py:319-356 | the counter of failed scans, and which rules the round may judge: the metrics rules only if the scan returned, the scan-failure rule only if its own state is certain |
| Patrol.Ticks.LogsTick | src/sentinel/app.py:358-388 | likewise for the log scan |
| Patrol.Ticks.DockerGate | src/sentinel/app.py:418-429 | the docker tick takes over restarts exactly while the metrics scan does not cover them, by the shared counter of failed metrics scans at its beginning |
| Patrol.Ticks.DockerTick | src/sentinel/app.py:409-462 | likewise for the docker scan, with a hold for every open container event whose container was not judged |
| Patrol.MetricsPlanLegal | src/sentinel/app.py:319-356 | what the tick hands over is a legal round: all findings in scope, the scope within the job's family |
| Patrol.LogsPlanLegal | src/sentinel/app.py:358-388 | likewise for the log tick |
| Patrol.DockerPlanLegal | src/sentinel/app.py:409-462 | likewise for the docker tick |
| Patrol.RecoveredAmongOthers | src/sentinel/engine.py:15-108 | in every interleaving, across a round of a job a row of its family is resolved exactly if it was open, in scope, not firing, not held, and its recovery was delivered or nobody had been alerted; no other row of the family changes |
| Patrol.MetricsNoFalseRecovery | src/sentinel/app.py:319-356 | a round of this tick resolves a metrics event only if this round's scan returned and did not find it; a middleware event only while middleware is configured; a scan-failure event only below the threshold |
| Patrol.MetricsRunNoFalseRecovery | src/sentinel/app.py:319-356 | over every run of all jobs: if a metrics event recovers, the scan of the very round that resolves it returned and did not find it, and the event was open when that round began |
| Patrol.LogsRunNoFalseRecovery | src/sentinel/app.py:358-388 | likewise for log events |
| Patrol.DockerRunNoFalseRecovery | src/sentinel/app.py:409-462 | likewise for container events; a stopped or unhealthy container was judged in that very scan |
| Patrol.LogsNoFalseRecovery | src/sentinel/app.py:358-388 | likewise for log events |
| Patrol.DockerNoFalseRecovery | src/sentinel/app.py:409-462 | a container event recovers only if this round's scan returned, judged that container and found nothing |
| ProbeRules.GroupByService | src/sentinel/probe_rules.py:30-32 | the samples of each service, in order |
| ProbeRules.EvaluateProbeRules | src/sentinel/probe_rules.py:34-95 | per key and in both directions: a service is down exactly if its last samples all failed, slow exactly if it is up, measured often enough and its 95th percentile exceeds the threshold; each rule is held exactly when the samples do not show that it recovered; it raises exactly if the streak is 0 and a service has no sample; in terms of the window itself, see `ProbeTells.JudgedTells` |
| ProbeTells.JudgedTells | src/sentinel/probe_rules.py:34-95 | said of the samples of the window and their numbers: a configured service is reported down, as critical, exactly if from some point on it has as many samples as the streak and all of them failed; slow, as a warning, exactly if not down, measured at least the minimum of times, with a baseline, and fewer than 95 of a hundred latencies are within either the mean of the daily values times the ratio or that mean plus the margin; a service is held as possibly down exactly if it is not down and its last sample, if any, failed, and as possibly slow exactly if it is down or measured too rarely |
| ProbeTells.WindowMeans | src/sentinel/store.py:237-245 | the window holds exactly the samples from its beginning on, in order of time |
| ProbeRules.ServiceNoFalseRecovery | src/sentinel/app.py:301-317 | a configured service recovers only if its latest sample of the past hour is ok |
| ProbeRules.ServiceRunNoFalseRecovery | src/sentinel/app.py:301-317 | over every run of all jobs: if a configured service recovers, its latest sample of the hour before the very round that resolves it was ok |
| ProbeRules.LatencyNoFalseRecovery | src/sentinel/probe_rules.py:34-95 | a latency event of a configured service recovers only if the service is up by its streak, measured often enough, and has no baseline yet or a percentile that does not exceed the threshold |
| ProbeRules.P95Means | src/sentinel/report.py:20-26 | the percentile is one of the values, at least 95 % of the values are no greater, and fewer than 95 % are less |
| ProbeRules.ProbePlanLegal | src/sentinel/app.py:301-317 | what the probe tick hands over is a legal round |
| DockerScan.RunDockerScan | src/sentinel/scan_docker.py:30-167 | the active set is exactly the containers some entry of which was judged, the restart count of each container is that of its last judged entry that has one, the findings are exactly what those entries call for, and the scan is given up exactly if at least two candidates were listed and none could be inspected |
| DockerScan.ReportTells | src/sentinel/scan_docker.py:65-160 | said of the fields of the inspections: exactly the watched containers are active; down, as critical, are exactly those exited or dead that are not restarting and did not succeed under an on-failure policy; unhealthy, as a warning, exactly those with that health; killed for memory, as a critical point event, exactly those whose end lies within the window, unless the metrics scan covers them; nothing else is reported |
| DockerScan.ContainerNoFalseRecovery | src/sentinel/scan_docker.py:30-167 | end to end: a container that recovers was judged in this round and none of its entries was stopped or unhealthy |
| DigestQueue.QueueSafe | src/sentinel/store.py:454-533 | over every run of observations and of both senders: at most one unsent row per key, occurrences add up to the observations, and a row is marked sent only if a delivered message told it |
| DigestQueue.MergeRows | src/sentinel/store.py:454-501 | an observation counts once: it goes into the unsent row of its key, or into a new row exactly if there is none; that row then shows its time, state, severity, detail and payload, keeps its first time, and no other row changes |
| DigestQueue.RowSums | src/sentinel/store.py:454-501 | over every run from the empty table, every row tells of exactly the observations that went into it, all of its own rule and subject: their number, the time of the first, and the time, state, severity, detail and payload of the last |
| DigestQueue.NothingForgotten | src/sentinel/report.py:67-142 | every observation since the empty table is in exactly one row; a row is marked only if it was told, under its own rule and subject; and no message told more of a row than it holds |
| DigestQueue.ReadNextIff | src/sentinel/store.py:514-522 | the next sender reads a row if and only if it is unsent and fewer than 200 unsent rows stand before it: critical ones if it is not, and of equal severity the more recent, or as recent and older in the table |
| DigestQueue.SendsIff | src/sentinel/report.py:67-142 | a sender that reads sends exactly what it read; only the evening digest does not send when nothing is unsent |
| DigestQueue.ToldIffUndisturbed | src/sentinel/report.py:114-142 | over every run of observations and of the other sender during a send: a row that was read says, once marked, what this message told exactly if no observation went into it meanwhile; otherwise it covers exactly that many more than this message told |
| DigestQueue.LastWordToldIff | src/sentinel/report.py:67-142 | over every run from the empty table: all observations in a row were told if and only if some sender read it after the last of them and its send was delivered |
| DigestQueue.MarkedIsFinal | src/sentinel/store.py:454-533 | a marked row takes no further observation and is never read again, so only a send that is already under way can still tell the rest of it |
| DigestQueue.DigestTable.EnqueueDigest | src/sentinel/store.py:454-501 | the method writes the specified table and returns the row of that key |
| DigestQueue.DigestTable.MarkDigestItemsSent | src/sentinel/store.py:524-532 | row by row: exactly the named rows get the time, nothing else changes |
| CodexHooks.CodexHookNotificationManager.IngestEvent | src/sentinel/codex_hooks.py:192-257 | ingesting an event is the specified step on pending, in-flight, turns and seen ids |
| HookStops.TurnNotifiesIff | src/sentinel/codex_hooks.py:192-257 | over every run: after a prompt of a named turn at t0, whatever comes that does not end that turn, its new stop at t1 queues a candidate if and only if it is not continued, its words are no rejection, and they ask for input, report a failure, or t1 - t0 reaches the limit for long turns; its category is the first of these that holds, its task that of the prompt, and it is due after the grace period; otherwise nothing is queued |
| HookStops.UnknownTurnIsNotLong | src/sentinel/codex_hooks.py:97-106 | the stop of a turn that is not known never queues a long turn |
| HookStops.OthersQueue | src/sentinel/codex_hooks.py:198-231 | of the other events a request for permission always queues one candidate, with its own task or that of its turn, and no other ever queues any |
| HookStops.KnownTurns | src/sentinel/codex_hooks.py:198-240 | which turns are known after a new event, with their times and tasks: a prompt begins its turn, a stop that is not continued ends its own, the end of a session ends all of its turns, and no other turn comes, goes or changes |
| HookTells.EventSilencesIff | src/sentinel/codex_hooks.py:148-242 | a new event takes away exactly the candidates it silences, waiting or in flight: a prompt or the end of a session all of the session, a used tool or the stop of a named turn the requests for approval of its turn; a tool without a turn those of the session |
| HookTells.SeenOrForgotten | src/sentinel/codex_hooks.py:139-146 | a known event changes nothing; any other is known from then on, and a known id is forgotten exactly if there are 2000 already and it was last seen over a day ago |
| CodexHooks.CodexHookNotificationManager.CancelMatching | src/sentinel/codex_hooks.py:148-167 | removes exactly the matching candidates, pending or in flight, and returns their number |
| CodexHooks.CodexHookNotificationManager.QueueCandidate | src/sentinel/codex_hooks.py:169-190 | a candidate becomes due after the grace period and takes the place of one with the same id |
| CodexHooks.CodexHookNotificationManager.DispatchDue | src/sentinel/codex_hooks.py:268-317 | the dispatch loop, with any events and any prunings of receipts coming during any of its awaits, equals the specified loop, and it returns the number of deliveries it made |
| HookTells.DispatchBegins | src/sentinel/codex_hooks.py:268-280 | a dispatch takes exactly the waiting candidates whose time has come, in order of time and then of id, and only if there are any forgets exactly the receipts older than the days of retention |
| CodexHooks.CodexHookNotificationManager.StartSend | src/sentinel/codex_hooks.py:281-291 | a due candidate starts a send exactly if it is still pending and has no receipt |
| HookTells.SendStartsIff | src/sentinel/codex_hooks.py:281-291 | of the candidates before and after: the next due one starts its send if and only if one with its id still waits and there is no receipt of its id and category; what waited under its id is taken off, and nothing else |
| CodexHooks.CodexHookNotificationManager.Settle | src/sentinel/codex_hooks.py:300-317 | a delivered candidate gets its receipt, a failed one is retried unless it was cancelled meanwhile or had its three attempts |
| HookTells.RetriedIff | src/sentinel/codex_hooks.py:300-317 | when the send returns the candidate waits again, with one more attempt, if and only if no channel was reached, it had fewer than two sends before, and it was not cancelled meanwhile; due 10, the second time 20 seconds after the dispatch began; nothing else comes or goes |
| HookTells.ReceiptsRecorded | src/sentinel/codex_hooks.py:300-311 | a delivered candidate leaves the receipt of its id and category, dated by the beginning of the dispatch unless it is there already; a failed one leaves none |
| CodexHooks.CodexHookNotificationManager.PruneNotificationReceipts | src/sentinel/api.py:168-169 | another source prunes the receipts of all |
| HookProgress.DispatchIsRun | src/sentinel/codex_hooks.py:268-317 | every dispatch, with whatever events and prunings come during its awaits, is a run of the interleaving machine during which exactly these come, in order |
| HookProgress.WholeDispatchIsRun | src/sentinel/codex_hooks.py:268-317 | likewise from the selection of the due candidates on |
| HookSafety.EveryInterleaving | src/sentinel/codex_hooks.py:148-317 | over every run from the start, whatever ids arrive again: a candidate is sent at most three times and delivered at most once, no send of it follows its delivery, none starts before its grace period is over; and the retry after the first and second failure is due exactly 10 and 20 seconds after the dispatch that sent it began, and not sent sooner |
| HookCancel.PromptSilencesSession | src/sentinel/codex_hooks.py:198-222 | from any reachable state: after a prompt or the end of a session is ingested, no candidate queued earlier for that session ever starts a send or is queued for a retry, in any continuation without harmful reuse of an id |
| HookCancel.CancellationHoldsIff | src/sentinel/codex_hooks.py:139-317 | which reuse is harmful, exactly: after an event is ingested no harmless continuation sends or retries a cancelled candidate if and only if the event does not take the id of a candidate that the running dispatch has still to look at and that is cancelled, or could be cancelled by something that leaves the new one; a receipt does not help, as the endpoint of another source can prune it meanwhile |
| HookCancel.HarmfulReuseRevives | src/sentinel/codex_hooks.py:139-317 | after any harmful reuse, from any state the invariant allows, there is a continuation, itself harmless, that sends a cancelled candidate |
| HookCancel.RunSound | src/sentinel/codex_hooks.py:148-317 | over every run without harmful reuse, a cancelled candidate never starts a send and is never retried |
| HookCancel.TiedIff | src/sentinel/codex_hooks.py:148-222 | what ties two candidates: they agree in session, and in turn and category where that matters, exactly if every cancellation the source makes that hits the first hits the second |
| HookLoss.NothingLost | src/sentinel/codex_hooks.py:148-317 | over every run in which no event that queues takes the id of a candidate that matters: every candidate is waiting, being sent, delivered, skipped by a receipt, cancelled, or has had its three sends |
| HookLoss.NothingLostIff | src/sentinel/codex_hooks.py:139-317 | which candidates matter, exactly: after an event is ingested no continuation without such a reuse loses a candidate if and only if the event queues nothing, or its id is not that of a waiting candidate that it does not itself cancel, nor of one the running dispatch has still to look at, nor of the one being sent while that can still be retried |
| HookLoss.ReuseLoses | src/sentinel/codex_hooks.py:169-190 | after any such reuse, from any state the invariant allows, there is a continuation, itself without one, at the end of which a candidate is nowhere |
| HookIds.UniqueIdsAreFresh | src/sentinel/codex_hooks.py:139-146 | if no event id arrives twice, every run meets the conditions of cancellation and of accounting, however much the memory of seen ids forgets |
| HookIds.DispatchesSafely | src/sentinel/codex_hooks.py:259-317 | so with distinct event ids the dispatch method, with whatever comes during its awaits, keeps the limits, sends no cancelled candidate and loses none |
| HookIds.ForgottenIdWakesTheDead | src/sentinel/codex_hooks.py:139-146 | it can come to a harmful reuse from the start: a send of over a day, 1999 events of another session, then the forgotten id again; and a cancelled candidate is sent |
| HookIds.ForgottenIdLosesOne | src/sentinel/codex_hooks.py:139-146 | and by the same reuse a candidate is lost |
| HookProgress.EveryDispatchDrains | src/sentinel/codex_hooks.py:268-317 | with nothing from outside, a dispatch past all due times uses up at least one send of every waiting candidate, whatever the outcomes, from any reachable state |
| HookProgress.ThreeDispatchesDrain | src/sentinel/codex_hooks.py:268-317 | three dispatches, each past all due times and with nothing from outside, leave nothing waiting, whatever the outcomes |
| ResetStore.Store.AcquireLease | src/sentinel/codex_reset/store.py:196-210 | the lease is taken exactly if it is free, over or already held by this owner |
| ResetStore.Store.ReleaseLease | src/sentinel/codex_reset/store.py:212-216 | only the holder releases it |
| ResetStore.Store.Gather | src/sentinel/codex_reset/store.py:443-477 | looked up by source and item, this piece of evidence is the one found; every other key finds what it found before; no key is there twice |
| ResetStore.Store.Enqueue | src/sentinel/codex_reset/store.py:725-732 | a stage of an event is queued at most once |
| ResetStore.Store.Advance | src/sentinel/codex_reset/engine.py:334-346 | judging an event classifies its evidence, merges the event and queues the stage if it rose and is recent: `ResetQueue` says, of the tables before and after, which stage, which times and which queue |
| ResetStore.Store.Delay | src/sentinel/codex_reset/store.py:708-723 | an overdue announcement is marked delayed and the stage queued if it is recent: exactly when, see `ResetQueue.DelayedQueuesIff` |
| ResetQueue.VerdictMeans | src/sentinel/codex_reset/engine.py:348-378 | what evidence calls for, by its fields: confirmed exactly if a balance of banked resets rose on an account, or confirmations have a basis and no banked reset is announced; announced exactly if an official announcement is complete and neither holds; a hint exactly if there is an official one and nothing else; never delayed |
| ResetQueue.JudgedRises | src/sentinel/codex_reset/store.py:632-700 | judging with nothing between read and write lifts the stage to that verdict if it is higher; the announced time is kept or that of the newest announcement, the confirmed time is kept or, once confirmed, that of the newest confirmation |
| ResetQueue.JudgedDetails | src/sentinel/codex_reset/store.py:632-700 | the kind of reset is that of the newest evidence that tells one, or else stays; the expected times stay once known and until then are those of the newest announcement |
| ResetQueue.JudgedQueuesIff | src/sentinel/codex_reset/engine.py:334-346 | if the stage rises, it has a delivery afterwards if and only if it had one before or its own time lies within the maximum age before now: the time of the confirmation for a confirmation, else that of the announcement, and if there is none that of the newest evidence, whatever the age of the other; if it does not rise, no delivery changes |
| ResetQueue.JudgesAsSaid | src/sentinel/codex_reset/store.py:640-700 | on the machine, the read and the write of a judgement with nothing in between do just that |
| ResetQueue.DelayedQueuesIff | src/sentinel/codex_reset/store.py:708-723 | an event is marked delayed if and only if it is announced, not banked, and its expected end is longer ago than the grace; then it has a delayed delivery if and only if it had one or its expected end, or if that is the time 0 its announcement, is recent; nothing else changes |
| ResetQueue.DueLoadedIff | src/sentinel/codex_reset/store.py:734-755 | a tick loads a delivery if and only if it is waiting, its time has come, and fewer than twenty due ones come before it, by time, then by stage from hint to confirmed, then by place in the table; and it sends them in that order |
| ResetQueue.DelayDoubles | src/sentinel/codex_reset/engine.py:402-417 | the retry delay begins with the base and doubles with every failure up to its limit |
| ResetStore.Store.DispatchDue | src/sentinel/codex_reset/engine.py:386-417 | each due delivery is sent once and booked with the attempts that were read |
| ResetRetry.DispatchedIsRun | src/sentinel/codex_reset/engine.py:386-417 | that loop is a run of the interleaving machine: load, one send and one result for each due delivery, end |
| ResetMonitor.LeasesNeverOverlap | src/sentinel/codex_reset/store.py:196-216 | with a shared clock that does not run backwards, leases of different owners do not overlap unless released by their holder, over every run of any number of instances, late ticks included |
| ResetSafety.EveryRun | src/sentinel/codex_reset/engine.py:65-145 | over every run in which the lease never passes on while its holder is busy, however long its ticks: one busy instance at a time, what a judge has read is still there when it writes, every delivery row agrees with the history of its message, stages and queued stages rise, attempts follow their queueing and their retry delay |
| ResetResults.OneBusyAtATime | src/sentinel/codex_reset/engine.py:65-74 | over every such run at most one instance is collecting or has messages to send, and the lease is its own |
| ResetResults.InTimeIsUndisturbed | src/sentinel/codex_reset/engine.py:65-74 | it is such a run if no instance is busy when the lease of its tick is over |
| ResetOverlap.TakeoverSafeIff | src/sentinel/codex_reset/engine.py:65-145 | the condition is exact: when an instance takes the lease, no continuation without a further takeover sends a message twice if and only if no other instance is busy or the lease was its own |
| ResetOverlap.TakeoverSendsTwice | src/sentinel/codex_reset/engine.py:65-145 | whatever the state, if the lease passes on while its holder is busy, some continuation sends a message twice |
| ResetOverlap.LateTickSendsTwice | src/sentinel/codex_reset/engine.py:65-74 | it can come to that from the empty store, with a clock that never runs backwards |
| ResetSafety.AdvanceAdvances | src/sentinel/codex_reset/store.py:632-700 | judging an event that is still as it was read touches no other event, lowers no stage, changes no time that is set, and queues at most its new stage, only if it rose |
| ResetSafety.DelayAdvances | src/sentinel/codex_reset/store.py:708-723 | likewise for marking it delayed |
| ResetResults.SentAtMostOnce | src/sentinel/codex_reset/store.py:734-787 | each stage of each event is broadcast successfully at most once and attempted at most the configured number of times |
| ResetResults.RetriesWait | src/sentinel/codex_reset/engine.py:402-417 | an attempt that follows n earlier ones belongs to a tick that began no sooner than the base delay, doubled with every failure after the first up to the cap, after the tick of the last failure began; so since the failure was heard at least that delay less the hearing time has passed; none follows a success |
| ResetRetry.WaitIsExact | src/sentinel/codex_reset/engine.py:386-417 | that bound is attained for every retry: for every wait down to none there is a run from the empty store in which the n-th failure is heard that long before the next attempt |
| ResetResults.QueuedStagesRise | src/sentinel/codex_reset/models.py:106-108 | the stages queued for one event strictly rise |
| ResetStages.StagesNeverFall | src/sentinel/codex_reset/store.py:632-723 | over every run in which the lease never passes on while its holder is still to judge, no step lowers the stage of an event, although the stage is read in one statement and written in another |
| ResetStages.UndisturbedIsUnrivalled | src/sentinel/codex_reset/engine.py:65-74 | so stages never fall in any run in which the lease does not pass on while its holder is busy |
| ResetStages.StagesSafeIff | src/sentinel/codex_reset/store.py:640-700 | the condition is exact: when an instance takes the lease, no continuation without a further such takeover lowers a stage if and only if no other instance is still to judge or the lease was its own |
| ResetStages.TakeoverLowers | src/sentinel/codex_reset/store.py:640-700 | whenever two instances judge at once, some continuation lowers a stage: the one that read first writes last |
| ResetStages.LateTickLowersAStage | src/sentinel/codex_reset/store.py:640-700 | it can come to that from the empty store, with a clock that never runs backwards |
| ResetStages.TimesNeverChange | src/sentinel/codex_reset/store.py:674-700 | over any run whatever, stale writes included, an event is never forgotten and its announced, expected and confirmed times never change once set |
| ResetResults.JudgedStageReached | src/sentinel/codex_reset/engine.py:334-378 | after an event is judged with nothing in between its stage is at least what its evidence calls for |
| ResetResults.VerdictFallsIff | src/sentinel/codex_reset/engine.py:348-378 | more evidence never takes a verdict away, and lowers it exactly if it was a confirmation and there is now an official announcement of a banked reset and no banked balance that arrived |
| ResetResults.MoreEvidenceCanLowerTheVerdict | src/sentinel/codex_reset/engine.py:348-378 | it does happen: a public confirmation taken back by the announcement of a banked reset |
| Confirmation.RepostsNeverConfirm | src/sentinel/codex_reset/confirmation.py:7-44 | without local or authoritative evidence there is no basis exactly if all public confirmations share one source family or all share one canonical post |
| Confirmation.BasisGrows | src/sentinel/codex_reset/confirmation.py:7-44 | more evidence never takes a basis away |
| Confirmation.BasisUnordered | src/sentinel/codex_reset/confirmation.py:7-44 | the basis depends only on which evidence there is, not on its order or repetition |
| Confirmation.BasisMeans | src/sentinel/codex_reset/confirmation.py:7-44 | which basis there is, by the fields of the evidence and in both directions: a banked balance that rose on an account, else a complete official post of the live feed, else a completion seen on an account with an official direct announcement or completion, else two public completions of different families and posts |
| BankedBalance.BalanceTable.ObserveBankedBalance | src/sentinel/codex_reset/store.py:116-194 | a reading updates the row of its source alone; fewer than one confirmation is rejected and changes nothing |
| BankedBalance.RowTracks | src/sentinel/codex_reset/store.py:116-194 | the row is a function of the history of readings: what is believed, the candidate, and how often in a row it was seen |
| BankedBalance.StableIsLatestRun | src/sentinel/codex_reset/store.py:116-194 | the stable count is the value of the latest run of max(2, confirmations) equal readings or, if there is none, the first reading |
| BankedBalance.IncreaseIffBelievedRises | src/sentinel/codex_reset/store.py:150-194 | an increase is reported exactly when the believed count rises, by exactly that much, with both counts, and dated by the first of the equal readings that established it, or by the last if that time is 0 |
| BankedBalance.NothingLost | src/sentinel/codex_reset/store.py:116-194 | reported increases minus absorbed drops equal the believed count minus the first reading |
| CrashLoop.DetectCrashloops | src/sentinel/scan_docker.py:174-235 | the loop with its early exits, and the pruning after it, compute the specified reports and table |
| CrashLoop.PruningInvisible | src/sentinel/scan_docker.py:202-235 | with non-decreasing clocks, every tick reports the same with and without pruning, for every window, also one longer than the time to live |
| CrashLoop.ReportIsHistory | src/sentinel/scan_docker.py:202-233 | what is reported of a container depends on its own observations alone |
| CrashLoop.ReportedIff | src/sentinel/scan_docker.py:202-233 | over every run with non-decreasing clocks: a container is reported if and only if it was seen before and its count has risen by the threshold, and has not fallen, since its window began, no longer ago than the window is long; with that rise and both counts |
| CrashLoop.BeganMeans | src/sentinel/scan_docker.py:202-233 | a window begins with the first observation or with the last one that found the container recreated, the window over, or just over without enough restarts, and nothing since has ended it |
| CrashLoop.ReportWitnessed | src/sentinel/scan_docker.py:202-233 | every report is witnessed by an earlier observation of the same container, at most one window before, with a restart count lower by the reported number, and never a lower count in between; whatever the clocks did |
| DigestSummary.SummarizeDigest | src/sentinel/digest_summary.py:113-149 | the pass over mutable groups shared by a list and a dict makes the specified groups, and its counts are the numbers of restart and of shutdown records in the input |
| DigestSummary.CountsOfKinds | src/sentinel/digest_summary.py:113-149 | the restarts of a digest are the records of the input whose kind is a restart, and likewise the shutdowns, whatever their order |
| DigestSummary.JoinLatest | src/sentinel/digest_summary.py:113-149 | a record joins the latest group of its key, in place, and no other group changes |
| DigestResults.GroupsPartition | src/sentinel/digest_summary.py:113-149 | the groups partition the problem records, each group says of its records what it should, and none spans more than 600 seconds |
| DigestResults.FewestGroups | src/sentinel/digest_summary.py:113-149 | no other grouping with that span has fewer groups, for one key, for all keys, or for any others |
| DigestResults.EveryRecordCounted | src/sentinel/digest_summary.py:113-149 | group records plus restarts plus shutdowns equal the number of records |
| DigestResults.OrderIrrelevant | src/sentinel/digest_summary.py:113-149 | with distinct ids the summary does not depend on the order of the input |
| Differ.ComputeDiff | src/sentinel/differ.py:10-54 | the loops compute the specified events |
| Differ.AppendComponents | src/sentinel/differ.py:79-94 | likewise for the components |
| Differ.DiffIsExact | src/sentinel/differ.py:10-54 | applied to the old incident keys, the events of a diff give the new ones |
| Differ.DiffOpensAndResolves | src/sentinel/differ.py:15-36 | a diff opens exactly the incidents whose key is new and resolves exactly those whose key is gone |
| DiffTells.EventInDiffIff | src/sentinel/differ.py:10-94 | event by event, of the two snapshots: a diff holds an event if and only if it is called for; incidents opened, resolved, or updated in status or, if wanted, in their latest update; components recovered to operational or degraded on the ladder of six states; the new indicator, unless both are no worse than minor and nothing else changed; a baseline for a first snapshot with something wrong |
| Differ.QuietDiff | src/sentinel/differ.py:10-54 | an empty diff means the same incident keys |
| Poller.PollState.RunCycle | src/sentinel/poller.py:81-165 | a cycle is the turns of its providers in order; what each turn must tell, see `PollerTells.TurnTells` |
| Poller.PollState.Got | src/sentinel/poller.py:116-165 | a snapshot is stored only with a delivered card, a suppressed card, or nothing to tell |
| Poller.PollState.Failed | src/sentinel/poller.py:102-114 | a failed fetch counts, and an outage is reported at the threshold if it was not yet |
| PollerTells.TurnTells | src/sentinel/poller.py:98-165 | over every run and of the log alone: a difference from the snapshot stored last is booked as a card with exactly these events, and the snapshot stored, if and only if the send reaches a channel and either some event is pressing or the gap since the last card is over and gate mode does not suppress it; a suppressed one is stored without a card, no difference is just stored, and otherwise nothing is; pressing by cases: an incident opened, changed or closed with major or critical impact or an outage word, a component in partial or major outage, an indicator that became major or critical; a failed fetch is reported if and only if it makes enough in a row, none was reported since the last success, and the report is delivered |
| Poller.EventSourcing | src/sentinel/poller.py:98-165 | outside gate mode, over every run, folding the delivered cards over the first stored snapshot gives the incident keys of the one now stored |
| Poller.SuppressionLosesIncidents | src/sentinel/poller.py:138-152 | in gate mode a suppressed card keeps this exactly if no incident opened or closed |
| Poller.GapsAndOutages | src/sentinel/poller.py:81-165 | over every run, cards that are not urgent keep the minimum gap, an outage is reported only after enough failures in a row and once delivered not again until a fetch succeeds |
| Redact.RedactText | src/sentinel/redact.py:97-117 | the literal layer computes the replacement of all eligible secrets, longest first, counts the hits, changes nothing if there is none, and leaves no eligible secret that the placeholder does not touch |
| Redact.ReplaceMeans | src/sentinel/redact.py:105-113 | a replacement cuts the text at the occurrences of the secret, from the left, and joins the pieces, all of them unchanged, by the placeholder; the count is that of the cuts |
| Redact.NeverCreated | src/sentinel/redact.py:105-113 | a replacement never creates an occurrence of a secret that the placeholder does not touch, and leaves none of the secret it replaces |
| Redact.NeverSurvives | src/sentinel/redact.py:105-113 | such a secret is gone afterwards, in whatever order and company it is redacted |
| Redact.RedactTwice | src/sentinel/redact.py:97-117 | a second pass changes nothing, if the placeholder touches no secret |
| Redact.SecretIsOnePlaceholder | src/sentinel/redact.py:103-113 | because the longest secret comes first, a secret becomes exactly one placeholder, even if shorter secrets are part of it, if the placeholder touches none of them |
| Redact.ShorterFirstLeaks | src/sentinel/redact.py:104-105 | in the other order a part of the longer secret would stay: a concrete pair |
| Redact.OrdinarySecrets | src/sentinel/redact.py:21-23 | secrets without guillemets that are no part of the word between them are not touched |
| Redact.SafeIffUntouched | src/sentinel/redact.py:105-113 | the condition is exact: a secret is removed from every text in every company if and only if the placeholder does not touch it |
| Demux.DemuxDockerLogs | src/sentinel/docker_client.py:25-39 | the loop ends on every byte string and returns the joined payloads if every header it meets is one, the raw bytes otherwise |
| Demux.RoundTrip | src/sentinel/docker_client.py:25-39 | encoding any list of frames and reading them gives the joined payloads |
| Demux.CutStreamReads | src/sentinel/docker_client.py:25-39 | any cut of an encoded stream, with up to seven stray bytes, reads as a prefix of the payloads, and as all of them once the frames are complete |
| Demux.MultiplexedIff | src/sentinel/docker_client.py:25-39 | the reader takes bytes for a multiplexed stream exactly if they are the start of one |
| Demux.MoreBytesMoreText | src/sentinel/docker_client.py:25-39 | reading more of a stream only adds text |

## Left out

- HookLoss.NothingLost: assumes that no event takes the id of a candidate that matters, which the memory of seen ids does not ensure; `HookLoss.NothingLostIff` shows that the condition is exact. A candidate that a receipt of an earlier use of its id makes the dispatch skip counts as accounted for.
- HookCancel.PromptSilencesSession: assumes that ids are not reused harmfully; `HookCancel.CancellationHoldsIff` shows that this is exact, `HookIds` when it holds and that it can fail.
- ResetSafety.EveryRun: assumes that the lease does not pass on while its holder is busy, which the source does not prevent if a tick outlives its lease; `ResetOverlap.TakeoverSafeIff` shows that the condition is exact.
- ResetResults.SentAtMostOnce: the same condition, as for `RetriesWait` and `QueuedStagesRise`.
- ResetStages.StagesNeverFall: assumes that the lease does not pass on while its holder is still to judge; `ResetStages.StagesSafeIff` shows that the condition is exact.
- Of the statements of the reset store only the read and the write of an event are apart; a tick whose insert finds the row there already ends, as the error makes it, and marking events delayed is one step, as its write repeats its condition.
- ProbeRules.EvaluateProbeRules: latencies, percentile and threshold are real numbers, without the rounding of floating point.
- DockerScan.ContainerNoFalseRecovery: the open events read for the holds and those read by the round are the same table; nothing but this job changes them in between.
- CrashLoop.DetectCrashloops: a container is observed at most once in a tick, as the counts are the items of a dict.
- Redact.RedactText: only the literal layer; the layer of general key patterns is regular expressions.
- Demux.DemuxDockerLogs: the bytes, not their decoding as UTF-8.
- Poller.PollState.Got: the analysis that may suppress or reword a card is given as its verdict.
- Retried messages of the reset monitor may be delivered out of stage order; only queueing is in order.
- An open event of a service that is no longer configured does recover; the probe results are about configured services.
- Crashes of the process between a delivered send and its commit, and other exceptions of the store: a step of the model does both.
- SQL, transactions, schema changes and JSON: tables are values; event payloads are maps of strings.
- Channels, HTTP, subprocesses and the language-model calls: a broadcast is the number of channels it reached.
- The texts of messages, except where they decide a branch; the details of findings are placeholders.
- Stop messages of the hooks and titles of digest records are classified by given predicates in place of regular expressions.
- Event ids of hooks are integers with the order of the strings they stand for; delivery receipts are keyed by id and category.
- Routing of reset evidence to an event: the machine lets any evidence go to any event.
- Translation and semantic caches of the reset monitor: their backoff has the same shape as the deliveries.
- Error alerts and hygiene checks enter as rounds of their own rule families; their data sources are not modelled.
- Diagnosis of events, panel views, settings, the heartbeat and the date gates of the daily messages.
