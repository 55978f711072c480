/** What a difference must say, event by event: when an incident counts as opened, updated or resolved, a
    component as recovered or degraded and the indicator as changed. Said of the two snapshots, without the
    dicts and the loops that compute the events. */
module DiffTells {
  import opened Basics
  import opened Differ

  // ---- The snapshots, key by key: of several entries with one key, the last one counts ----

  function LastIncident(xs: seq<Incident>, key: string): Option<Incident> {
    if xs == [] then None
    else if xs[|xs| - 1].key == key then Some(xs[|xs| - 1]) else LastIncident(xs[..|xs| - 1], key)
  }

  function LastComponent(xs: seq<Component>, key: string): Option<Component> {
    if xs == [] then None
    else if xs[|xs| - 1].key == key then Some(xs[|xs| - 1]) else LastComponent(xs[..|xs| - 1], key)
  }

  ghost predicate IncidentKeysDiffer(dict: seq<Incident>) {
    forall i, j :: 0 <= i < j < |dict| ==> dict[i].key != dict[j].key
  }

  ghost predicate ComponentKeysDiffer(dict: seq<Component>) {
    forall i, j :: 0 <= i < j < |dict| ==> dict[i].key != dict[j].key
  }

  lemma {:induction false} PutIncidentFinds(dict: seq<Incident>, x: Incident, key: string)
    ensures FindIncident(PutIncident(dict, x), key) == if x.key == key then Some(x) else FindIncident(dict, key)
  {
    if dict != [] && dict[0].key != x.key { PutIncidentFinds(dict[1..], x, key); }
  }

  lemma {:induction false} PutComponentFinds(dict: seq<Component>, x: Component, key: string)
    ensures FindComponent(PutComponent(dict, x), key) == if x.key == key then Some(x) else FindComponent(dict, key)
  {
    if dict != [] && dict[0].key != x.key { PutComponentFinds(dict[1..], x, key); }
  }

  lemma {:induction false} PutIncidentDiffers(dict: seq<Incident>, x: Incident)
    requires IncidentKeysDiffer(dict)
    ensures IncidentKeysDiffer(PutIncident(dict, x))
    ensures forall y :: y in PutIncident(dict, x) ==> y == x || y in dict
  {
    if dict != [] && dict[0].key != x.key {
      PutIncidentDiffers(dict[1..], x);
      var rest := PutIncident(dict[1..], x);
      forall k | 0 <= k < |rest| ensures rest[k].key != dict[0].key { assert rest[k] == x || rest[k] in dict[1..]; }
    }
  }

  lemma {:induction false} PutComponentDiffers(dict: seq<Component>, x: Component)
    requires ComponentKeysDiffer(dict)
    ensures ComponentKeysDiffer(PutComponent(dict, x))
    ensures forall y :: y in PutComponent(dict, x) ==> y == x || y in dict
  {
    if dict != [] && dict[0].key != x.key {
      PutComponentDiffers(dict[1..], x);
      var rest := PutComponent(dict[1..], x);
      forall k | 0 <= k < |rest| ensures rest[k].key != dict[0].key { assert rest[k] == x || rest[k] in dict[1..]; }
    }
  }

  lemma {:induction false} FoundIncident(dict: seq<Incident>, x: Incident)
    requires IncidentKeysDiffer(dict)
    ensures x in dict <==> FindIncident(dict, x.key) == Some(x)
  {
    if dict != [] { FoundIncident(dict[1..], x); }
  }

  lemma {:induction false} FoundComponent(dict: seq<Component>, x: Component)
    requires ComponentKeysDiffer(dict)
    ensures x in dict <==> FindComponent(dict, x.key) == Some(x)
  {
    if dict != [] { FoundComponent(dict[1..], x); }
  }

  lemma {:induction false} IncidentDictMeans(xs: seq<Incident>, key: string)
    ensures IncidentKeysDiffer(IncidentDict(xs)) && FindIncident(IncidentDict(xs), key) == LastIncident(xs, key)
  {
    if xs != [] {
      var n := |xs| - 1;
      IncidentDictMeans(xs[..n], key);
      PutIncidentFinds(IncidentDict(xs[..n]), xs[n], key);
      PutIncidentDiffers(IncidentDict(xs[..n]), xs[n]);
    }
  }

  lemma {:induction false} ComponentDictMeans(xs: seq<Component>, key: string)
    ensures ComponentKeysDiffer(ComponentDict(xs)) && FindComponent(ComponentDict(xs), key) == LastComponent(xs, key)
  {
    if xs != [] {
      var n := |xs| - 1;
      ComponentDictMeans(xs[..n], key);
      PutComponentFinds(ComponentDict(xs[..n]), xs[n], key);
      PutComponentDiffers(ComponentDict(xs[..n]), xs[n]);
    }
  }

  // ---- When an event is called for ----

  /** From operational over maintenance, degraded and partial outage to major outage; below all of them, unknown. */
  predicate Worse(status: ComponentStatus, than: ComponentStatus) {
    match status
    case UnknownStatus => false
    case Operational => than == UnknownStatus
    case Maintenance => than in {UnknownStatus, Operational}
    case Degraded => than in {UnknownStatus, Operational, Maintenance}
    case PartialOutage => than !in {PartialOutage, MajorOutage}
    case MajorOutage => than != MajorOutage
  }

  /** News of an incident or of a component. */
  predicate CallsFor(before: Snapshot, after: Snapshot, all: bool, e: Event) {
    match e
    case Opened(x) => LastIncident(after.incidents, x.key) == Some(x) && LastIncident(before.incidents, x.key).None?
    case Resolved(x) => LastIncident(before.incidents, x.key) == Some(x) && LastIncident(after.incidents, x.key).None?
    case Updated(x) =>
      var was := LastIncident(before.incidents, x.key);
      && LastIncident(after.incidents, x.key) == Some(x) && was.Some?
      && (was.value.status != x.status || (all && was.value.updateId != x.updateId))
    case ComponentRecovered(c) =>
      var was := LastComponent(before.components, c.key);
      LastComponent(after.components, c.key) == Some(c) && c.status == Operational && was.Some? && was.value.status != Operational
    case ComponentDegraded(c) =>
      var was := LastComponent(before.components, c.key);
      && LastComponent(after.components, c.key) == Some(c) && c.status != Operational
      && was.Some? && Worse(c.status, was.value.status)
    case _ => false
  }

  ghost predicate AnyNews(before: Snapshot, after: Snapshot, all: bool) {
    exists e :: CallsFor(before, after, all, e)
  }

  lemma {:induction false} UpdatedInNew(before: seq<Incident>, after: seq<Incident>, all: bool, x: Incident)
    ensures Updated(x) in NewEvents(before, after, all) <==>
      var was := FindIncident(before, x.key);
      x in after && was.Some? && (was.value.status != x.status || (all && was.value.updateId != x.updateId))
  {
    if after != [] {
      var n := |after| - 1;
      UpdatedInNew(before, after[..n], all, x);
      assert x in after <==> x in after[..n] || x == after[n];
    }
  }

  lemma {:induction false} InComponentEvents(before: seq<Component>, after: seq<Component>, c: Component)
    ensures ComponentRecovered(c) in ComponentEvents(before, after) <==>
      var was := FindComponent(before, c.key);
      c in after && c.status == Operational && was.Some? && was.value.status != Operational
    ensures ComponentDegraded(c) in ComponentEvents(before, after) <==>
      var was := FindComponent(before, c.key);
      c in after && c.status != Operational && was.Some? && Worse(c.status, was.value.status)
  {
    if after != [] {
      var n := |after| - 1;
      InComponentEvents(before, after[..n], c);
      assert c in after <==> c in after[..n] || c == after[n];
    }
  }

  lemma {:induction false} IncidentEventsOnly(before: seq<Incident>, after: seq<Incident>, all: bool)
    ensures forall e :: e in NewEvents(before, after, all) ==> e.Opened? || e.Updated?
    ensures forall e :: e in GoneEvents(before, after) ==> e.Resolved?
  {
    if after != [] { IncidentEventsOnly(before, after[..|after| - 1], all); }
    OnlyResolved(before, after);
  }

  lemma {:induction false} OnlyResolved(before: seq<Incident>, after: seq<Incident>)
    ensures forall e :: e in GoneEvents(before, after) ==> e.Resolved?
  {
    if before != [] { OnlyResolved(before[..|before| - 1], after); }
  }

  /** The news of incidents, event by event. */
  lemma IncidentNews(before: seq<Incident>, after: seq<Incident>, all: bool, x: Incident)
    ensures var a, b := IncidentDict(before), IncidentDict(after);
            var was, now := LastIncident(before, x.key), LastIncident(after, x.key);
            && (Opened(x) in NewEvents(a, b, all) <==> now == Some(x) && was.None?)
            && (Resolved(x) in GoneEvents(a, b) <==> was == Some(x) && now.None?)
            && (Updated(x) in NewEvents(a, b, all) <==>
                  now == Some(x) && was.Some? && (was.value.status != x.status || (all && was.value.updateId != x.updateId)))
  {
    var a, b := IncidentDict(before), IncidentDict(after);
    IncidentDictMeans(before, x.key);
    IncidentDictMeans(after, x.key);
    FoundIncident(a, x);
    FoundIncident(b, x);
    FindIsKey(a, x.key);
    FindIsKey(b, x.key);
    UpdatedInNew(a, b, all, x);
    OpenedInNew(a, b, all, x);
    ResolvedInGone(a, b, x);
    hide NewEvents, GoneEvents, IncidentDict, Keys, FindIncident, LastIncident;
  }

  /** The news of components, event by event. */
  lemma ComponentNews(before: seq<Component>, after: seq<Component>, c: Component)
    ensures var events := ComponentEvents(ComponentDict(before), ComponentDict(after));
            var was, now := LastComponent(before, c.key), LastComponent(after, c.key);
            && (ComponentRecovered(c) in events <==>
                  now == Some(c) && c.status == Operational && was.Some? && was.value.status != Operational)
            && (ComponentDegraded(c) in events <==>
                  now == Some(c) && c.status != Operational && was.Some? && Worse(c.status, was.value.status))
  {
    var a, b := ComponentDict(before), ComponentDict(after);
    ComponentDictMeans(before, c.key);
    ComponentDictMeans(after, c.key);
    FoundComponent(b, c);
    InComponentEvents(a, b, c);
    hide ComponentEvents, ComponentDict, FindComponent, LastComponent, Worse;
  }

  lemma NewsInDiff(o: Snapshot, s: Snapshot, all: bool, e: Event)
    requires !e.IndicatorChanged?
    ensures var a, b := IncidentDict(o.incidents), IncidentDict(s.incidents);
            var news := NewEvents(a, b, all) + GoneEvents(a, b)
                        + ComponentEvents(ComponentDict(o.components), ComponentDict(s.components));
            e in news <==> CallsFor(o, s, all, e)
  {
    var a, b := IncidentDict(o.incidents), IncidentDict(s.incidents);
    var c, d := ComponentDict(o.components), ComponentDict(s.components);
    IncidentEventsOnly(a, b, all);
    ComponentEventsOnly(c, d);
    if e.Opened? || e.Updated? || e.Resolved? { IncidentNews(o.incidents, s.incidents, all, e.incident); }
    if e.ComponentRecovered? || e.ComponentDegraded? { ComponentNews(o.components, s.components, e.component); }
    hide NewEvents, GoneEvents, ComponentEvents, IncidentDict, ComponentDict, LastIncident, LastComponent, Worse;
  }

  /** The indicator joins the news if it differs, unless both are no worse than minor and there is no other. */
  predicate IndicatorCalledFor(before: Indicator, after: Indicator, other: bool) {
    before != after && (before in {Major, Critical, Unknown} || after in {Major, Critical, Unknown} || other)
  }

  lemma InWithIndicator(news: seq<Event>, before: Indicator, after: Indicator, e: Event)
    requires forall x :: x in news ==> !x.IndicatorChanged?
    ensures e in news + IndicatorEvents(before, after, news != []) <==>
      if e.IndicatorChanged? then e.indicator == after && IndicatorCalledFor(before, after, news != []) else e in news
  {
    var last := IndicatorEvents(before, after, news != []);
    assert e in news + last <==> e in news || e in last;
  }

  lemma LaterDiff(o: Snapshot, after: Snapshot, all: bool, e: Event)
    ensures e in Diff(Some(o), after, all) <==>
      if e.IndicatorChanged? then
        e.indicator == after.indicator && IndicatorCalledFor(o.indicator, after.indicator, AnyNews(o, after, all))
      else CallsFor(o, after, all, e)
  {
    var a, b := IncidentDict(o.incidents), IncidentDict(after.incidents);
    var news := NewEvents(a, b, all) + GoneEvents(a, b)
                + ComponentEvents(ComponentDict(o.components), ComponentDict(after.components));
    assert Diff(Some(o), after, all) == news + IndicatorEvents(o.indicator, after.indicator, news != []);
    IncidentEventsOnly(a, b, all);
    ComponentEventsOnly(ComponentDict(o.components), ComponentDict(after.components));
    hide Diff, NewEvents, GoneEvents, ComponentEvents, IncidentDict, ComponentDict, CallsFor, IndicatorEvents, IndicatorCalledFor;
    forall x: Event | !x.IndicatorChanged? ensures x in news <==> CallsFor(o, after, all, x) { NewsInDiff(o, after, all, x); }
    InWithIndicator(news, o.indicator, after.indicator, e);
    assert news != [] <==> AnyNews(o, after, all) by {
      if news != [] { assert news[0] in news && CallsFor(o, after, all, news[0]); }
      if x :| CallsFor(o, after, all, x) { NoIndicatorNews(o, after, all, x); }
    }
  }

  lemma NoIndicatorNews(o: Snapshot, after: Snapshot, all: bool, e: Event)
    requires CallsFor(o, after, all, e)
    ensures !e.IndicatorChanged?
  {}

  /** A difference holds exactly the events called for: the news of incidents and components, and the new
      indicator. The first snapshot of a provider gives a baseline exactly if something is wrong in it. */
  lemma EventInDiffIff(before: Option<Snapshot>, after: Snapshot, all: bool, e: Event)
    ensures e in Diff(before, after, all) <==>
      if before.None? then
        && e == Baseline
        && (|| after.incidents != [] || after.indicator in {Major, Critical}
            || exists k :: 0 <= k < |after.components| && after.components[k].status != Operational)
      else if e.IndicatorChanged? then
        e.indicator == after.indicator
        && IndicatorCalledFor(before.value.indicator, after.indicator, AnyNews(before.value, after, all))
      else CallsFor(before.value, after, all, e)
  {
    hide CallsFor, IndicatorCalledFor, AnyNews;
    if before.Some? {
      LaterDiff(before.value, after, all, e);
    } else {
      assert after.indicator in {NoneImpact, Minor, Unknown} || after.indicator.Major? || after.indicator.Critical?;
    }
  }
}
