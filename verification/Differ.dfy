/** The difference between two snapshots of a provider's status page, as transition events. */
module Differ {
  import opened Basics

  datatype Indicator = NoneImpact | Minor | Major | Critical | Unknown
  datatype ComponentStatus = Operational | Maintenance | Degraded | PartialOutage | MajorOutage | UnknownStatus

  /** `mentionsOutage` says that a product name contains one of the two outage words. */
  datatype Incident = Incident(key: string, status: string, impact: Indicator, updateId: string, mentionsOutage: bool)
  datatype Component = Component(key: string, status: ComponentStatus)
  datatype Snapshot = Snapshot(indicator: Indicator, components: seq<Component>, incidents: seq<Incident>)

  datatype Event =
    | Opened(incident: Incident)
    | Updated(incident: Incident)
    | Resolved(incident: Incident)
    | ComponentRecovered(component: Component)
    | ComponentDegraded(component: Component)
    | IndicatorChanged(indicator: Indicator)
    | Baseline

  function Rank(status: ComponentStatus): int {
    match status
    case UnknownStatus => -1
    case Operational => 0
    case Maintenance => 1
    case Degraded => 2
    case PartialOutage => 3
    case MajorOutage => 4
  }

  // ---- Python dicts built from lists: the first position and the last value of each key ----

  function PutIncident(dict: seq<Incident>, x: Incident): seq<Incident> {
    if dict == [] then [x]
    else if dict[0].key == x.key then [x] + dict[1..]
    else [dict[0]] + PutIncident(dict[1..], x)
  }

  function IncidentDict(xs: seq<Incident>): seq<Incident> {
    if xs == [] then [] else PutIncident(IncidentDict(xs[..|xs| - 1]), xs[|xs| - 1])
  }

  function PutComponent(dict: seq<Component>, x: Component): seq<Component> {
    if dict == [] then [x]
    else if dict[0].key == x.key then [x] + dict[1..]
    else [dict[0]] + PutComponent(dict[1..], x)
  }

  function ComponentDict(xs: seq<Component>): seq<Component> {
    if xs == [] then [] else PutComponent(ComponentDict(xs[..|xs| - 1]), xs[|xs| - 1])
  }

  function FindIncident(dict: seq<Incident>, key: string): Option<Incident> {
    if dict == [] then None else if dict[0].key == key then Some(dict[0]) else FindIncident(dict[1..], key)
  }

  function FindComponent(dict: seq<Component>, key: string): Option<Component> {
    if dict == [] then None else if dict[0].key == key then Some(dict[0]) else FindComponent(dict[1..], key)
  }

  // ---- The events ----

  function NewEvent(before: seq<Incident>, inc: Incident, all: bool): seq<Event> {
    match FindIncident(before, inc.key)
    case None => [Opened(inc)]
    case Some(prev) => if prev.status != inc.status || (all && prev.updateId != inc.updateId) then [Updated(inc)] else []
  }

  function NewEvents(before: seq<Incident>, after: seq<Incident>, all: bool): seq<Event> {
    if after == [] then []
    else NewEvents(before, after[..|after| - 1], all) + NewEvent(before, after[|after| - 1], all)
  }

  function GoneEvent(inc: Incident, after: seq<Incident>): seq<Event> {
    if FindIncident(after, inc.key).None? then [Resolved(inc)] else []
  }

  function GoneEvents(before: seq<Incident>, after: seq<Incident>): seq<Event> {
    if before == [] then []
    else GoneEvents(before[..|before| - 1], after) + GoneEvent(before[|before| - 1], after)
  }

  function ComponentEvents(before: seq<Component>, after: seq<Component>): seq<Event> {
    if after == [] then []
    else
      var n := |after| - 1;
      var comp := after[n];
      ComponentEvents(before, after[..n])
      + match FindComponent(before, comp.key)
        case None => []
        case Some(prev) =>
          if prev.status == comp.status then []
          else if comp.status == Operational then [ComponentRecovered(comp)]
          else if Rank(comp.status) > Rank(prev.status) then [ComponentDegraded(comp)]
          else []
  }

  predicate Cosmetic(i: Indicator) { i == NoneImpact || i == Minor }

  function IndicatorEvents(before: Indicator, after: Indicator, changed: bool): seq<Event> {
    if before != after && !(Cosmetic(before) && Cosmetic(after) && !changed) then [IndicatorChanged(after)] else []
  }

  predicate Substantive(s: Snapshot) {
    || s.incidents != []
    || (exists i :: 0 <= i < |s.components| && s.components[i].status != Operational)
    || s.indicator !in {NoneImpact, Minor, Unknown}
  }

  function Diff(before: Option<Snapshot>, after: Snapshot, all: bool): seq<Event> {
    match before
    case None => if Substantive(after) then [Baseline] else []
    case Some(o) =>
      var oldInc, newInc := IncidentDict(o.incidents), IncidentDict(after.incidents);
      var events := NewEvents(oldInc, newInc, all) + GoneEvents(oldInc, newInc)
                    + ComponentEvents(ComponentDict(o.components), ComponentDict(after.components));
      events + IndicatorEvents(o.indicator, after.indicator, events != [])
  }

  method AppendNew(before: seq<Incident>, after: seq<Incident>, all: bool) returns (events: seq<Event>)
    ensures events == NewEvents(before, after, all)
  {
    events := [];
    for i := 0 to |after|
      invariant events == NewEvents(before, after[..i], all)
    {
      assert after[..i + 1][..i] == after[..i];
      var prev := FindIncident(before, after[i].key);
      if prev.None? {
        events := events + [Opened(after[i])];
      } else if prev.value.status != after[i].status || (all && prev.value.updateId != after[i].updateId) {
        events := events + [Updated(after[i])];
      } else {
        assert events + [] == events;
      }
    }
    assert after[..|after|] == after;
  }

  method AppendGone(before: seq<Incident>, after: seq<Incident>) returns (events: seq<Event>)
    ensures events == GoneEvents(before, after)
  {
    events := [];
    for i := 0 to |before|
      invariant events == GoneEvents(before[..i], after)
    {
      assert before[..i + 1][..i] == before[..i];
      if FindIncident(after, before[i].key).None? {
        events := events + [Resolved(before[i])];
      }
    }
    assert before[..|before|] == before;
  }

  method ComputeDiff(before: Option<Snapshot>, after: Snapshot, all: bool) returns (events: seq<Event>)
    ensures events == Diff(before, after, all)
  {
    if before.None? { return if Substantive(after) then [Baseline] else []; }
    var oldInc, newInc := IncidentDict(before.value.incidents), IncidentDict(after.incidents);
    events := AppendNew(oldInc, newInc, all);
    var gone := AppendGone(oldInc, newInc);
    events := events + gone;
    var components := AppendComponents(ComponentDict(before.value.components), ComponentDict(after.components));
    events := events + components;
    events := events + IndicatorEvents(before.value.indicator, after.indicator, events != []);
  }

  method AppendComponents(before: seq<Component>, after: seq<Component>) returns (events: seq<Event>)
    ensures events == ComponentEvents(before, after)
  {
    events := [];
    for i := 0 to |after|
      invariant events == ComponentEvents(before, after[..i])
    {
      assert after[..i + 1][..i] == after[..i];
      assert events + [] == events;
      var prev := FindComponent(before, after[i].key);
      if prev.None? || prev.value.status == after[i].status { continue; }
      if after[i].status == Operational {
        events := events + [ComponentRecovered(after[i])];
      } else if Rank(after[i].status) > Rank(prev.value.status) {
        events := events + [ComponentDegraded(after[i])];
      }
    }
    assert after[..|after|] == after;
  }

  // ---- Applying events ----

  function Keys(xs: seq<Incident>): set<string> { set x | x in xs :: x.key }

  function Effect(keys: set<string>, event: Event): set<string> {
    match event
    case Opened(inc) => keys + {inc.key}
    case Resolved(inc) => keys - {inc.key}
    case _ => keys
  }

  /** The incident keys after a card's events. */
  function Apply(keys: set<string>, events: seq<Event>): set<string> {
    if events == [] then keys else Effect(Apply(keys, events[..|events| - 1]), events[|events| - 1])
  }

  lemma {:induction false} ApplyConcat(keys: set<string>, a: seq<Event>, b: seq<Event>)
    ensures Apply(keys, a + b) == Apply(Apply(keys, a), b)
  {
    if b == [] {
      assert a + b == a;
    } else {
      var n := |b| - 1;
      assert (a + b)[..|a| + n] == a + b[..n];
      ApplyConcat(keys, a, b[..n]);
    }
  }

  lemma {:induction false} FindIsKey(dict: seq<Incident>, key: string)
    ensures FindIncident(dict, key).Some? <==> key in Keys(dict)
  {
    if dict != [] {
      FindIsKey(dict[1..], key);
      assert forall x :: x in dict <==> x == dict[0] || x in dict[1..];
    }
  }

  lemma {:induction false} PutKeys(dict: seq<Incident>, x: Incident)
    ensures Keys(PutIncident(dict, x)) == Keys(dict) + {x.key}
  {
    if dict == [] {
      assert Keys([x]) == {x.key} by { assert x in [x]; }
    } else {
      assert forall y :: y in dict <==> y == dict[0] || y in dict[1..];
      PutKeys(dict[1..], x);
      if dict[0].key == x.key {
        var r := [x] + dict[1..];
        assert forall y :: y in r <==> y == x || y in dict[1..];
        forall k ensures k in Keys(r) <==> k in Keys(dict) {
          if k in Keys(dict) && k == dict[0].key { assert x in r; }
        }
      } else {
        var r := [dict[0]] + PutIncident(dict[1..], x);
        assert forall y :: y in r <==> y == dict[0] || y in PutIncident(dict[1..], x);
        assert Keys(r) == {dict[0].key} + Keys(PutIncident(dict[1..], x)) by { assert dict[0] in r; }
        assert Keys(dict) == {dict[0].key} + Keys(dict[1..]) by { assert dict[0] in dict; }
      }
    }
  }

  lemma KeysAppend(xs: seq<Incident>, x: Incident)
    ensures Keys(xs + [x]) == Keys(xs) + {x.key}
  {
    assert forall y :: y in xs + [x] <==> y in xs || y == x;
    assert x in xs + [x];
  }

  lemma {:induction false} DictKeys(xs: seq<Incident>)
    ensures Keys(IncidentDict(xs)) == Keys(xs)
  {
    if xs != [] {
      var n := |xs| - 1;
      DictKeys(xs[..n]);
      PutKeys(IncidentDict(xs[..n]), xs[n]);
      assert xs == xs[..n] + [xs[n]];
      KeysAppend(xs[..n], xs[n]);
    }
  }

  lemma NewKey(keys: set<string>, before: seq<Incident>, inc: Incident, all: bool)
    requires Keys(before) <= keys
    ensures Apply(keys, NewEvent(before, inc, all)) == keys + {inc.key}
  {
    FindIsKey(before, inc.key);
    ApplyOne(keys, NewEvent(before, inc, all));
  }

  lemma NoKeys(keys: set<string>)
    ensures Apply(keys, []) == keys && Keys([]) == {}
  {}

  lemma {:induction false} NewKeys(keys: set<string>, before: seq<Incident>, after: seq<Incident>, all: bool)
    requires Keys(before) <= keys
    ensures Apply(keys, NewEvents(before, after, all)) == keys + Keys(after)
  {
    hide Apply, Keys, NewEvent;
    if after == [] {
      NoKeys(keys);
    } else {
      var n := |after| - 1;
      NewKeys(keys, before, after[..n], all);
      ApplyConcat(keys, NewEvents(before, after[..n], all), NewEvent(before, after[n], all));
      NewKey(keys + Keys(after[..n]), before, after[n], all);
      KeysAppend(after[..n], after[n]);
      assert after == after[..n] + [after[n]];
    }
  }

  lemma ApplyOne(keys: set<string>, events: seq<Event>)
    requires |events| <= 1
    ensures Apply(keys, events) == if events == [] then keys else Effect(keys, events[0])
  {
    if events != [] { assert events[..0] == []; }
  }

  lemma GoneKey(keys: set<string>, inc: Incident, after: seq<Incident>)
    ensures Apply(keys, GoneEvent(inc, after)) == keys - ({inc.key} - Keys(after))
  {
    FindIsKey(after, inc.key);
    ApplyOne(keys, GoneEvent(inc, after));
  }

  lemma {:induction false} GoneKeys(keys: set<string>, before: seq<Incident>, after: seq<Incident>)
    ensures Apply(keys, GoneEvents(before, after)) == keys - (Keys(before) - Keys(after))
  {
    hide Apply, Keys, GoneEvent;
    if before == [] {
      NoKeys(keys);
    } else {
      var n := |before| - 1;
      GoneKeys(keys, before[..n], after);
      ApplyConcat(keys, GoneEvents(before[..n], after), GoneEvent(before[n], after));
      GoneKey(keys - (Keys(before[..n]) - Keys(after)), before[n], after);
      KeysAppend(before[..n], before[n]);
      assert before == before[..n] + [before[n]];
    }
  }

  /** Events about components or the indicator touch no incident. */
  lemma {:induction false} OtherEvents(keys: set<string>, events: seq<Event>)
    requires forall i :: 0 <= i < |events| ==> !events[i].Opened? && !events[i].Resolved?
    ensures Apply(keys, events) == keys
  {
    if events != [] { OtherEvents(keys, events[..|events| - 1]); }
  }

  lemma {:induction false} ComponentEventsOnly(before: seq<Component>, after: seq<Component>)
    ensures forall i :: 0 <= i < |ComponentEvents(before, after)| ==>
      ComponentEvents(before, after)[i].ComponentRecovered? || ComponentEvents(before, after)[i].ComponentDegraded?
  {
    if after != [] { ComponentEventsOnly(before, after[..|after| - 1]); }
  }

  lemma IncidentsExact(before: seq<Incident>, after: seq<Incident>, all: bool)
    ensures Apply(Keys(before), NewEvents(IncidentDict(before), IncidentDict(after), all)
                                + GoneEvents(IncidentDict(before), IncidentDict(after))) == Keys(after)
  {
    var keys := Keys(before);
    var a, b := IncidentDict(before), IncidentDict(after);
    DictKeys(before);
    DictKeys(after);
    NewKeys(keys, a, b, all);
    ApplyConcat(keys, NewEvents(a, b, all), GoneEvents(a, b));
    GoneKeys(keys + Keys(b), a, b);
  }

  /** A diff is exact about incidents: applied to the old keys it gives the new ones. */
  lemma DiffIsExact(o: Snapshot, s: Snapshot, all: bool)
    ensures Apply(Keys(o.incidents), Diff(Some(o), s, all)) == Keys(s.incidents)
  {
    hide NewEvents, GoneEvents, ComponentEvents, Apply, Keys, IncidentDict, ComponentDict;
    var a, b := IncidentDict(o.incidents), IncidentDict(s.incidents);
    var incidents := NewEvents(a, b, all) + GoneEvents(a, b);
    var others := ComponentEvents(ComponentDict(o.components), ComponentDict(s.components));
    var last := IndicatorEvents(o.indicator, s.indicator, incidents + others != []);
    IncidentsExact(o.incidents, s.incidents, all);
    ComponentEventsOnly(ComponentDict(o.components), ComponentDict(s.components));
    ApplyConcat(Keys(o.incidents), incidents, others);
    ApplyConcat(Keys(o.incidents), incidents + others, last);
    OtherEvents(Keys(s.incidents), others);
    OtherEvents(Keys(s.incidents), last);
    assert Diff(Some(o), s, all) == incidents + others + last;
    hide Diff;
  }

  lemma {:induction false} OpenedInNew(before: seq<Incident>, after: seq<Incident>, all: bool, x: Incident)
    ensures Opened(x) in NewEvents(before, after, all) <==> x in after && x.key !in Keys(before)
    ensures Resolved(x) !in NewEvents(before, after, all)
  {
    if after != [] {
      var n := |after| - 1;
      OpenedInNew(before, after[..n], all, x);
      FindIsKey(before, after[n].key);
      hide Keys, FindIncident;
      assert x in after <==> x in after[..n] || x == after[n];
    }
  }

  lemma {:induction false} ResolvedInGone(before: seq<Incident>, after: seq<Incident>, x: Incident)
    ensures Resolved(x) in GoneEvents(before, after) <==> x in before && x.key !in Keys(after)
    ensures Opened(x) !in GoneEvents(before, after)
  {
    if before != [] {
      var n := |before| - 1;
      ResolvedInGone(before[..n], after, x);
      FindIsKey(after, before[n].key);
    }
  }

  lemma InSum(a: seq<Event>, b: seq<Event>, c: seq<Event>, d: seq<Event>, e: Event)
    requires e !in c && e !in d
    ensures e in a + b + c + d <==> e in a || e in b
  {}

  /** A diff opens exactly the incidents whose key is new and resolves exactly those whose key is gone. */
  lemma DiffOpensAndResolves(o: Snapshot, s: Snapshot, all: bool, x: Incident)
    ensures Opened(x) in Diff(Some(o), s, all) <==> x in IncidentDict(s.incidents) && x.key !in Keys(o.incidents)
    ensures Resolved(x) in Diff(Some(o), s, all) <==> x in IncidentDict(o.incidents) && x.key !in Keys(s.incidents)
  {
    var a, b := IncidentDict(o.incidents), IncidentDict(s.incidents);
    var p, q := NewEvents(a, b, all), GoneEvents(a, b);
    var others := ComponentEvents(ComponentDict(o.components), ComponentDict(s.components));
    var last := IndicatorEvents(o.indicator, s.indicator, p + q + others != []);
    assert Diff(Some(o), s, all) == p + q + others + last;
    ComponentEventsOnly(ComponentDict(o.components), ComponentDict(s.components));
    InSum(p, q, others, last, Opened(x));
    InSum(p, q, others, last, Resolved(x));
    OpenedAndGone(o.incidents, s.incidents, all, x);
  }

  lemma OpenedAndGone(before: seq<Incident>, after: seq<Incident>, all: bool, x: Incident)
    ensures var a, b := IncidentDict(before), IncidentDict(after);
            && (Opened(x) in NewEvents(a, b, all) <==> x in b && x.key !in Keys(before)) && Opened(x) !in GoneEvents(a, b)
            && (Resolved(x) in GoneEvents(a, b) <==> x in a && x.key !in Keys(after)) && Resolved(x) !in NewEvents(a, b, all)
  {
    DictKeys(before);
    DictKeys(after);
    OpenedInNew(IncidentDict(before), IncidentDict(after), all, x);
    ResolvedInGone(IncidentDict(before), IncidentDict(after), x);
  }

  /** Silence means no change of incidents. */
  lemma QuietDiff(o: Snapshot, s: Snapshot, all: bool)
    requires Diff(Some(o), s, all) == []
    ensures Keys(o.incidents) == Keys(s.incidents)
  {
    DiffIsExact(o, s, all);
  }
}
