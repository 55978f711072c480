/** The snapshot of open events that a round takes: a dict by key that loses none of them. */
module IncidentSnapshot {
  import opened Ordering
  import opened Incidents

  predicate SameKey(a: Event, b: Event) { EventKey(a) == EventKey(b) }

  lemma {:induction false} SelectOpenMember(events: seq<Event>, scope: set<Rule>, e: Event)
    ensures e in SelectOpen(events, scope) <==> e in events && e.status == Open && e.rule in scope
  {
    if events != [] {
      SelectOpenMember(events[..|events| - 1], scope, e);
    }
  }

  lemma {:induction false} SelectOpenApart(events: seq<Event>, scope: set<Rule>)
    requires OneOpen(events)
    ensures Apart(SelectOpen(events, scope), SameKey)
  {
    if events != [] {
      var n := |events| - 1;
      SelectOpenApart(events[..n], scope);
      var rest := SelectOpen(events[..n], scope);
      forall i | 0 <= i < |rest|
        ensures events[n].status == Open ==> EventKey(rest[i]) != EventKey(events[n])
      {
        SelectOpenMember(events[..n], scope, rest[i]);
      }
    }
  }

  lemma {:induction false} PutNewKey(dict: seq<Event>, e: Event)
    requires forall i :: 0 <= i < |dict| ==> EventKey(dict[i]) != EventKey(e)
    ensures Put(dict, e) == dict + [e]
  {
    if dict != [] { PutNewKey(dict[1..], e); }
  }

  lemma {:induction false} DictApart(rows: seq<Event>)
    requires Apart(rows, SameKey)
    ensures Dict(rows) == rows
  {
    if rows != [] {
      var n := |rows| - 1;
      DictApart(rows[..n]);
      PutNewKey(rows[..n], rows[n]);
    }
  }

  lemma OpenApart(events: seq<Event>, scope: set<Rule>)
    requires OneOpen(events)
    ensures Apart(OpenByKey(events, scope), SameKey)
  {
    SelectOpenApart(events, scope);
    SortApart(SelectOpen(events, scope), ByTs, SameKey);
    DictApart(Sort(SelectOpen(events, scope), ByTs));
  }

  /** While no key is open twice, `open_by_key` holds exactly the open rows in scope. */
  lemma OpenByKeyMember(events: seq<Event>, scope: set<Rule>, e: Event)
    requires OneOpen(events)
    ensures e in OpenByKey(events, scope) <==> e in events && e.status == Open && e.rule in scope
  {
    SelectOpenApart(events, scope);
    SortApart(SelectOpen(events, scope), ByTs, SameKey);
    DictApart(Sort(SelectOpen(events, scope), ByTs));
    SortMember(SelectOpen(events, scope), ByTs, e);
    SelectOpenMember(events, scope, e);
  }

  /** And in order of time, so recoveries are sent oldest first. */
  lemma OpenByKeyInOrder(events: seq<Event>, scope: set<Rule>, i: nat, j: nat)
    requires OneOpen(events) && i < j < |OpenByKey(events, scope)|
    ensures OpenByKey(events, scope)[i].ts <= OpenByKey(events, scope)[j].ts
  {
    var rows := SelectOpen(events, scope);
    SelectOpenApart(events, scope);
    SortApart(rows, ByTs, SameKey);
    DictApart(Sort(rows, ByTs));
    assert TotalPreorder(ByTs);
    SortSorted(rows, ByTs);
    assert ByTs(Sort(rows, ByTs)[i], Sort(rows, ByTs)[j]);
  }

  lemma HasKeyIsOpen(events: seq<Event>, scope: set<Rule>, key: Key)
    requires OneOpen(events) && key.0 in scope
    ensures HasKey(OpenByKey(events, scope), key) <==> IsOpen(events, key)
  {
    var open := OpenByKey(events, scope);
    if i :| 0 <= i < |open| && EventKey(open[i]) == key {
      OpenByKeyMember(events, scope, open[i]);
    }
    if i :| 0 <= i < |events| && events[i].status == Open && EventKey(events[i]) == key {
      OpenByKeyMember(events, scope, events[i]);
    }
  }
}
