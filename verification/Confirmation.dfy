/** Evidence for a reset, and when public evidence is independent enough to confirm one. */
module Confirmation {
  import opened Basics

  datatype Stage = Hint | Announced | Delayed | Confirmed
  datatype ResetType = Direct | Banked

  datatype Evidence = Evidence(
    sourceName: string, sourceFamily: string, itemId: string, stage: Stage, title: string, url: string,
    observedAt: int, resetType: Option<ResetType>, expectedStart: Option<int>, expectedEnd: Option<int>,
    official: bool, explicitCompleted: bool, localReference: bool)

  /** What a confirmation rests on; the source's text for it, or nothing. */
  datatype Basis = NoBasis | BankedIncrease | LivePost | OfficialAndLocal | IndependentRecords

  /** `canonical_from`: the post a url or item id refers to. */
  type Canonical = (string, string) -> string

  predicate IsConfirmation(e: Evidence) { e.stage == Confirmed && e.explicitCompleted }

  predicate Public(e: Evidence) { IsConfirmation(e) && !e.localReference && e.url != "" }

  predicate BankedLocal(e: Evidence) { IsConfirmation(e) && e.localReference && e.resetType == Some(Banked) }

  predicate Announcement(e: Evidence) {
    e.stage == Announced && e.official && e.resetType == Some(Direct) && e.expectedEnd.Some?
  }

  predicate OfficialCompleted(e: Evidence) { Public(e) && e.official && e.resetType == Some(Direct) }

  predicate Authoritative(e: Evidence) {
    OfficialCompleted(e) && (e.sourceName == "reset_feed" || e.sourceName == "reset_timeline") && e.title == "Live radar feed"
  }

  predicate LocalConfirmation(e: Evidence) { IsConfirmation(e) && e.localReference }

  predicate AnyOf(evidence: seq<Evidence>, p: Evidence -> bool) {
    exists i :: 0 <= i < |evidence| && p(evidence[i])
  }

  predicate Independent(a: Evidence, b: Evidence, canonical: Canonical) {
    && Public(a) && Public(b)
    && a.sourceFamily != b.sourceFamily
    && canonical(a.url, a.itemId) != canonical(b.url, b.itemId)
  }

  function ConfirmationBasis(evidence: seq<Evidence>, canonical: Canonical): Basis {
    if AnyOf(evidence, BankedLocal) then BankedIncrease
    else if AnyOf(evidence, Authoritative) then LivePost
    else if AnyOf(evidence, LocalConfirmation) && (AnyOf(evidence, Announcement) || AnyOf(evidence, OfficialCompleted))
    then OfficialAndLocal
    else if exists i, j :: 0 <= i < |evidence| && 0 <= j < |evidence| && Independent(evidence[i], evidence[j], canonical)
    then IndependentRecords
    else NoBasis
  }

  /** A completed reset, seen on an account of one's own or told in public. */
  predicate Completes(e: Evidence, seen: bool) {
    e.stage == Confirmed && e.explicitCompleted && e.localReference == seen && (seen || e.url != "")
  }

  predicate OfficialDirect(e: Evidence) { e.official && e.resetType.Some? && e.resetType.value == Direct }

  lemma AnyIn(evidence: seq<Evidence>, p: Evidence -> bool)
    ensures AnyOf(evidence, p) <==> exists e :: e in evidence && p(e)
  {}

  /** What a confirmation rests on, in this order: a balance of banked resets that rose on an account, an
      official post of the live feed that the reset is complete, a completion seen on an account together with
      an official announcement or completion, two public completions of different families and posts. */
  lemma BasisMeans(evidence: seq<Evidence>, canonical: Canonical)
    ensures var basis := ConfirmationBasis(evidence, canonical);
            var rose := exists e :: e in evidence && Completes(e, true) && e.resetType == Some(Banked);
            var live := exists e :: e in evidence && Completes(e, false) && OfficialDirect(e)
                          && e.sourceName in {"reset_feed", "reset_timeline"} && e.title == "Live radar feed";
            var seen := exists e :: e in evidence && Completes(e, true);
            var official := exists e :: e in evidence && OfficialDirect(e)
                              && (Completes(e, false) || (e.stage == Announced && e.expectedEnd != None));
            var apart := exists a, b :: a in evidence && b in evidence && Completes(a, false) && Completes(b, false)
                           && a.sourceFamily != b.sourceFamily && canonical(a.url, a.itemId) != canonical(b.url, b.itemId);
            && (basis == BankedIncrease <==> rose)
            && (basis == LivePost <==> live && !rose)
            && (basis == OfficialAndLocal <==> seen && official && !rose && !live)
            && (basis == IndependentRecords <==> apart && !rose && !live && !(seen && official))
  {
    AnyIn(evidence, BankedLocal);
    AnyIn(evidence, Authoritative);
    AnyIn(evidence, LocalConfirmation);
    AnyIn(evidence, Announcement);
    AnyIn(evidence, OfficialCompleted);
    hide AnyOf;
  }

  // ---- What public records alone can do ----

  ghost predicate OneFamily(evidence: seq<Evidence>) {
    forall i, j :: 0 <= i < |evidence| && 0 <= j < |evidence| && Public(evidence[i]) && Public(evidence[j])
      ==> evidence[i].sourceFamily == evidence[j].sourceFamily
  }

  ghost predicate OnePost(evidence: seq<Evidence>, canonical: Canonical) {
    forall i, j :: 0 <= i < |evidence| && 0 <= j < |evidence| && Public(evidence[i]) && Public(evidence[j])
      ==> canonical(evidence[i].url, evidence[i].itemId) == canonical(evidence[j].url, evidence[j].itemId)
  }

  /** Without local or authoritative evidence, reposts never confirm: there is no basis exactly when
      all public records come from one source family or all point at one post. */
  lemma RepostsNeverConfirm(evidence: seq<Evidence>, canonical: Canonical)
    requires !AnyOf(evidence, LocalConfirmation) && !AnyOf(evidence, Authoritative)
    ensures ConfirmationBasis(evidence, canonical) == NoBasis <==> OneFamily(evidence) || OnePost(evidence, canonical)
  {
    forall i | 0 <= i < |evidence| ensures !BankedLocal(evidence[i]) {
      assert !LocalConfirmation(evidence[i]);
    }
    if !OneFamily(evidence) && !OnePost(evidence, canonical) {
      var a, b :| 0 <= a < |evidence| && 0 <= b < |evidence| && Public(evidence[a]) && Public(evidence[b])
        && evidence[a].sourceFamily != evidence[b].sourceFamily;
      var c, d :| 0 <= c < |evidence| && 0 <= d < |evidence| && Public(evidence[c]) && Public(evidence[d])
        && canonical(evidence[c].url, evidence[c].itemId) != canonical(evidence[d].url, evidence[d].itemId);
      assert Independent(evidence[a], evidence[b], canonical)
          || Independent(evidence[a], evidence[c], canonical) || Independent(evidence[a], evidence[d], canonical)
          || Independent(evidence[b], evidence[c], canonical) || Independent(evidence[b], evidence[d], canonical);
    }
  }

  // ---- More evidence never hurts ----

  ghost predicate Contains(more: seq<Evidence>, evidence: seq<Evidence>) {
    forall e :: e in evidence ==> e in more
  }

  lemma SomeGrows(evidence: seq<Evidence>, more: seq<Evidence>, p: Evidence -> bool)
    requires Contains(more, evidence) && AnyOf(evidence, p)
    ensures AnyOf(more, p)
  {
    var i :| 0 <= i < |evidence| && p(evidence[i]);
    assert evidence[i] in more;
  }

  /** Adding evidence keeps a confirmation confirmed. */
  lemma BasisGrows(evidence: seq<Evidence>, more: seq<Evidence>, canonical: Canonical)
    requires Contains(more, evidence) && ConfirmationBasis(evidence, canonical) != NoBasis
    ensures ConfirmationBasis(more, canonical) != NoBasis
  {
    match ConfirmationBasis(evidence, canonical)
    case BankedIncrease => SomeGrows(evidence, more, BankedLocal);
    case LivePost => SomeGrows(evidence, more, Authoritative);
    case OfficialAndLocal =>
      SomeGrows(evidence, more, LocalConfirmation);
      if AnyOf(evidence, Announcement) { SomeGrows(evidence, more, Announcement); }
      else { SomeGrows(evidence, more, OfficialCompleted); }
    case IndependentRecords =>
      var i, j :| 0 <= i < |evidence| && 0 <= j < |evidence| && Independent(evidence[i], evidence[j], canonical);
      assert evidence[i] in more && evidence[j] in more;
      var k :| 0 <= k < |more| && more[k] == evidence[i];
      var l :| 0 <= l < |more| && more[l] == evidence[j];
      assert Independent(more[k], more[l], canonical);
  }

  lemma AnyOfSame(a: seq<Evidence>, b: seq<Evidence>, p: Evidence -> bool)
    requires Contains(a, b) && Contains(b, a)
    ensures AnyOf(a, p) <==> AnyOf(b, p)
  {
    if AnyOf(a, p) { SomeGrows(a, b, p); }
    if AnyOf(b, p) { SomeGrows(b, a, p); }
  }

  /** The order and repetition of evidence are irrelevant: the basis is a function of the set. */
  lemma BasisUnordered(a: seq<Evidence>, b: seq<Evidence>, canonical: Canonical)
    requires Contains(a, b) && Contains(b, a)
    ensures ConfirmationBasis(a, canonical) == ConfirmationBasis(b, canonical)
  {
    AnyOfSame(a, b, BankedLocal);
    AnyOfSame(a, b, Authoritative);
    AnyOfSame(a, b, LocalConfirmation);
    AnyOfSame(a, b, Announcement);
    AnyOfSame(a, b, OfficialCompleted);
    if ConfirmationBasis(a, canonical) != NoBasis { BasisGrows(a, b, canonical); }
    if ConfirmationBasis(b, canonical) != NoBasis { BasisGrows(b, a, canonical); }
  }
}
