/** The literal layer of log redaction: known secrets are replaced by a placeholder, longest first,
    and exactly which secrets can never show up in the result. */
module Redact {
  import opened Ordering

  const PLACEHOLDER := "\U{00AB}redacted\U{00BB}"
  const MIN_SECRET_LEN := 6

  ghost predicate OccursAt(t: string, x: string, i: nat) {
    i + |t| <= |x| && x[i..i + |t|] == t
  }

  ghost predicate Occurs(t: string, x: string) {
    exists i :: OccursAt(t, x, i)
  }

  /** `str.replace`: every leftmost occurrence that does not overlap an earlier one. */
  function Replace(x: string, s: string): string
    requires s != ""
  {
    if |x| < |s| then x
    else if x[..|s|] == s then PLACEHOLDER + Replace(x[|s|..], s)
    else [x[0]] + Replace(x[1..], s)
  }

  /** `str.count`. */
  function Count(x: string, s: string): nat
    requires s != ""
  {
    if |x| < |s| then 0
    else if x[..|s|] == s then 1 + Count(x[|s|..], s)
    else Count(x[1..], s)
  }

  function RedactAll(x: string, secrets: seq<string>): string
    requires "" !in secrets
  {
    if secrets == [] then x
    else Replace(RedactAll(x, secrets[..|secrets| - 1]), secrets[|secrets| - 1])
  }

  // ---- The secrets, as the source orders them ----

  predicate LongerFirst(a: string, b: string) { |a| >= |b| }

  function Eligible(secrets: seq<string>): seq<string> {
    if secrets == [] then []
    else
      var n := |secrets| - 1;
      var rest := Eligible(secrets[..n]);
      if |secrets[n]| >= MIN_SECRET_LEN && secrets[n] !in rest then rest + [secrets[n]] else rest
  }

  function Uniq(secrets: seq<string>): seq<string> { Sort(Eligible(secrets), LongerFirst) }

  lemma {:induction false} EligibleMember(secrets: seq<string>, s: string)
    ensures s in Eligible(secrets) <==> s in secrets && |s| >= MIN_SECRET_LEN
  {
    if secrets != [] { EligibleMember(secrets[..|secrets| - 1], s); }
  }

  lemma UniqMember(secrets: seq<string>, s: string)
    ensures s in Uniq(secrets) <==> s in secrets && |s| >= MIN_SECRET_LEN
  {
    SortMember(Eligible(secrets), LongerFirst, s);
    EligibleMember(secrets, s);
  }

  function Total(x: string, secrets: seq<string>): nat
    requires "" !in secrets
  {
    if secrets == [] then 0
    else
      var n := |secrets| - 1;
      Total(x, secrets[..n]) + Count(RedactAll(x, secrets[..n]), secrets[n])
  }

  method RedactText(text: string, secrets: seq<string>) returns (out: string, count: nat)
    ensures "" !in Uniq(secrets)
    ensures out == RedactAll(text, Uniq(secrets)) && count == Total(text, Uniq(secrets))
    ensures count == 0 ==> out == text
    ensures forall s :: s in secrets && |s| >= 6 && !Touches(s) ==> !Occurs(s, out)
  {
    UniqMember(secrets, "");
    out, count := text, 0;
    var uniq := Uniq(secrets);
    for i := 0 to |uniq|
      invariant "" !in uniq && out == RedactAll(text, uniq[..i]) && count == Total(text, uniq[..i])
      invariant count == 0 ==> out == text
    {
      assert uniq[..i + 1][..i] == uniq[..i];
      assert uniq[i] in uniq;
      var hits := Count(out, uniq[i]);
      if hits > 0 {
        out := Replace(out, uniq[i]);
        count := count + hits;
      } else {
        NoHits(out, uniq[i]);
      }
    }
    assert uniq[..|uniq|] == uniq;
    forall s | s in secrets && |s| >= 6 && !Touches(s) ensures !Occurs(s, out) {
      UniqMember(secrets, s);
      NeverSurvives(text, uniq, s);
    }
  }

  // ---- What a replacement is ----

  function JoinWith(pieces: seq<string>, separator: string): string
    requires pieces != []
  {
    if |pieces| == 1 then pieces[0] else pieces[0] + separator + JoinWith(pieces[1..], separator)
  }

  /** The secret begins nowhere in a piece, neither alone nor with the secret that follows. */
  ghost predicate Cuts(pieces: seq<string>, s: string)
    requires pieces != []
  {
    && (forall k, i :: 0 <= k < |pieces| - 1 && 0 <= i < |pieces[k]| ==> !OccursAt(s, pieces[k] + s, i))
    && !Occurs(s, pieces[|pieces| - 1])
  }

  lemma CutShort(x: string, s: string)
    requires |x| < |s|
    ensures Cuts([x], s)
  {}

  lemma CutHere(rest: seq<string>, s: string)
    requires rest != [] && Cuts(rest, s)
    ensures Cuts([""] + rest, s)
  {
    var pieces := [""] + rest;
    forall k, i | 0 <= k < |pieces| - 1 && 0 <= i < |pieces[k]| ensures !OccursAt(s, pieces[k] + s, i) {
      assert k > 0 && pieces[k] == rest[k - 1];
    }
  }

  lemma CutAtEnd(x: string, s: string)
    requires s != "" && |x| >= |s| && x[..|s|] != s && !Occurs(s, x[1..])
    ensures Cuts([x], s)
  {
    forall i: nat ensures !OccursAt(s, x, i) {
      if i > 0 && OccursAt(s, x, i) {
        assert x[1..][i - 1..i - 1 + |s|] == x[i..i + |s|];
        assert OccursAt(s, x[1..], i - 1);
      }
    }
  }

  /** One more character before a piece, unless the secret begins there. */
  lemma PieceLonger(first: string, piece: string, s: string)
    requires first != "" && first[1..] == piece && (first + s)[..|s|] != s
    requires forall i :: 0 <= i < |piece| ==> !OccursAt(s, piece + s, i)
    ensures forall i :: 0 <= i < |first| ==> !OccursAt(s, first + s, i)
  {
    forall i | 0 <= i < |first| ensures !OccursAt(s, first + s, i) {
      if i > 0 {
        assert (first + s)[i..i + |s|] == (piece + s)[i - 1..i - 1 + |s|];
        assert !OccursAt(s, piece + s, i - 1);
      }
    }
  }

  lemma CutLater(first: string, rest: seq<string>, s: string)
    requires first != "" && |rest| >= 2 && first[1..] == rest[0] && (first + s)[..|s|] != s && Cuts(rest, s)
    ensures Cuts([first] + rest[1..], s)
  {
    var pieces := [first] + rest[1..];
    assert forall i :: 0 <= i < |rest[0]| ==> !OccursAt(s, rest[0] + s, i);
    PieceLonger(first, rest[0], s);
    forall k, i | 0 <= k < |pieces| - 1 && 0 <= i < |pieces[k]| ensures !OccursAt(s, pieces[k] + s, i) {
      if k > 0 { assert pieces[k] == rest[k]; }
    }
    assert pieces[|pieces| - 1] == rest[|rest| - 1];
  }

  lemma JoinLonger(c: char, rest: seq<string>, separator: string)
    requires rest != []
    ensures JoinWith([[c] + rest[0]] + rest[1..], separator) == [c] + JoinWith(rest, separator)
  {
    var pieces := [[c] + rest[0]] + rest[1..];
    assert pieces[1..] == rest[1..];
    if |rest| > 1 {
      var tail := separator + JoinWith(rest[1..], separator);
      assert JoinWith(rest, separator) == rest[0] + tail;
      assert JoinWith(pieces, separator) == ([c] + rest[0]) + tail;
    }
  }

  lemma JoinEmpty(rest: seq<string>, separator: string)
    requires rest != []
    ensures JoinWith([""] + rest, separator) == separator + JoinWith(rest, separator)
  {
    assert ([""] + rest)[1..] == rest;
  }

  lemma StartsWith(x: string, piece: string, s: string, tail: string)
    requires x != "" && x[1..] == piece + s + tail && |x| >= |s|
    ensures ([x[0]] + piece + s)[..|s|] == x[..|s|]
  {
    var first := [x[0]] + piece + s;
    forall k | 0 <= k < |s| ensures first[k] == x[k] { if k > 0 { assert x[1..][k - 1] == (piece + s)[k - 1]; } }
  }

  lemma CutsLonger(x: string, rest: seq<string>, s: string)
    requires s != "" && |x| >= |s| && x[..|s|] != s && rest != [] && Cuts(rest, s) && x[1..] == JoinWith(rest, s)
    ensures Cuts([[x[0]] + rest[0]] + rest[1..], s)
  {
    var first := [x[0]] + rest[0];
    assert first[1..] == rest[0];
    if |rest| == 1 {
      assert first == x && [first] + rest[1..] == [x];
      CutAtEnd(x, s);
    } else {
      StartsWith(x, rest[0], s, JoinWith(rest[1..], s));
      hide Cuts, JoinWith;
      CutLater(first, rest, s);
    }
  }

  /** A replacement cuts the text at the occurrences of the secret, from the left, and joins the pieces, all of
      them unchanged, by the placeholder; the count is that of the cuts. */
  lemma {:induction false} ReplaceMeans(x: string, s: string) returns (pieces: seq<string>)
    requires s != ""
    ensures |pieces| == Count(x, s) + 1 && Cuts(pieces, s)
    ensures x == JoinWith(pieces, s) && Replace(x, s) == JoinWith(pieces, PLACEHOLDER)
  {
    if |x| < |s| {
      pieces := [x];
      CutShort(x, s);
    } else if x[..|s|] == s {
      var rest := ReplaceMeans(x[|s|..], s);
      pieces := [""] + rest;
      hide Cuts, JoinWith;
      CutHere(rest, s);
      JoinEmpty(rest, s);
      JoinEmpty(rest, PLACEHOLDER);
      assert x == s + x[|s|..];
    } else {
      var rest := ReplaceMeans(x[1..], s);
      pieces := [[x[0]] + rest[0]] + rest[1..];
      CutsLonger(x, rest, s);
      hide Cuts, JoinWith;
      JoinLonger(x[0], rest, s);
      JoinLonger(x[0], rest, PLACEHOLDER);
      assert x == [x[0]] + x[1..];
    }
  }

  // ---- A replacement without hits ----

  lemma {:induction false} NoHits(x: string, s: string)
    requires s != "" && Count(x, s) == 0
    ensures Replace(x, s) == x
    decreases |x|
  {
    if |x| >= |s| && x[..|s|] != s { NoHits(x[1..], s); }
  }

  lemma {:induction false} NotThere(x: string, s: string)
    requires s != "" && !Occurs(s, x)
    ensures Replace(x, s) == x && Count(x, s) == 0
    decreases |x|
  {
    if |x| >= |s| {
      assert !OccursAt(s, x, 0);
      if Occurs(s, x[1..]) { FoundBehind(x, s, 1); }
      NotThere(x[1..], s);
    }
  }

  // ---- Which secrets the placeholder can touch ----

  /** Shifted by d, the secret and the placeholder agree wherever they overlap. */
  ghost predicate TouchesAt(t: string, d: int) {
    && -|t| < d < |PLACEHOLDER|
    && forall j :: 0 <= j < |t| && 0 <= d + j < |PLACEHOLDER| ==> t[j] == PLACEHOLDER[d + j]
  }

  /** The secret shares some part with the placeholder: it occurs in it, contains it, or starts or ends
      with its end or start. */
  ghost predicate Touches(t: string) {
    exists d :: TouchesAt(t, d)
  }

  /** The source's everyday secrets do not: those without guillemets that are no part of the word. */
  lemma OrdinarySecrets(t: string)
    requires t != "" && PLACEHOLDER[0] !in t && PLACEHOLDER[|PLACEHOLDER| - 1] !in t && !Occurs(t, "redacted")
    ensures !Touches(t)
  {
    var last := |PLACEHOLDER| - 1;
    var word := PLACEHOLDER[1..last];
    assert word == "redacted";
    forall d | -|t| < d < |PLACEHOLDER| ensures !TouchesAt(t, d) {
      if d <= 0 {
        assert t[-d] in t;
      } else if d + |t| > last {
        assert t[last - d] in t;
      } else {
        var e := d - 1;
        assert !OccursAt(t, word, e);
        var j :| 0 <= j < |t| && word[e..e + |t|][j] != t[j];
        assert t[j] != PLACEHOLDER[d + j];
      }
    }
  }

  /** The start of a replaced text is that of the text, unless a placeholder begins there. */
  lemma {:induction false} PrefixOrPlaceholder(x: string, s: string, k: nat)
    requires s != "" && k <= |Replace(x, s)|
    ensures (k <= |x| && Replace(x, s)[..k] == x[..k])
         || (exists j: nat :: j < k && OccursAt(PLACEHOLDER, Replace(x, s), j))
    decreases |x|
  {
    var y := Replace(x, s);
    if |x| < |s| || k == 0 {
    } else if x[..|s|] == s {
      assert OccursAt(PLACEHOLDER, y, 0);
    } else {
      var y' := Replace(x[1..], s);
      assert y == [x[0]] + y' && y[1..] == y';
      PrefixOrPlaceholder(x[1..], s, k - 1);
      if j: nat :| j < k - 1 && OccursAt(PLACEHOLDER, y', j) {
        assert OccursAt(PLACEHOLDER, y, j + 1);
      } else {
        assert y[..k] == [x[0]] + y'[..k - 1];
      }
    }
  }

  lemma TouchFromLeft(t: string, y: string, j: nat)
    requires OccursAt(t, y, 0) && OccursAt(PLACEHOLDER, y, j) && j < |t|
    ensures Touches(t)
  {
    var d: int := 0 - j;
    forall m | 0 <= m < |t| && 0 <= d + m < |PLACEHOLDER| ensures t[m] == PLACEHOLDER[d + m] {
      assert t[m] == y[0..|t|][m] && PLACEHOLDER[d + m] == y[j..j + |PLACEHOLDER|][d + m];
    }
    assert TouchesAt(t, d);
  }

  lemma TouchFromRight(t: string, y: string, i: nat)
    requires t != "" && OccursAt(t, PLACEHOLDER + y, i) && i < |PLACEHOLDER|
    ensures Touches(t)
  {
    var z := PLACEHOLDER + y;
    forall j | 0 <= j < |t| && 0 <= i + j < |PLACEHOLDER| ensures t[j] == PLACEHOLDER[i + j] {
      assert t[j] == z[i..i + |t|][j] == z[i + j];
    }
    assert TouchesAt(t, i);
  }

  /** An occurrence in the second half of a text is one in the whole text, and the other way round. */
  lemma OccursBehind(t: string, head: string, tail: string, i: nat)
    ensures OccursAt(t, tail, i) <==> OccursAt(t, head + tail, |head| + i)
  {
    if i + |t| <= |tail| {
      var x := head + tail;
      assert x[|head| + i..|head| + i + |t|] == tail[i..i + |t|];
    }
  }

  lemma StartsUntouched(x: string, s: string, t: string)
    requires s != "" && !Touches(t) && OccursAt(t, Replace(x, s), 0)
    ensures OccursAt(t, x, 0)
  {
    var y := Replace(x, s);
    PrefixOrPlaceholder(x, s, |t|);
    forall j: nat | j < |t| ensures !OccursAt(PLACEHOLDER, y, j) {
      if OccursAt(PLACEHOLDER, y, j) {
        TouchFromLeft(t, y, j);
      }
    }
  }

  /** A replacement never creates an occurrence of a secret the placeholder does not touch, and leaves
      none of the secret it replaces. */
  lemma {:induction false} NeverCreated(x: string, s: string, t: string, i: nat)
    requires s != "" && t != "" && !Touches(t)
    requires OccursAt(t, Replace(x, s), i)
    ensures Occurs(t, x) && t != s
    decreases |x|
  {
    if |x| < |s| {
      assert OccursAt(t, x, i);
    } else if x[..|s|] == s {
      CreatedBehindHit(x, s, t, i);
      NeverCreated(x[|s|..], s, t, i - |PLACEHOLDER|);
      FoundBehind(x, t, |s|);
    } else if i > 0 {
      OccursBehind(t, [x[0]], Replace(x[1..], s), i - 1);
      NeverCreated(x[1..], s, t, i - 1);
      FoundBehind(x, t, 1);
    } else {
      StartsUntouched(x, s, t);
    }
  }

  lemma CreatedBehindHit(x: string, s: string, t: string, i: nat)
    requires s != "" && t != "" && !Touches(t) && |x| >= |s| && x[..|s|] == s
    requires OccursAt(t, Replace(x, s), i)
    ensures i >= |PLACEHOLDER| && OccursAt(t, Replace(x[|s|..], s), i - |PLACEHOLDER|)
  {
    var y := Replace(x[|s|..], s);
    if i < |PLACEHOLDER| {
      TouchFromRight(t, y, i);
    } else {
      OccursBehind(t, PLACEHOLDER, y, i - |PLACEHOLDER|);
    }
  }

  lemma FoundBehind(x: string, t: string, n: nat)
    requires n <= |x| && Occurs(t, x[n..])
    ensures Occurs(t, x)
  {
    var k: nat :| OccursAt(t, x[n..], k);
    assert x == x[..n] + x[n..];
    OccursBehind(t, x[..n], x[n..], k);
  }

  /** A secret the placeholder does not touch never survives, in whatever order and company it is
      redacted: later replacements do not bring it back. */
  lemma {:induction false} NeverSurvives(x: string, secrets: seq<string>, t: string)
    requires "" !in secrets && t in secrets && !Touches(t)
    ensures !Occurs(t, RedactAll(x, secrets))
  {
    var n := |secrets| - 1;
    var before := RedactAll(x, secrets[..n]);
    assert secrets[n] in secrets;
    if t in secrets[..n] { NeverSurvives(x, secrets[..n], t); }
    forall i: nat ensures !OccursAt(t, RedactAll(x, secrets), i) {
      if OccursAt(t, RedactAll(x, secrets), i) { NeverCreated(before, secrets[n], t, i); }
    }
  }

  /** A second pass changes nothing. */
  lemma {:induction false} SecondPassIdle(x: string, secrets: seq<string>, k: nat)
    requires "" !in secrets && k <= |secrets|
    requires forall t :: t in secrets ==> !Touches(t)
    ensures RedactAll(RedactAll(x, secrets), secrets[..k]) == RedactAll(x, secrets)
    decreases k
  {
    if k > 0 {
      SecondPassIdle(x, secrets, k - 1);
      assert secrets[..k][..k - 1] == secrets[..k - 1];
      assert secrets[k - 1] in secrets;
      NeverSurvives(x, secrets, secrets[k - 1]);
      NotThere(RedactAll(x, secrets), secrets[k - 1]);
    }
  }

  lemma RedactTwice(x: string, secrets: seq<string>)
    requires "" !in secrets && forall t :: t in secrets ==> !Touches(t)
    ensures RedactAll(RedactAll(x, secrets), secrets) == RedactAll(x, secrets)
  {
    SecondPassIdle(x, secrets, |secrets|);
    assert secrets[..|secrets|] == secrets;
  }

  // ---- Why the longest comes first ----

  lemma TooLong(x: string, s: string)
    requires s != "" && |s| >= |x| && s != x
    ensures Replace(x, s) == x
  {
    if |s| == |x| { assert x[..|s|] == x; }
  }

  lemma PlaceholderStays(s: string)
    requires s != "" && !Touches(s)
    ensures Replace(PLACEHOLDER, s) == PLACEHOLDER
  {
    forall i: nat ensures !OccursAt(s, PLACEHOLDER, i) {
      if OccursAt(s, PLACEHOLDER, i) {
        assert PLACEHOLDER == PLACEHOLDER + "";
        TouchFromRight(s, "", i);
      }
    }
    NotThere(PLACEHOLDER, s);
  }

  lemma {:induction false} WholeOrGone(secrets: seq<string>, t: string)
    requires "" !in secrets && t != "" && Sorted(secrets, LongerFirst)
    requires forall s :: s in secrets ==> !Touches(s)
    ensures RedactAll(t, secrets) == if t in secrets then PLACEHOLDER
                                     else if forall s :: s in secrets ==> |s| >= |t| then t else RedactAll(t, secrets)
  {
    if secrets != [] {
      var n := |secrets| - 1;
      var s := secrets[n];
      assert s in secrets && (forall r :: r in secrets[..n] ==> r in secrets);
      WholeOrGone(secrets[..n], t);
      if t in secrets[..n] {
        PlaceholderStays(s);
      } else if s == t {
        assert t[..|t|] == t && t[|t|..] == "";
        assert Replace(t, t) == PLACEHOLDER + "" == PLACEHOLDER;
      } else if |s| >= |t| {
        TooLong(t, s);
      }
    }
  }

  /** A secret in the text is replaced as a whole, even if shorter secrets are part of it: nothing of it
      is left beside the placeholder. */
  lemma SecretIsOnePlaceholder(secrets: seq<string>, t: string)
    requires t in secrets && |t| >= 6
    requires forall s :: s in Uniq(secrets) ==> !Touches(s)
    ensures "" !in Uniq(secrets) && RedactAll(t, Uniq(secrets)) == PLACEHOLDER
  {
    UniqMember(secrets, "");
    UniqMember(secrets, t);
    assert TotalPreorder(LongerFirst);
    SortSorted(Eligible(secrets), LongerFirst);
    WholeOrGone(Uniq(secrets), t);
  }

  lemma HasOther(t: string, x: string, k: nat)
    requires k < |t| && t[k] !in x
    ensures !Occurs(t, x)
  {
    forall i: nat | i + |t| <= |x| ensures !OccursAt(t, x, i) {
      assert x[i..i + |t|][k] == x[i + k];
    }
  }

  /** In the other order a part of the longer secret stays. */
  lemma ShorterFirstLeaks()
    ensures RedactAll("abcdefgh", ["abcdef", "abcdefgh"]) == PLACEHOLDER + "gh"
    ensures !Touches("abcdef") && !Touches("abcdefgh")
  {
    var x, s, t := "abcdefgh", "abcdef", "abcdefgh";
    assert [s, t][..1] == [s] && [s][..0] == [];
    assert x[..6] == s && x[6..] == "gh";
    assert RedactAll(x, [s]) == Replace(x, s) == PLACEHOLDER + "gh";
    HasOther(t, PLACEHOLDER + "gh", 1);
    NotThere(PLACEHOLDER + "gh", t);
    NeitherTouches();
  }

  lemma NeitherTouches()
    ensures !Touches("abcdef") && !Touches("abcdefgh")
  {
    HasOther("abcdef", "redacted", 1);
    HasOther("abcdefgh", "redacted", 1);
    OrdinarySecrets("abcdef");
    OrdinarySecrets("abcdefgh");
  }

  // ---- The condition is exact ----

  function Repeat(z: char, n: nat): string { seq(n, i => z) }

  lemma ContextOf(t: string, d: int) returns (a: string, b: string)
    requires t != "" && TouchesAt(t, d)
    ensures Occurs(t, a + PLACEHOLDER + b) && |a| < |t| && |b| < |t|
    ensures (forall c :: c in a ==> c in t) && (forall c :: c in b ==> c in t)
  {
    var n := |PLACEHOLDER|;
    a := if d < 0 then t[..-d] else "";
    b := if n - d < |t| then t[n - d..] else "";
    var all := a + PLACEHOLDER + b;
    var i := if d < 0 then 0 else d;
    forall j | 0 <= j < |t| ensures i + j < |all| && all[i + j] == t[j] {
      if d + j < 0 { assert all[j] == a[j]; }
      else if d + j < n { assert all[i + j] == PLACEHOLDER[d + j]; }
      else { assert all[i + j] == b[d + j - n]; }
    }
    assert all[i..i + |t|] == t;
    assert OccursAt(t, all, i);
  }

  lemma {:induction false} ReplaceOnce(a: string, b: string, z: char)
    requires z !in a && z !in b
    ensures Replace(a + Repeat(z, 6) + b, Repeat(z, 6)) == a + PLACEHOLDER + b
    decreases |a|
  {
    var s := Repeat(z, 6);
    var x := a + s + b;
    assert |s| == 6 && s[0] == z;
    hide Repeat;
    if a == "" {
      assert x[..6] == s && x[6..] == b;
      HasOther(s, b, 0);
      NotThere(b, s);
      assert a + PLACEHOLDER + b == PLACEHOLDER + b;
    } else {
      assert x[..6][0] == a[0] != s[0];
      assert x[1..] == a[1..] + s + b;
      ReplaceOnce(a[1..], b, z);
      assert [a[0]] + (a[1..] + PLACEHOLDER + b) == a + PLACEHOLDER + b;
    }
  }

  lemma NotAcross(t: string, a: string, b: string, z: char)
    requires z !in t && |a| < |t| && |b| < |t|
    ensures !Occurs(t, a + Repeat(z, 6) + b)
  {
    var x := a + Repeat(z, 6) + b;
    forall i: nat | i + |t| <= |x| ensures !OccursAt(t, x, i) {
      if i <= |a| {
        assert x[i..i + |t|][|a| - i] == z != t[|a| - i];
      } else {
        assert x[i..i + |t|][0] == z != t[0];
      }
    }
  }

  /** A secret the placeholder touches can be recreated by redacting another, shorter one after it: the
      condition cannot be weakened. `z` is any character the secret does not contain. */
  lemma TouchedSurvives(t: string, z: char) returns (x: string, secrets: seq<string>)
    requires Touches(t) && |t| >= MIN_SECRET_LEN && z !in t
    ensures t in secrets && "" !in secrets && Sorted(secrets, LongerFirst)
    ensures forall s :: s in secrets ==> |s| >= 6
    ensures Occurs(t, RedactAll(x, secrets))
  {
    var d :| TouchesAt(t, d);
    var a, b := ContextOf(t, d);
    var s := Repeat(z, 6);
    secrets := [t, s];
    x := a + s + b;
    NotAcross(t, a, b, z);
    NotThere(x, t);
    ReplaceOnce(a, b, z);
    assert secrets[..1] == [t] && [t][..0] == [];
    assert RedactAll(x, [t]) == Replace(RedactAll(x, []), t) == x;
    assert RedactAll(x, secrets) == Replace(x, s);
  }

  /** What a pass may be given together with t: several secrets of full length, longest first. */
  ghost predicate AmongSecrets(t: string, secrets: seq<string>) {
    && t in secrets && Sorted(secrets, LongerFirst)
    && (forall s :: s in secrets ==> |s| >= 6)
  }

  /** One pass over x with these secrets removes t. */
  ghost predicate Removes(x: string, secrets: seq<string>, t: string) {
    "" !in secrets && !Occurs(t, RedactAll(x, secrets))
  }

  /** So a secret is safe in every text and in every company exactly if the placeholder does not touch
      it. */
  lemma SafeIffUntouched(t: string, z: char)
    requires |t| >= MIN_SECRET_LEN && z !in t
    ensures (forall x, secrets :: AmongSecrets(t, secrets) ==> Removes(x, secrets, t))
        <==> !Touches(t)
  {
    if Touches(t) {
      var x, secrets := TouchedSurvives(t, z);
      assert AmongSecrets(t, secrets) && !Removes(x, secrets, t);
    } else {
      forall x, secrets | AmongSecrets(t, secrets) ensures Removes(x, secrets, t) {
        NeverSurvives(x, secrets, t);
      }
    }
  }
}
