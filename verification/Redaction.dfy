/** Redaction of run logs: `Redactor` and the `emit` closure of `_launch`
    (installer/runner.py). */
module Redaction {
  import opened Basics

  const MASK := "[REDACTED]"

  // The string s stands in t at position i.
  ghost predicate OccursAt(s: string, t: string, i: int) {
    0 <= i <= |t| - |s| && t[i..i + |s|] == s
  }

  ghost predicate Occurs(s: string, t: string) {
    exists i :: OccursAt(s, t, i)
  }

  ghost predicate BracketFree(s: string) {
    '[' !in s && ']' !in s
  }

  // A secret that masking cannot bring back: no bracket, no part of the mask's word.
  ghost predicate Maskable(s: string) {
    s != "" && BracketFree(s) && !Occurs(s, "REDACTED")
  }

  // str.replace: leftmost occurrences, left to right, not overlapping.
  function Replace(t: string, s: string): string
    requires s != ""
    decreases |t|
  {
    if |t| < |s| then t
    else if t[..|s|] == s then MASK + Replace(t[|s|..], s)
    else [t[0]] + Replace(t[1..], s)
  }

  // Replacing the secrets one after another, in the given order.
  function RedactAll(t: string, order: seq<string>): string
    requires "" !in order
    decreases order
  {
    if order == [] then t else RedactAll(Replace(t, order[0]), order[1..])
  }

  // An order the redactor may use: every secret once, longer ones first.
  ghost predicate IsOrder(order: seq<string>, secrets: set<string>) {
    && (forall s :: s in order <==> s in secrets)
    && (forall i, j :: 0 <= i < j < |order| ==> order[i] != order[j])
    && (forall i, j :: 0 <= i < j < |order| ==> |order[j]| <= |order[i]|)
  }

  // ---- One replacement ----------------------------------------------------

  lemma {:induction false} NoneRedacted(text: string)
    ensures RedactAll(text, []) == text
  {
  }

  // Masks start with a bracket, so bracket-free text at the front was there before.
  lemma {:induction false} PrefixSurvives(t: string, s: string, q: string)
    requires s != "" && BracketFree(q) && q <= Replace(t, s)
    ensures q <= t
    decreases |t|
  {
    if |t| >= |s| && t[..|s|] == s {
      MaskFront(q, Replace(t[|s|..], s));
    } else if |t| >= |s| && q != "" {
      assert q[1..] <= Replace(t[1..], s) by {
        assert Replace(t, s)[1..] == Replace(t[1..], s);
      }
      PrefixSurvives(t[1..], s, q[1..]);
      assert q == [t[0]] + q[1..] && t == [t[0]] + t[1..];
    }
  }

  lemma {:induction false} MaskFront(q: string, rest: string)
    requires q <= MASK + rest
    ensures q == "" || '[' in q
  {
    if q != "" { assert q[0] == (MASK + rest)[0] == '['; }
  }

  // Text that starts within the mask crosses a bracket or lies in the mask's word.
  lemma {:induction false} MaskOverlap(p: string, rest: string, i: int)
    requires p != "" && OccursAt(p, MASK + rest, i) && i < |MASK|
    ensures !BracketFree(p) || Occurs(p, "REDACTED")
  {
    hide Occurs;
    var r := MASK + rest;
    if i == 0 {
      assert p[0] == r[0] == '[';
    } else if i + |p| >= 10 {
      assert p[9 - i] == r[9] == ']';
    } else {
      WithinMask(p, rest, i);
      Occurring(p, "REDACTED", i - 1);
    }
  }

  lemma {:induction false} Occurring(s: string, t: string, i: int)
    requires OccursAt(s, t, i)
    ensures Occurs(s, t)
  {
  }

  // Character by character.
  lemma {:induction false} WithinMask(p: string, rest: string, i: int)
    requires OccursAt(p, MASK + rest, i) && 1 <= i && i + |p| <= 9
    ensures OccursAt(p, "REDACTED", i - 1)
  {
    var word := "REDACTED";
    forall k | 0 <= k < |p| ensures p[k] == word[i - 1..i - 1 + |p|][k] {
      assert p[k] == (MASK + rest)[i..i + |p|][k] == MASK[i + k] == word[i - 1 + k];
    }
    assert p == word[i - 1..i - 1 + |p|];
  }

  // So a maskable text in mask + rest lies wholly in the rest.
  lemma {:induction false} MaskBoundary(p: string, rest: string, i: int)
    requires Maskable(p) && OccursAt(p, MASK + rest, i)
    ensures |MASK| <= i && OccursAt(p, rest, i - |MASK|)
  {
    if i < |MASK| {
      MaskOverlap(p, rest, i);
      assert false;
    }
    assert rest[i - |MASK|..i - |MASK| + |p|] == (MASK + rest)[i..i + |p|];
  }

  lemma {:induction false} ReplaceAddsNone(t: string, s: string, p: string, i: int)
    requires s != "" && Maskable(p) && OccursAt(p, Replace(t, s), i)
    ensures Occurs(p, t) && p != s
    decreases |t|
  {
    var r := Replace(t, s);
    if |t| < |s| {
      assert OccursAt(p, t, i);
    } else if t[..|s|] == s {
      var rest := Replace(t[|s|..], s);
      MaskBoundary(p, rest, i);
      ReplaceAddsNone(t[|s|..], s, p, i - |MASK|);
      OccursInSuffix(p, t, |s|);
    } else if i == 0 {
      assert p <= r;
      PrefixSurvives(t, s, p);
      assert OccursAt(p, t, 0);
    } else {
      assert r[1..] == Replace(t[1..], s);
      assert r[1..][i - 1..i - 1 + |p|] == r[i..i + |p|];
      ReplaceAddsNone(t[1..], s, p, i - 1);
      OccursInSuffix(p, t, 1);
    }
  }

  lemma {:induction false} OccursInSuffix(p: string, t: string, k: nat)
    requires k <= |t| && Occurs(p, t[k..])
    ensures Occurs(p, t)
  {
    var i :| OccursAt(p, t[k..], i);
    assert t[k..][i..i + |p|] == t[k + i..k + i + |p|];
    assert OccursAt(p, t, k + i);
  }

  /** Replacing one secret never brings back another, and removes its own. */
  lemma {:induction false} ReplaceCleans(t: string, s: string, p: string)
    requires s != "" && Maskable(p)
    ensures Occurs(p, Replace(t, s)) ==> Occurs(p, t) && p != s
  {
    if Occurs(p, Replace(t, s)) {
      var i :| OccursAt(p, Replace(t, s), i);
      ReplaceAddsNone(t, s, p, i);
    }
  }

  lemma {:induction false} ReplaceAbsent(t: string, s: string)
    requires s != "" && !Occurs(s, t)
    ensures Replace(t, s) == t
    decreases |t|
  {
    if |t| >= |s| {
      assert !OccursAt(s, t, 0);
      if Occurs(s, t[1..]) { OccursInSuffix(s, t, 1); }
      ReplaceAbsent(t[1..], s);
    }
  }

  // ---- All secrets --------------------------------------------------------

  /** No maskable secret is left, in whatever order they are replaced and
      whatever the other secrets look like. */
  lemma {:induction false} RedactedIsClean(t: string, order: seq<string>, p: string)
    requires "" !in order && Maskable(p)
    ensures Occurs(p, RedactAll(t, order)) ==> Occurs(p, t) && p !in order
    decreases order
  {
    if order != [] {
      ReplaceCleans(t, order[0], p);
      RedactedIsClean(Replace(t, order[0]), order[1..], p);
    }
  }

  lemma {:induction false} RedactAbsent(t: string, order: seq<string>)
    requires "" !in order
    requires forall s :: s in order ==> !Occurs(s, t)
    ensures RedactAll(t, order) == t
    decreases order
  {
    if order != [] {
      assert order[0] in order;
      ReplaceAbsent(t, order[0]);
      RedactAbsent(t, order[1..]);
    }
  }

  lemma {:induction false} OccursInNoLonger(p: string, t: string, i: int)
    requires |t| <= |p| && OccursAt(p, t, i)
    ensures p == t
  {
    assert t == t[0..|t|];
  }

  // Replacing in a text that is one of the secrets, at position k of the order.
  lemma {:induction false} RedactSecretItself(order: seq<string>, k: nat)
    requires "" !in order && k < |order|
    requires forall i, j :: 0 <= i < j < |order| ==> order[i] != order[j]
    requires forall i, j :: 0 <= i < j < |order| ==> |order[j]| <= |order[i]|
    requires forall j :: k < j < |order| ==> !Occurs(order[j], MASK)
    ensures RedactAll(order[k], order) == MASK
  {
    var s, first := order[k], order[0];
    if k == 0 {
      assert s[|s|..] == "";
      assert Replace(s, s) == MASK + Replace("", s) == MASK;
      RedactAbsent(MASK, order[1..]);
    } else {
      if Occurs(first, s) {
        var i :| OccursAt(first, s, i);
        OccursInNoLonger(first, s, i);
        assert false;
      }
      ReplaceAbsent(s, first);
      RedactSecretItself(order[1..], k - 1);
    }
  }

  /** Longer secrets first: a secret on its own becomes exactly one mask, even
      when shorter secrets are parts of it. */
  lemma {:induction false} WholeSecretMasked(order: seq<string>, secrets: set<string>, s: string)
    requires IsOrder(order, secrets) && "" !in secrets && s in secrets
    requires forall p :: p in secrets ==> !Occurs(p, MASK)
    ensures RedactAll(s, order) == MASK
  {
    var k :| 0 <= k < |order| && order[k] == s;
    RedactSecretItself(order, k);
  }

  /** With the shorter secret first, the rest of a longer one would stay readable. */
  lemma {:induction false} ShorterFirstLeaks(short: string, rest: string)
    requires Maskable(short + rest) && short != "" && rest != "" && !Occurs(short, rest)
    ensures RedactAll(short + rest, [short, short + rest]) == MASK + rest
  {
    var long := short + rest;
    assert long[..|short|] == short && long[|short|..] == rest;
    ReplaceAbsent(rest, short);
    assert Replace(long, short) == MASK + rest;
    if Occurs(long, MASK + rest) {
      var i :| OccursAt(long, MASK + rest, i);
      MaskBoundary(long, rest, i);
    }
    ReplaceAbsent(MASK + rest, long);
    assert [short, long][1..] == [long];
    assert RedactAll(MASK + rest, [long]) == RedactAll(Replace(MASK + rest, long), []);
  }

  // Every finite set of secrets has an order.
  lemma {:induction false} OrderExists(secrets: set<string>) returns (order: seq<string>)
    ensures IsOrder(order, secrets)
    decreases |secrets|
  {
    if secrets == {} {
      order := [];
    } else {
      var s := Longest(secrets);
      var rest := OrderExists(secrets - {s});
      order := [s] + rest;
    }
  }

  lemma {:induction false} Longest(secrets: set<string>) returns (s: string)
    requires secrets != {}
    ensures s in secrets && forall x :: x in secrets ==> |x| <= |s|
    decreases |secrets|
  {
    s :| s in secrets;
    if secrets != {s} {
      var other := Longest(secrets - {s});
      if |other| > |s| { s := other; }
    }
  }

  ghost predicate AlwaysClean(secrets: set<string>)
    requires "" !in secrets
  {
    forall text, order, s | IsOrder(order, secrets) && s in secrets :: !Occurs(s, RedactAll(text, order))
  }

  /** For secrets without brackets, redaction is clean on every text exactly when
      no secret is part of the word it writes. */
  lemma {:induction false} CleanExactly(secrets: set<string>)
    requires "" !in secrets && forall s :: s in secrets ==> BracketFree(s)
    ensures AlwaysClean(secrets) <==> forall s :: s in secrets ==> !Occurs(s, "REDACTED")
  {
    if forall s :: s in secrets ==> !Occurs(s, "REDACTED") {
      forall text, order, s | IsOrder(order, secrets) && s in secrets
        ensures !Occurs(s, RedactAll(text, order))
      {
        RedactedIsClean(text, order, s);
      }
    } else {
      var order := OrderExists(secrets);
      var bad :| bad in secrets && Occurs(bad, "REDACTED");
      WordInMask(bad);
      var k := LastInMask(order, bad);
      var s := order[k];
      assert s in secrets;
      RedactSecretItself(order, k);
      assert Occurs(s, RedactAll(s, order));
    }
  }

  lemma {:induction false} WordInMask(s: string)
    requires Occurs(s, "REDACTED")
    ensures Occurs(s, MASK)
  {
    var word := "REDACTED";
    var i :| OccursAt(s, word, i);
    forall k | 0 <= k < |s| ensures s[k] == MASK[1 + i..1 + i + |s|][k] {
      assert s[k] == word[i..i + |s|][k] == MASK[1 + i + k];
    }
    assert s == MASK[1 + i..1 + i + |s|];
    Occurring(s, MASK, 1 + i);
  }

  // The last secret of the order that is part of the mask.
  lemma {:induction false} LastInMask(order: seq<string>, s: string) returns (k: nat)
    requires s in order && Occurs(s, MASK)
    ensures k < |order| && Occurs(order[k], MASK) && forall j :: k < j < |order| ==> !Occurs(order[j], MASK)
  {
    k :| k < |order| && order[k] == s;
    while exists j :: k < j < |order| && Occurs(order[j], MASK)
      invariant k < |order| && Occurs(order[k], MASK)
      decreases |order| - k
    {
      var j :| k < j < |order| && Occurs(order[j], MASK);
      k := j;
    }
  }

  // ---- The redactor and a run's log -----------------------------------------

  // What `add` keeps of the values it is given.
  function Kept(values: seq<Option<string>>): (kept: set<string>)
  {
    set v | v in values && v.Some? && |v.value| >= 4 :: v.value
  }

  class Redactor {
    var secrets: set<string>

    constructor ()
      ensures secrets == {}
    {
      secrets := {};
    }

    method Add(values: seq<Option<string>>)
      modifies this
      ensures secrets == old(secrets) + Kept(values)
    {
      secrets := secrets + Kept(values);
    }

    /** `__call__`: the result is what replacing all secrets in some order, longer
        ones first, gives; so it holds none that masking cannot bring back. */
    method Call(text: string) returns (clean: string)
      requires "" !in secrets
      ensures exists order :: IsOrder(order, secrets) && clean == RedactAll(text, order)
      ensures forall s :: s in secrets && Maskable(s) ==> !Occurs(s, clean)
    {
      NoneRedacted(text);
      hide RedactAll, Replace, Occurs, Maskable;
      clean := text;
      var rest := secrets;
      ghost var done: seq<string> := [];
      while rest != {}
        invariant rest <= secrets && "" !in done
        invariant forall s :: s in secrets <==> s in done || s in rest
        invariant forall s :: s in done ==> s !in rest
        invariant forall i, j :: 0 <= i < j < |done| ==> done[i] != done[j]
        invariant forall i, j :: 0 <= i < j < |done| ==> |done[j]| <= |done[i]|
        invariant forall i, s :: 0 <= i < |done| && s in rest ==> |s| <= |done[i]|
        invariant clean == RedactAll(text, done)
        decreases rest
      {
        ghost var witnessed := Longest(rest);
        var value :| value in rest && forall s :: s in rest ==> |s| <= |value|;
        RedactAppend(text, done, value);
        clean := Replace(clean, value);
        rest := rest - {value};
        done := done + [value];
      }
      assert IsOrder(done, secrets);
      forall s | s in secrets && Maskable(s) ensures !Occurs(s, clean) {
        RedactedIsClean(text, done, s);
      }
    }
  }

  lemma {:induction false} RedactAppend(t: string, order: seq<string>, s: string)
    requires "" !in order && s != ""
    ensures RedactAll(t, order + [s]) == Replace(RedactAll(t, order), s)
    decreases order
  {
    if order == [] {
      assert ([] + [s])[1..] == [];
    } else {
      assert (order + [s])[1..] == order[1..] + [s];
      RedactAppend(Replace(t, order[0]), order[1..], s);
    }
  }

  datatype Event = Event(kind: string, message: string)

  /** The events a run recorded. The secrets may grow while it runs. */
  class RunLog {
    const redact: Redactor
    var events: seq<Event>
    // What the redactor knew when each event was recorded.
    ghost var known: seq<set<string>>

    ghost predicate Valid()
      reads this, redact
    {
      && (forall s :: s in redact.secrets ==> |s| >= 4)
      && |known| == |events|
      && (forall i :: 0 <= i < |known| ==> known[i] <= redact.secrets)
      && (forall i, s :: 0 <= i < |events| && s in known[i] && Maskable(s) ==> !Occurs(s, events[i].message))
    }

    constructor (redact: Redactor)
      requires forall s :: s in redact.secrets ==> |s| >= 4
      ensures Valid() && this.redact == redact && events == []
    {
      this.redact := redact;
      events, known := [], [];
    }

    method Emit(kind: string, message: string)
      requires Valid()
      modifies this
      ensures Valid()
      ensures known == old(known) + [redact.secrets]
      ensures |events| == |old(events)| + 1 && old(events) <= events && events[|old(events)|].kind == kind
      ensures exists order ::
                IsOrder(order, redact.secrets) && events[|old(events)|].message == RedactAll(message, order)
    {
      var clean := redact.Call(message);
      events := events + [Event(kind, clean)];
      known := known + [redact.secrets];
    }

    // Secrets learned during the run, such as generated passwords.
    method Learn(values: seq<Option<string>>)
      requires Valid()
      modifies redact
      ensures Valid() && events == old(events) && known == old(known)
      ensures redact.secrets == old(redact.secrets) + Kept(values)
    {
      redact.Add(values);
    }
  }
}
