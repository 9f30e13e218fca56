/** The sign-in limiter (auth.py): at most `limit` failed attempts per address in any `window`
    seconds. Pruning forgets nothing that a later check would count. */
module Limiter {
  import opened Basics

  /** The monotonic clock; time may pass at every reading. */
  class Clock {
    var now: real

    method Read() returns (time: real)
      modifies this
      ensures old(now) <= now == time
    {
      var elapsed: real := *;
      if elapsed > 0.0 { now := now + elapsed; }
      time := now;
    }
  }

  // ---- Counting failures ------------------------------------------------------------------

  function Since(times: seq<real>, from: real): nat {
    if times == [] then 0 else (if times[0] >= from then 1 else 0) + Since(times[1..], from)
  }

  function Within(times: seq<real>, from: real, to: real): nat {
    if times == [] then 0 else (if from <= times[0] <= to then 1 else 0) + Within(times[1..], from, to)
  }

  lemma {:induction false} SinceConcat(first: seq<real>, second: seq<real>, from: real)
    ensures Since(first + second, from) == Since(first, from) + Since(second, from)
  {
    if first == [] {
      assert first + second == second;
    } else {
      assert (first + second)[1..] == first[1..] + second;
      SinceConcat(first[1..], second, from);
    }
  }

  lemma {:induction false} WithinSnoc(times: seq<real>, last: real, from: real, to: real)
    ensures Within(times + [last], from, to) == Within(times, from, to) + (if from <= last <= to then 1 else 0)
  {
    if times == [] {
      assert times + [last] == [last] && [last][1..] == [];
    } else {
      assert (times + [last])[1..] == times[1..] + [last];
      WithinSnoc(times[1..], last, from, to);
    }
  }

  lemma {:induction false} NoneEarlier(times: seq<real>, from: real)
    requires forall i :: 0 <= i < |times| ==> times[i] >= from
    ensures Since(times, from) == |times|
  {
    if times != [] { NoneEarlier(times[1..], from); }
  }

  lemma {:induction false} NarrowerCountsLess(times: seq<real>, from: real, to: real, earlier: real)
    requires earlier <= from
    ensures Within(times, from, to) <= Since(times, earlier)
  {
    if times != [] { NarrowerCountsLess(times[1..], from, to, earlier); }
  }

  // ---- Pruning ------------------------------------------------------------------------------

  /** What is kept of all the failures, oldest first: enough to count those since any time in
      the window. */
  ghost predicate Kept(kept: seq<real>, all: seq<real>, now: real, window: real) {
    Ordered(kept, now) && SameCounts(kept, all, now - window)
  }

  ghost predicate SameCounts(kept: seq<real>, all: seq<real>, cutoff: real) {
    forall from :: from >= cutoff ==> Since(kept, from) == Since(all, from)
  }

  ghost predicate Ordered(times: seq<real>, now: real) {
    && (forall i, j :: 0 <= i <= j < |times| ==> times[i] <= times[j])
    && (forall i :: 0 <= i < |times| ==> times[i] <= now)
  }

  lemma {:induction false} KeptCounts(kept: seq<real>, all: seq<real>, now: real, window: real)
    requires Kept(kept, all, now, window) && (kept == [] || kept[0] >= now - window)
    ensures Since(all, now - window) == |kept|
  {
    NoneEarlier(kept, now - window);
    assert Since(kept, now - window) == Since(all, now - window);
  }

  lemma {:induction false} PruneOne(kept: seq<real>, all: seq<real>, now: real, window: real)
    requires Kept(kept, all, now, window) && kept != [] && kept[0] < now - window
    ensures Kept(kept[1..], all, now, window)
  {
    forall from | from >= now - window ensures Since(kept[1..], from) == Since(all, from) {
      assert Since(kept, from) == Since(all, from);
    }
  }

  lemma {:induction false} KeptLater(kept: seq<real>, all: seq<real>, now: real, later: real, window: real)
    requires Kept(kept, all, now, window) && now <= later
    ensures Kept(kept, all, later, window)
  {
  }

  lemma {:induction false} KeptMore(kept: seq<real>, all: seq<real>, now: real, window: real)
    requires Kept(kept, all, now, window)
    ensures Kept(kept + [now], all + [now], now, window)
  {
    forall from | from >= now - window ensures Since(kept + [now], from) == Since(all + [now], from) {
      SinceConcat(kept, [now], from);
      SinceConcat(all, [now], from);
    }
  }

  function Recorded(times: map<string, seq<real>>, address: string): seq<real> {
    if address in times then times[address] else []
  }

  ghost predicate EachKept(failures: map<string, seq<real>>, history: map<string, seq<real>>, now: real, window: real) {
    forall address :: Kept(Recorded(failures, address), Recorded(history, address), now, window)
  }

  lemma {:induction false} AddressKept(failures: map<string, seq<real>>, history: map<string, seq<real>>,
                                       address: string, now: real, window: real)
    requires EachKept(failures, history, now, window)
    ensures Kept(Recorded(failures, address), Recorded(history, address), now, window)
  {
  }

  lemma {:induction false} EachPruned(failures: map<string, seq<real>>, history: map<string, seq<real>>,
                                      address: string, kept: seq<real>, now: real, later: real, window: real)
    requires EachKept(failures, history, now, window) && now <= later
    requires Kept(kept, Recorded(history, address), later, window)
    ensures EachKept(failures[address := kept], history, later, window)
  {
    forall other ensures Kept(Recorded(failures[address := kept], other), Recorded(history, other), later, window) {
      PrunedFor(failures, history, address, kept, other, now, later, window);
    }
  }

  lemma {:induction false} PrunedFor(failures: map<string, seq<real>>, history: map<string, seq<real>>, address: string,
                                     kept: seq<real>, other: string, now: real, later: real, window: real)
    requires EachKept(failures, history, now, window) && now <= later
    requires Kept(kept, Recorded(history, address), later, window)
    ensures Kept(Recorded(failures[address := kept], other), Recorded(history, other), later, window)
  {
    if other != address {
      AddressKept(failures, history, other, now, window);
      KeptLater(Recorded(failures, other), Recorded(history, other), now, later, window);
    }
  }

  lemma {:induction false} EachKeptMore(failures: map<string, seq<real>>, history: map<string, seq<real>>,
                                        address: string, now: real, later: real, window: real)
    requires EachKept(failures, history, now, window) && now <= later
    ensures EachKept(failures[address := Recorded(failures, address) + [later]],
                     history[address := Recorded(history, address) + [later]], later, window)
  {
    var more := failures[address := Recorded(failures, address) + [later]];
    var longer := history[address := Recorded(history, address) + [later]];
    forall other ensures Kept(Recorded(more, other), Recorded(longer, other), later, window) {
      MoreFor(failures, history, address, other, now, later, window);
    }
  }

  lemma {:induction false} MoreFor(failures: map<string, seq<real>>, history: map<string, seq<real>>, address: string,
                                   other: string, now: real, later: real, window: real)
    requires EachKept(failures, history, now, window) && now <= later
    ensures Kept(Recorded(failures[address := Recorded(failures, address) + [later]], other),
                 Recorded(history[address := Recorded(history, address) + [later]], other), later, window)
  {
    AddressKept(failures, history, other, now, window);
    KeptLater(Recorded(failures, other), Recorded(history, other), now, later, window);
    if other == address { KeptMore(Recorded(failures, address), Recorded(history, address), later, window); }
  }

  // ---- The bound ------------------------------------------------------------------------------

  /** No closed interval no longer than the window holds more failures than the limit. */
  ghost predicate Limited(all: seq<real>, window: real, limit: int) {
    forall from, to :: to <= from + window ==> Within(all, from, to) <= Max(limit, 0)
  }

  // A failure that a check let through, whatever time passed since that check.
  lemma {:induction false} StaysLimited(all: seq<real>, checked: real, failed: real, window: real, limit: int)
    requires Limited(all, window, limit) && checked <= failed
    requires Since(all, checked - window) < limit
    ensures Limited(all + [failed], window, limit)
  {
    forall from, to | to <= from + window ensures Within(all + [failed], from, to) <= Max(limit, 0) {
      WithinSnoc(all, failed, from, to);
      if from <= failed <= to {
        NarrowerCountsLess(all, from, to, checked - window);
      }
    }
  }

  ghost predicate EachLimited(history: map<string, seq<real>>, window: real, limit: int) {
    forall address :: Limited(Recorded(history, address), window, limit)
  }

  lemma {:induction false} EachStaysLimited(history: map<string, seq<real>>, address: string, checked: real,
                                            failed: real, window: real, limit: int)
    requires EachLimited(history, window, limit) && checked <= failed
    requires Since(Recorded(history, address), checked - window) < limit
    ensures EachLimited(history[address := Recorded(history, address) + [failed]], window, limit)
  {
    var longer := history[address := Recorded(history, address) + [failed]];
    forall other ensures Limited(Recorded(longer, other), window, limit) {
      assert Limited(Recorded(history, other), window, limit);
      if other == address { StaysLimited(Recorded(history, address), checked, failed, window, limit); }
    }
  }

  // A sign-in attempt; it is right when the password is (or nothing is recorded).
  datatype Attempt = Attempt(address: string, right: bool)

  datatype Outcome = TooMany | Wrong | Accepted

  class AttemptLimiter {
    const limit: int
    const window: real
    const clock: Clock
    var failures: map<string, seq<real>>
    // Every failure there ever was.
    ghost var history: map<string, seq<real>>

    constructor (limit: int, window: real, clock: Clock)
      ensures Valid() && this.clock == clock && this.limit == limit && this.window == window
      ensures history == map[]
    {
      this.limit, this.window, this.clock := limit, window, clock;
      failures, history := map[], map[];
    }

    ghost predicate Valid()
      reads this, clock
    {
      EachKept(failures, history, clock.now, window)
    }

    ghost predicate AllLimited()
      reads this
    {
      EachLimited(history, window, limit)
    }

    // The failures of an address that are not older than the window.
    method Pruned(address: string, times: seq<real>) returns (kept: seq<real>)
      requires Kept(times, Recorded(history, address), clock.now, window)
      modifies clock
      ensures old(clock.now) <= clock.now && Kept(kept, Recorded(history, address), clock.now, window)
      ensures kept == [] || kept[0] >= clock.now - window
    {
      kept := times;
      ghost var all := Recorded(history, address);
      while kept != []
        invariant old(clock.now) <= clock.now && Kept(kept, all, clock.now, window)
        decreases |kept|
      {
        ghost var before := clock.now;
        var now := clock.Read();
        KeptLater(kept, all, before, now, window);
        if kept[0] >= now - window { break; }
        PruneOne(kept, all, now, window);
        kept := kept[1..];
      }
    }

    /** Refuses exactly when the full history has `limit` or more failures of the address in
        the last `window` seconds. */
    method Check(address: string) returns (refused: bool)
      requires Valid()
      modifies `failures, clock
      ensures Valid() && old(clock.now) <= clock.now
      ensures refused <==> Since(Recorded(history, address), clock.now - window) >= limit
    {
      AddressKept(failures, history, address, clock.now, window);
      var kept := Pruned(address, Recorded(failures, address));
      EachPruned(failures, history, address, kept, old(clock.now), clock.now, window);
      failures := failures[address := kept];
      KeptCounts(kept, Recorded(history, address), clock.now, window);
      refused := |kept| >= limit;
    }

    method Fail(address: string)
      requires Valid()
      modifies this, clock
      ensures Valid() && old(clock.now) <= clock.now
      ensures history == old(history)[address := Recorded(old(history), address) + [clock.now]]
    {
      var now := clock.Read();
      EachKeptMore(failures, history, address, old(clock.now), now, window);
      failures := failures[address := Recorded(failures, address) + [now]];
      history := history[address := Recorded(history, address) + [now]];
    }

    /** One attempt: checked, then compared with the password, then perhaps counted. */
    method Try(attempt: Attempt) returns (outcome: Outcome)
      requires Valid() && AllLimited()
      modifies this, clock
      ensures Valid() && AllLimited() && old(clock.now) <= clock.now
      ensures !outcome.Wrong? ==> history == old(history)
      ensures outcome.Wrong? ==>
                history == old(history)[attempt.address := Recorded(old(history), attempt.address) + [clock.now]]
      ensures outcome.TooMany? ==> Since(Recorded(history, attempt.address), clock.now - window) >= limit
      ensures outcome.Accepted? ==>
                attempt.right && Since(Recorded(history, attempt.address), clock.now - window) < limit
      ensures outcome.Wrong? ==> !attempt.right
    {
      ghost var before := history;
      var refused := Check(attempt.address);
      ghost var checked := clock.now;
      if refused { return TooMany; }
      if attempt.right { return Accepted; }
      Fail(attempt.address);
      EachStaysLimited(before, attempt.address, checked, clock.now, window, limit);
      outcome := Wrong;
    }

    /** Any run of attempts, one after the other, from any addresses. */
    method TryAll(attempts: seq<Attempt>) returns (outcomes: seq<Outcome>)
      requires Valid() && AllLimited()
      modifies this, clock
      ensures Valid() && AllLimited() && |outcomes| == |attempts|
      ensures forall i :: 0 <= i < |attempts| && outcomes[i].Accepted? ==> attempts[i].right
    {
      outcomes := [];
      for i := 0 to |attempts|
        invariant Valid() && AllLimited() && |outcomes| == i
        invariant forall j :: 0 <= j < i && outcomes[j].Accepted? ==> attempts[j].right
      {
        var outcome := Try(attempts[i]);
        outcomes := outcomes + [outcome];
      }
    }
  }
}
