/** The launcher's signals (main.py): what `ShutdownRequest` records of them, and which selective
    restarts the supervisor carries out. */
module Signals {
  import opened Basics
  import opened Text

  // SIGTERM or SIGINT; or SIGUSR1, with the targets of its command file.
  datatype Signal = Stop | Restart(targets: Option<seq<string>>)

  // A restart of some services only.
  predicate Selective(signal: Signal) {
    signal.Restart? && signal.targets.Some? && signal.targets.value != []
    && "api" !in signal.targets.value && "all" !in signal.targets.value
  }

  // The last signal that ends the runtime, if any came.
  function LastEnding(signals: seq<Signal>): Option<Signal> {
    if signals == [] then None
    else if !Selective(Last(signals)) then Some(Last(signals))
    else LastEnding(Init(signals))
  }

  lemma {:induction false} LastEndingOn(signals: seq<Signal>, next: Signal)
    ensures LastEnding(signals + [next]) == if Selective(next) then LastEnding(signals) else Some(next)
  {
    assert Init(signals + [next]) == signals;
  }

  // What the handlers set: `source` is the number of the signal that the targets are from.
  datatype Flags = Flags(requested: bool, restart: bool, selective: bool, targets: Option<seq<string>>,
                         source: Option<nat>)

  const NO_SIGNAL := Flags(false, false, false, None, None)

  // `_handle_signal`, of the k-th signal.
  function On(flags: Flags, k: nat, signal: Signal): Flags {
    if Selective(signal) then flags.(selective := true, targets := signal.targets, source := Some(k))
    else
      match signal
      case Restart(asked) => flags.(requested := true, restart := true, targets := asked, source := Some(k))
      case Stop => Flags(true, false, false, None, Some(k))
  }

  // Signals from the k-th on.
  function Over(flags: Flags, k: nat, signals: seq<Signal>): Flags {
    if signals == [] then flags else On(Over(flags, k, Init(signals)), k + |signals| - 1, Last(signals))
  }

  lemma {:induction false} OverNone(flags: Flags, k: nat)
    ensures Over(flags, k, []) == flags
  {
  }

  lemma {:induction false} OverNext(flags: Flags, k: nat, signals: seq<Signal>, next: Signal)
    ensures Over(flags, k, signals + [next]) == On(Over(flags, k, signals), k + |signals|, next)
  {
    assert Init(signals + [next]) == signals;
  }

  // The runtime ends once a signal asked for it, and starts again in place exactly when the
  // last such signal was a restart.
  ghost predicate EndsAs(requested: bool, restart: bool, ending: Option<Signal>) {
    (requested <==> ending.Some?) && (restart <==> ending.Some? && ending.value.Restart?)
  }

  class ShutdownRequest {
    var requested: bool
    var restart: bool
    var selective: bool
    var targets: Option<seq<string>>
    ghost var source: Option<nat>
    // Every signal handled so far.
    ghost var handled: seq<Signal>

    ghost function Seen(): Flags
      reads this
    {
      Flags(requested, restart, selective, targets, source)
    }

    ghost predicate Valid()
      reads this
    {
      EndsAs(requested, restart, LastEnding(handled))
    }

    constructor ()
      ensures Valid() && handled == [] && Seen() == NO_SIGNAL
    {
      requested, restart, selective, targets, source, handled := false, false, false, None, None, [];
    }

    // `_handle_signal`
    method Handle(signal: Signal)
      requires Valid()
      modifies this
      ensures Valid() && handled == old(handled) + [signal]
      ensures Seen() == On(old(Seen()), |old(handled)|, signal)
    {
      LastEndingOn(handled, signal);
      source, handled := Some(|handled|), handled + [signal];
      match signal {
        case Restart(asked) =>
          if Selective(signal) {
            selective, targets := true, asked;
            return;
          }
          requested, restart, targets := true, true, asked;
        case Stop =>
          requested, restart, selective, targets := true, false, false, None;
      }
    }

    method HandleAll(signals: seq<Signal>)
      requires Valid()
      modifies this
      ensures Valid() && handled == old(handled) + signals
      ensures Seen() == Over(old(Seen()), |old(handled)|, signals)
    {
      OverNone(Seen(), |handled|);
      hide Over, On, EndsAs, LastEnding;
      ghost var flags, before := Seen(), handled;
      for i := 0 to |signals|
        invariant Valid() && handled == before + signals[..i]
        invariant Seen() == Over(flags, |before|, signals[..i])
      {
        assert signals[..i + 1] == signals[..i] + [signals[i]];
        OverNext(flags, |before|, signals[..i], signals[i]);
        Handle(signals[i]);
      }
      assert signals[..|signals|] == signals;
    }

    // The supervisor's clearing of the flag, and then of the targets.
    method Clear(late: seq<Signal>, later: seq<Signal>)
      requires Valid()
      modifies this
      ensures Valid() && handled == old(handled) + late + later
      ensures Seen() == Cleared(old(Seen()), |old(handled)|, late, later)
    {
      HandleAll(late);
      selective := false;
      HandleAll(later);
      targets, source := None, None;
    }

    /** The supervisor's reading of the targets, and its clearing of them, with the signals that
        come before each. */
    method Take(early: seq<Signal>, late: seq<Signal>, later: seq<Signal>) returns (asked: seq<string>)
      requires Valid() && selective
      modifies this
      ensures Valid() && handled == old(handled) + early + late + later
      ensures asked == OrNone(Over(old(Seen()), |old(handled)|, early).targets)
      ensures Seen() == AfterTake(old(Seen()), |old(handled)|, early, late, later)
    {
      HandleAll(early);
      asked := if targets.Some? then targets.value else [];
      Clear(late, later);
    }
  }

  function OrNone(targets: Option<seq<string>>): seq<string> {
    if targets.Some? then targets.value else []
  }

  function Cleared(flags: Flags, k: nat, late: seq<Signal>, later: seq<Signal>): Flags {
    Over(Over(flags, k, late).(selective := false), k + |late|, later).(targets := None, source := None)
  }

  function AfterTake(flags: Flags, k: nat, early: seq<Signal>, late: seq<Signal>, later: seq<Signal>): Flags {
    Cleared(Over(flags, k, early), k + |early|, late, later)
  }

  // ---- Which restarts are carried out -------------------------------------------------------

  // The signals of one round of the supervisor: those before its check for a selective
  // restart; and, if it finds one, those before it has read the targets, before it has cleared
  // the flag, and before it has cleared the targets.
  datatype Round = Round(before: seq<Signal>, early: seq<Signal>, late: seq<Signal>, later: seq<Signal>)

  // Targets that are restarted, and the signal they are from.
  datatype Asked = Asked(source: Option<nat>, targets: seq<string>)

  // The flags after some rounds, the signals heard by then, and what each round restarted.
  datatype Watch = Watch(flags: Flags, heard: nat, asked: seq<Option<Asked>>)

  function Poll(watch: Watch, round: Round): Watch {
    var checked := Over(watch.flags, watch.heard, round.before);
    var n := watch.heard + |round.before|;
    if checked.requested || !checked.selective then Watch(checked, n, watch.asked + [None])
    else
      var read := Over(checked, n, round.early);
      Watch(AfterTake(checked, n, round.early, round.late, round.later),
            n + |round.early| + |round.late| + |round.later|,
            watch.asked + [Some(Asked(read.source, OrNone(read.targets)))])
  }

  function Polls(watch: Watch, rounds: seq<Round>): Watch {
    if rounds == [] then watch else Poll(Polls(watch, Init(rounds)), Last(rounds))
  }

  // After the signals of the start-up.
  function Started(starting: seq<Signal>): Watch {
    Watch(Over(NO_SIGNAL, 0, starting), |starting|, [])
  }

  // What reading the targets gives when this signal came last.
  function TargetsOf(signal: Signal): seq<string> {
    if signal.Stop? then [] else OrNone(signal.targets)
  }

  // After these rounds the flag is still up: a signal came since it was last cleared.
  predicate Left(starting: seq<Signal>, rounds: seq<Round>) {
    if rounds == [] then starting != []
    else (Left(starting, Init(rounds)) || Last(rounds).before != []) && Last(rounds).later != []
  }

  // The round that comes after these ones finds the flag up.
  predicate Pending(starting: seq<Signal>, rounds: seq<Round>, next: Round) {
    Left(starting, rounds) || next.before != []
  }

  // What one more round hears.
  function HeardIn(round: Round, pending: bool): seq<Signal> {
    round.before + if pending then round.early + round.late + round.later else []
  }

  // All the signals heard in these rounds, in order.
  function Heard(starting: seq<Signal>, rounds: seq<Round>): seq<Signal> {
    if rounds == [] then starting
    else Heard(starting, Init(rounds)) + HeardIn(Last(rounds), Pending(starting, Init(rounds), Last(rounds)))
  }

  // The signals heard before the check of the r-th round.
  function BeforeCheck(starting: seq<Signal>, rounds: seq<Round>, r: nat): seq<Signal>
    requires r < |rounds|
  {
    Heard(starting, rounds[..r]) + rounds[r].before
  }

  // ... and before its reading of the targets.
  function BeforeRead(starting: seq<Signal>, rounds: seq<Round>, r: nat): seq<Signal>
    requires r < |rounds|
  {
    BeforeCheck(starting, rounds, r) + rounds[r].early
  }

  predicate AllSelective(signals: seq<Signal>) {
    forall i :: 0 <= i < |signals| ==> Selective(signals[i])
  }

  /** A round restarts services exactly when a signal came since the flag was last cleared and
      none before its check ends the runtime. */
  predicate DueAt(starting: seq<Signal>, rounds: seq<Round>, r: nat)
    requires r < |rounds|
  {
    Pending(starting, rounds[..r], rounds[r]) && AllSelective(BeforeCheck(starting, rounds, r))
  }

  // The first signal after the targets were last cleared.
  function FreshFrom(starting: seq<Signal>, rounds: seq<Round>, r: nat): nat
    requires r < |rounds|
  {
    if r == 0 then 0 else |Heard(starting, rounds[..r])|
  }

  // What a round that is due restarts, of these signals of which so many came before the
  // targets were last cleared.
  function AskedOf(read: seq<Signal>, cleared: nat): Asked {
    if cleared < |read| then Asked(Some(|read| - 1), TargetsOf(Last(read))) else Asked(None, [])
  }

  // What the r-th round restarts.
  function AskedAt(starting: seq<Signal>, rounds: seq<Round>, r: nat): Option<Asked>
    requires r < |rounds|
  {
    if DueAt(starting, rounds, r) then Some(AskedOf(BeforeRead(starting, rounds, r), FreshFrom(starting, rounds, r)))
    else None
  }

  lemma {:induction false} SelectiveBoth(a: seq<Signal>, b: seq<Signal>)
    ensures AllSelective(a + b) <==> AllSelective(a) && AllSelective(b)
  {
    if AllSelective(a + b) {
      forall i | 0 <= i < |a| ensures Selective(a[i]) { assert (a + b)[i] == a[i]; }
      forall i | 0 <= i < |b| ensures Selective(b[i]) { assert (a + b)[|a| + i] == b[i]; }
    }
  }

  lemma {:induction false} SelectiveOnly(flags: Flags, k: nat, signals: seq<Signal>)
    ensures Over(flags, k, signals).requested <==> flags.requested || !AllSelective(signals)
    ensures AllSelective(signals) ==> (Over(flags, k, signals).selective <==> flags.selective || signals != [])
    decreases |signals|
  {
    if signals != [] {
      SelectiveOnly(flags, k, Init(signals));
      SelectiveBoth(Init(signals), [Last(signals)]);
      assert signals == Init(signals) + [Last(signals)];
      assert AllSelective([Last(signals)]) <==> Selective([Last(signals)][0]);
    }
  }

  // The targets are those of the last signal, when one came since they were cleared.
  ghost predicate Sourced(flags: Flags, line: seq<Signal>, unread: bool) {
    if unread then
      line != [] && flags.source == Some(|line| - 1) && OrNone(flags.targets) == TargetsOf(Last(line))
    else flags.source == None && flags.targets == None
  }

  lemma {:induction false} SourcedOver(flags: Flags, line: seq<Signal>, unread: bool, signals: seq<Signal>)
    requires Sourced(flags, line, unread)
    ensures Sourced(Over(flags, |line|, signals), line + signals, unread || signals != [])
  {
    if signals == [] {
      assert line + signals == line;
    } else {
      assert Last(line + signals) == Last(signals);
    }
  }

  /** The flags are those of the signals heard: until one of them ends the runtime, every signal
      is heard, and the flag is up exactly when one is left. */
  ghost predicate InStep(watch: Watch, heard: seq<Signal>, unread: bool, left: bool) {
    && (watch.flags.requested <==> !AllSelective(heard))
    && (unread ==> left)
    && (!watch.flags.requested ==>
          watch.heard == |heard| && Sourced(watch.flags, heard, unread) && (watch.flags.selective <==> left))
  }

  // The check of a round.
  lemma {:induction false} CheckStep(watch: Watch, heard: seq<Signal>, unread: bool, left: bool, before: seq<Signal>)
    requires InStep(watch, heard, unread, left)
    ensures var checked := Over(watch.flags, watch.heard, before);
            InStep(Watch(checked, watch.heard + |before|, watch.asked), heard + before, unread || before != [],
                   left || before != [])
  {
    SelectiveOnly(watch.flags, watch.heard, before);
    SelectiveBoth(heard, before);
    if !watch.flags.requested { SourcedOver(watch.flags, heard, unread, before); }
  }

  // The reading and the clearing.
  lemma {:induction false} TakeStep(flags: Flags, line: seq<Signal>, early: seq<Signal>, late: seq<Signal>,
                                    later: seq<Signal>)
    requires !flags.requested && AllSelective(line)
    ensures var after := AfterTake(flags, |line|, early, late, later);
            && (after.requested <==> !AllSelective(line + (early + late + later)))
            && (!after.requested ==> (after.selective <==> later != []))
  {
    SelectiveBoth(line, early + late + later);
    SelectiveBoth(early + late, later);
    SelectiveBoth(early, late);
    SelectiveOnly(flags, |line|, early);
    var read := Over(flags, |line|, early);
    SelectiveOnly(read, |line| + |early|, late);
    var cleared := Over(read, |line| + |early|, late).(selective := false);
    SelectiveOnly(cleared, |line| + |early| + |late|, later);
  }

  // A round that finds the flag up.
  lemma {:induction false} TakenStep(watch: Watch, line: seq<Signal>, unread: bool, round: Round)
    requires InStep(watch, line, unread, true) && !watch.flags.requested
    ensures var after := AfterTake(watch.flags, |line|, round.early, round.late, round.later);
            InStep(Watch(after, |line| + |round.early| + |round.late| + |round.later|, watch.asked),
                   line + (round.early + round.late + round.later), false, round.later != [])
    ensures var read := Over(watch.flags, |line|, round.early);
            Asked(read.source, OrNone(read.targets)) ==
            AskedOf(line + round.early, if unread || round.early != [] then 0 else |line|)
  {
    TakeStep(watch.flags, line, round.early, round.late, round.later);
    SourcedOver(watch.flags, line, unread, round.early);
  }

  lemma {:induction false} PollStep(watch: Watch, heard: seq<Signal>, unread: bool, left: bool, round: Round)
    requires InStep(watch, heard, unread, left)
    ensures var pending := left || round.before != [];
            var polled := Poll(watch, round);
            && InStep(polled, heard + HeardIn(round, pending), false, pending && round.later != [])
            && Last(polled.asked) ==
               (if pending && AllSelective(heard + round.before)
                then Some(AskedOf(heard + round.before + round.early, if unread then 0 else |heard|)) else None)
  {
    var checked := Over(watch.flags, watch.heard, round.before);
    CheckStep(watch, heard, unread, left, round.before);
    var pending := left || round.before != [];
    var line := heard + round.before;
    if !checked.requested && pending {
      TakenStep(Watch(checked, |line|, watch.asked), line, unread || round.before != [], round);
      assert heard + HeardIn(round, pending) == line + (round.early + round.late + round.later);
    } else if checked.requested {
      SelectiveBoth(line, if pending then round.early + round.late + round.later else []);
      assert heard + HeardIn(round, pending) ==
             line + if pending then round.early + round.late + round.later else [];
    } else {
      assert heard + HeardIn(round, pending) == line == heard;
    }
  }

  lemma {:induction false} PollsStep(starting: seq<Signal>, rounds: seq<Round>)
    ensures InStep(Polls(Started(starting), rounds), Heard(starting, rounds), rounds == [] && starting != [],
                   Left(starting, rounds))
    ensures |Polls(Started(starting), rounds).asked| == |rounds|
    decreases |rounds|
  {
    if rounds == [] {
      SelectiveOnly(NO_SIGNAL, 0, starting);
      SourcedOver(NO_SIGNAL, [], false, starting);
      assert [] + starting == starting;
    } else {
      PollsStep(starting, Init(rounds));
      PollStep(Polls(Started(starting), Init(rounds)), Heard(starting, Init(rounds)),
               Init(rounds) == [] && starting != [], Left(starting, Init(rounds)), Last(rounds));
    }
  }

  // What the last round restarts.
  lemma {:induction false} LastAsked(starting: seq<Signal>, rounds: seq<Round>)
    requires rounds != []
    ensures |Polls(Started(starting), rounds).asked| == |rounds|
    ensures Last(Polls(Started(starting), rounds).asked) == AskedAt(starting, rounds, |rounds| - 1)
  {
    var r := |rounds| - 1;
    assert rounds[..r] == Init(rounds);
    var heard, unread := Heard(starting, Init(rounds)), Init(rounds) == [] && starting != [];
    PollsStep(starting, rounds);
    PollsStep(starting, Init(rounds));
    PollStep(Polls(Started(starting), Init(rounds)), heard, unread, Left(starting, Init(rounds)), Last(rounds));
    assert (if unread then 0 else |heard|) == FreshFrom(starting, rounds, r);
  }

  /** Over all rounds, the targets that each one restarts are those of the last signal before it
      reads them, or none when they were cleared since; it restarts nothing when no signal came
      since the flag was cleared, or one that ends the runtime came before its check. */
  lemma {:induction false} AskedExactly(starting: seq<Signal>, rounds: seq<Round>, r: nat)
    requires r < |rounds|
    ensures |Polls(Started(starting), rounds).asked| == |rounds|
    ensures Polls(Started(starting), rounds).asked[r] == AskedAt(starting, rounds, r)
    decreases |rounds|
  {
    LastAsked(starting, rounds);
    if r < |rounds| - 1 {
      AskedExactly(starting, Init(rounds), r);
      assert Init(rounds)[..r] == rounds[..r];
    }
  }

  // The round restarts the k-th signal's targets.
  predicate Names(asked: Option<Asked>, k: nat) {
    asked.Some? && asked.value.source == Some(k)
  }

  // Some round does.
  ghost predicate CarriedOut(starting: seq<Signal>, rounds: seq<Round>, k: nat) {
    exists asked :: asked in Polls(Started(starting), rounds).asked && Names(asked, k)
  }

  // The signal comes before the r-th round reads the targets, and after it neither another
  // signal nor the clearing of the round before.
  ghost predicate LastBeforeRead(starting: seq<Signal>, rounds: seq<Round>, r: nat, k: nat)
    requires r < |rounds|
  {
    FreshFrom(starting, rounds, r) <= k && k + 1 == |BeforeRead(starting, rounds, r)|
  }

  lemma {:induction false} NamesExactly(starting: seq<Signal>, rounds: seq<Round>, r: nat, k: nat)
    requires r < |rounds|
    ensures |Polls(Started(starting), rounds).asked| == |rounds|
    ensures Names(Polls(Started(starting), rounds).asked[r], k) <==>
            DueAt(starting, rounds, r) && LastBeforeRead(starting, rounds, r, k)
  {
    AskedExactly(starting, rounds, r);
  }

  /** A signal's restart is carried out exactly when a round in which one is due reads the
      targets after it, and between the two they are neither set by another signal nor
      cleared. */
  lemma {:induction false} CarriedOutExactly(starting: seq<Signal>, rounds: seq<Round>, k: nat)
    ensures CarriedOut(starting, rounds, k) <==>
            exists r :: 0 <= r < |rounds| && DueAt(starting, rounds, r) && LastBeforeRead(starting, rounds, r, k)
  {
    PollsStep(starting, rounds);
    forall r | 0 <= r < |rounds|
      ensures Names(Polls(Started(starting), rounds).asked[r], k) <==>
              DueAt(starting, rounds, r) && LastBeforeRead(starting, rounds, r, k)
    {
      NamesExactly(starting, rounds, r, k);
    }
  }

  // Rounds in which no signal comes.
  function Idle(rounds: nat): seq<Round> {
    if rounds == 0 then [] else Idle(rounds - 1) + [Round([], [], [], [])]
  }

  lemma {:induction false} IdleAt(first: Round, rounds: nat, r: nat)
    requires 0 < r <= rounds
    ensures |[first] + Idle(rounds)| == rounds + 1 && ([first] + Idle(rounds))[r] == Round([], [], [], [])
  {
    IdleLength(rounds);
    if r < rounds {
      IdleAt(first, rounds - 1, r);
      IdleLength(rounds - 1);
    }
  }

  lemma {:induction false} IdleLength(rounds: nat)
    ensures |Idle(rounds)| == rounds
  {
    if rounds > 0 { IdleLength(rounds - 1); }
  }

  // Once the targets are cleared, a round without signals reads none.
  lemma {:induction false} IdleReadsNone(starting: seq<Signal>, rounds: seq<Round>, r: nat, k: nat)
    requires 0 < r < |rounds| && rounds[r].before == rounds[r].early == []
    ensures !LastBeforeRead(starting, rounds, r, k)
  {
    assert BeforeRead(starting, rounds, r) == Heard(starting, rounds[..r]);
  }

  /** Of two restarts asked for before one round, the first is lost, however many rounds follow. */
  lemma {:induction false} Overwritten(first: Signal, second: Signal, idle: nat)
    requires Selective(first) && Selective(second)
    ensures !CarriedOut([], [Round([first, second], [], [], [])] + Idle(idle), 0)
    ensures CarriedOut([], [Round([first, second], [], [], [])] + Idle(idle), 1)
  {
    var rounds := [Round([first, second], [], [], [])] + Idle(idle);
    CarriedOutExactly([], rounds, 0);
    CarriedOutExactly([], rounds, 1);
    IdleLength(idle);
    assert rounds[..0] == [];
    assert BeforeRead([], rounds, 0) == BeforeCheck([], rounds, 0) == [first, second];
    assert DueAt([], rounds, 0) && LastBeforeRead([], rounds, 0, 1);
    forall r | 0 < r < |rounds| ensures !LastBeforeRead([], rounds, r, 0) {
      IdleAt(rounds[0], idle, r);
      IdleReadsNone([], rounds, r, 0);
    }
  }

  /** One asked for between the reading of the targets and their clearing is lost as well,
      whether or not the flag is up again. */
  lemma {:induction false} TooLate(first: Signal, second: Signal, flagged: bool, idle: nat)
    requires Selective(first) && Selective(second)
    ensures var round := if flagged then Round([first], [], [], [second]) else Round([first], [], [second], []);
            !CarriedOut([], [round] + Idle(idle), 1)
  {
    var round := if flagged then Round([first], [], [], [second]) else Round([first], [], [second], []);
    var rounds := [round] + Idle(idle);
    CarriedOutExactly([], rounds, 1);
    IdleLength(idle);
    assert rounds[..0] == [];
    assert BeforeRead([], rounds, 0) == [first];
    forall r | 0 < r < |rounds| ensures !LastBeforeRead([], rounds, r, 1) {
      IdleAt(rounds[0], idle, r);
      IdleReadsNone([], rounds, r, 1);
    }
  }
}
