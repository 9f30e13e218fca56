/** Which operations may run at once: `_checked`, `start_operation`, `start_upgrades` and
    `_launch` (installer/runner.py), and what runs of upgrades leave on their hosts while
    others run. Starting and releasing do not wait for anything; a run may be interrupted
    by the others between any two changes it makes. */
module Operations {
  import opened Basics
  import opened EnvFile
  import opened Deployments
  import opened Rollout
  import opened Text
  import EnvEdits
  import Render

  type Id = string

  datatype Request = Request(id: Id, order: Order)

  datatype Kind = Upgrades | Other

  // Of a run of upgrades the progress says how far it has come; another run is one request.
  datatype Run = Run(kind: Kind, progress: Progress, failed: bool, finished: bool)
  {
    function Ids(): set<Id> {
      set i | 0 <= i < |progress.plan| :: progress.plan[i].0.id
    }
  }

  datatype System = System(
    files: Files,
    // Of the active deployments.
    records: map<Id, Record>,
    busy: set<Id>,
    // Runs whose deployments are not released yet.
    runs: map<nat, Run>,
    started: nat,
    // Deployments of starts that raised after they were marked busy.
    lost: set<Id>)

  // A run's steps change the files and the records to these.
  datatype Event =
    | StartUpgrades(requests: seq<Request>, launches: bool)
    | StartOperation(request: Request, launches: bool)
    | Worked(run: nat, files: Files, records: map<Id, Record>)
    | TurnRan(run: nat, files: Files, records: map<Id, Record>)
    | TurnFailed(run: nat, files: Files, records: map<Id, Record>)
    | Finish(run: nat)
    | Release(run: nat)

  function IdsOf(requests: seq<Request>): set<Id> {
    set i | 0 <= i < |requests| :: requests[i].id
  }

  // `_checked`, for every request: the deployment exists, is active and not busy.
  predicate MayStart(s: System, requests: seq<Request>) {
    |requests| > 0 && forall i :: 0 <= i < |requests| ==> requests[i].id in s.records && requests[i].id !in s.busy
  }

  // Each with the record it has when the run starts.
  function PlanOf(records: map<Id, Record>, requests: seq<Request>): (plan: Plan)
    requires forall i :: 0 <= i < |requests| ==> requests[i].id in records
    ensures |plan| == |requests|
    ensures forall i :: 0 <= i < |plan| ==> plan[i] == (records[requests[i].id], requests[i].order)
  {
    seq(|requests|, i requires 0 <= i < |requests| => (records[requests[i].id], requests[i].order))
  }

  function NewRun(s: System, kind: Kind, requests: seq<Request>): Run
    requires MayStart(s, requests)
  {
    Run(kind, Start(PlanOf(s.records, requests), s.files, s.records), false, false)
  }

  function Started(s: System, kind: Kind, requests: seq<Request>, launches: bool): System {
    if !MayStart(s, requests) then s
    else if launches then
      s.(busy := s.busy + IdsOf(requests), runs := s.runs[s.started := NewRun(s, kind, requests)],
         started := s.started + 1)
    else s.(busy := s.busy + IdsOf(requests), lost := s.lost + IdsOf(requests))
  }

  // A run that still has a request to carry out.
  predicate Going(s: System, run: nat) {
    run in s.runs && !s.runs[run].failed && !s.runs[run].finished
    && |s.runs[run].progress.at| < |s.runs[run].progress.plan|
  }

  // The request a run is at.
  function Current(s: System, run: nat): (Record, Order)
    requires Going(s, run)
  {
    s.runs[run].progress.plan[|s.runs[run].progress.at|]
  }

  // What any step of a run keeps: other folders and records, and where the deployment is.
  ghost predicate OwnChange(s: System, run: nat, files: Files, records: map<Id, Record>) {
    && Going(s, run) && Elsewhere(files, s.files, Current(s, run).0.details.dir)
    && OnlyRecord(records, s.records, Current(s, run).0.id)
    && (Current(s, run).0.id in records ==> Placed(records[Current(s, run).0.id], Current(s, run).0))
  }

  ghost function Next(s: System, e: Event): System {
    match e
    case StartUpgrades(requests, launches) => Started(s, Upgrades, requests, launches)
    case StartOperation(request, launches) => Started(s, Other, [request], launches)
    case Worked(run, files, records) =>
      if OwnChange(s, run, files, records) then s.(files := files, records := records) else s
    case TurnRan(run, files, records) =>
      if OwnChange(s, run, files, records) && s.runs[run].kind.Upgrades?
         && OnNewVersion(files, records, s.runs[run].progress.begun, Current(s, run).0, Current(s, run).1)
      then
        var r := s.runs[run];
        s.(files := files, records := records, runs := s.runs[run := r.(progress := Passed(r.progress, files))])
      else s
    case TurnFailed(run, files, records) =>
      if OwnChange(s, run, files, records) && s.runs[run].kind.Upgrades?
      then s.(files := files, records := records, runs := s.runs[run := s.runs[run].(failed := true)])
      else s
    case Finish(run) =>
      if run in s.runs && (!Going(s, run) || s.runs[run].kind.Other?)
      then s.(runs := s.runs[run := s.runs[run].(finished := true)]) else s
    case Release(run) =>
      if run in s.runs && s.runs[run].finished
      then s.(busy := s.busy - s.runs[run].Ids(), runs := s.runs - {run}) else s
  }

  ghost function After(s: System, events: seq<Event>): System {
    if events == [] then s else Next(After(s, events[..|events| - 1]), events[|events| - 1])
  }

  // ---- Exclusion --------------------------------------------------------------------------

  ghost function Held(runs: map<nat, Run>): set<Id> {
    set run, id | run in runs && id in runs[run].Ids() :: id
  }

  ghost predicate OwnIds(records: map<Id, Record>) {
    forall id :: id in records ==> records[id].id == id
  }

  ghost predicate Exclusive(s: System) {
    && s.busy == Held(s.runs) + s.lost
    && (forall a, b :: a in s.runs && b in s.runs && a != b ==> s.runs[a].Ids() !! s.runs[b].Ids())
    && (forall a :: a in s.runs ==> s.runs[a].Ids() !! s.lost)
    && (forall a :: a in s.runs ==> a < s.started)
    && OwnIds(s.records)
  }

  lemma {:induction false} ExclusiveStep(s: System, e: Event)
    requires Exclusive(s)
    ensures Exclusive(Next(s, e))
  {
    OwnIdsOf(s);
    hide Exclusive, OwnChange, OnNewVersion, MayStart, OwnIds;
    match e {
      case StartUpgrades(requests, launches) => ExclusiveStart(s, Upgrades, requests, launches);
      case StartOperation(request, launches) => ExclusiveStart(s, Other, [request], launches);
      case Worked(run, files, records) =>
        OwnIdsStay(s, run, files, records);
        SameIds(s, Next(s, e));
      case TurnRan(run, files, records) =>
        OwnIdsStay(s, run, files, records);
        ExclusiveTurn(s, run, files, records);
      case TurnFailed(run, files, records) =>
        OwnIdsStay(s, run, files, records);
        SameIds(s, Next(s, e));
      case Finish(run) => SameIds(s, Next(s, e));
      case Release(run) => ExclusiveRelease(s, run);
    }
  }

  lemma {:induction false} OwnIdsOf(s: System)
    requires Exclusive(s)
    ensures OwnIds(s.records)
  {
  }

  lemma {:induction false} OwnIdsStay(s: System, run: nat, files: Files, records: map<Id, Record>)
    requires OwnIds(s.records)
    ensures OwnChange(s, run, files, records) ==> OwnIds(records)
  {
  }

  lemma {:induction false} ExclusiveTurn(s: System, run: nat, files: Files, records: map<Id, Record>)
    requires Exclusive(s) && (OwnChange(s, run, files, records) ==> OwnIds(records))
    ensures Exclusive(Next(s, TurnRan(run, files, records)))
  {
    SameIds(s, Next(s, TurnRan(run, files, records)));
  }

  lemma {:induction false} ExclusiveRelease(s: System, run: nat)
    requires Exclusive(s)
    ensures Exclusive(Next(s, Release(run)))
  {
    var t := Next(s, Release(run));
    if run in s.runs && s.runs[run].finished {
      forall id | id in Held(s.runs) && id !in s.runs[run].Ids() ensures id in Held(t.runs) {
        var a :| a in s.runs && id in s.runs[a].Ids();
        assert a in t.runs && t.runs[a] == s.runs[a];
      }
      assert forall a :: a in t.runs ==> s.runs[a].Ids() !! s.runs[run].Ids();
    }
  }

  lemma {:induction false} SameIds(s: System, t: System)
    requires Exclusive(s) && t.busy == s.busy && t.lost == s.lost && t.started == s.started
    requires OwnIds(t.records) && t.runs.Keys == s.runs.Keys &&
             forall a :: a in s.runs ==> t.runs[a].progress.plan == s.runs[a].progress.plan
    ensures Exclusive(t)
  {
    assert forall a :: a in s.runs ==> t.runs[a].Ids() == s.runs[a].Ids();
    assert Held(t.runs) == Held(s.runs);
  }

  lemma {:induction false} NewIds(s: System, kind: Kind, requests: seq<Request>)
    requires OwnIds(s.records) && MayStart(s, requests)
    ensures NewRun(s, kind, requests).Ids() == IdsOf(requests)
  {
    var run := NewRun(s, kind, requests);
    forall id | id in IdsOf(requests) ensures id in run.Ids() {
      var i :| 0 <= i < |requests| && requests[i].id == id;
      assert run.progress.plan[i].0.id == id;
    }
  }

  lemma {:induction false} ExclusiveStart(s: System, kind: Kind, requests: seq<Request>, launches: bool)
    requires Exclusive(s)
    ensures Exclusive(Started(s, kind, requests, launches))
  {
    var t := Started(s, kind, requests, launches);
    if MayStart(s, requests) {
      assert IdsOf(requests) !! s.busy;
      forall a | a in s.runs ensures s.runs[a].Ids() !! IdsOf(requests) {
        assert forall id :: id in s.runs[a].Ids() ==> id in Held(s.runs);
      }
      if launches {
        var run := NewRun(s, kind, requests);
        NewIds(s, kind, requests);
        assert t.runs[s.started] == run;
        assert Held(t.runs) == Held(s.runs) + IdsOf(requests) by {
          forall id | id in Held(s.runs) ensures id in Held(t.runs) {
            var a :| a in s.runs && id in s.runs[a].Ids();
            assert t.runs[a] == s.runs[a];
          }
          forall id | id in IdsOf(requests) ensures id in Held(t.runs) { assert id in t.runs[s.started].Ids(); }
        }
      }
    }
  }

  /** However starts, steps, ends and releases interleave, the busy deployments are those of
      the unreleased runs, which share none, and those of starts that raised. */
  lemma {:induction false} AlwaysExclusive(s: System, events: seq<Event>)
    requires Exclusive(s)
    ensures Exclusive(After(s, events))
    decreases |events|
  {
    if events != [] {
      AlwaysExclusive(s, events[..|events| - 1]);
      ExclusiveStep(After(s, events[..|events| - 1]), events[|events| - 1]);
    }
  }

  // A start that passed its checks, and raised before its run existed.
  predicate LosesStart(s: System, e: Event) {
    match e
    case StartUpgrades(requests, launches) => MayStart(s, requests) && !launches
    case StartOperation(request, launches) => MayStart(s, [request]) && !launches
    case _ => false
  }

  // No start along the way was lost.
  ghost predicate Lossless(s: System, events: seq<Event>) {
    forall k :: 0 <= k < |events| ==> !LosesStart(After(s, events[..k]), events[k])
  }

  /** The busy deployments are exactly the unreleased runs' as long as no start that passed
      its checks raised, and never again after one did. */
  lemma {:induction false} BusyExactly(s: System, events: seq<Event>)
    requires Exclusive(s) && s.lost == {}
    ensures After(s, events).busy == Held(After(s, events).runs) <==> Lossless(s, events)
  {
    AlwaysExclusive(s, events);
    LostExactly(s, events);
    OnlyHeld(After(s, events));
  }

  lemma {:induction false} OnlyHeld(t: System)
    requires Exclusive(t)
    ensures t.busy == Held(t.runs) <==> t.lost == {}
  {
    if t.lost != {} {
      var id :| id in t.lost;
      assert id !in Held(t.runs) by { assert forall a :: a in t.runs ==> id !in t.runs[a].Ids(); }
      assert id in t.busy;
    }
  }

  lemma {:induction false} LosslessStep(s: System, init: seq<Event>, e: Event)
    ensures Lossless(s, init + [e]) <==> Lossless(s, init) && !LosesStart(After(s, init), e)
  {
    var events := init + [e];
    assert forall k :: 0 <= k < |init| ==> events[..k] == init[..k] && events[k] == init[k];
    assert events[..|init|] == init && events[|init|] == e;
    if Lossless(s, events) {
      assert !LosesStart(After(s, events[..|init|]), events[|init|]);
      forall k | 0 <= k < |init| ensures !LosesStart(After(s, init[..k]), init[k]) {
        assert !LosesStart(After(s, events[..k]), events[k]);
      }
    }
  }

  lemma {:induction false} LostExactly(s: System, events: seq<Event>)
    requires s.lost == {}
    ensures After(s, events).lost == {} <==> Lossless(s, events)
    decreases |events|
  {
    if events != [] {
      var init, e := events[..|events| - 1], events[|events| - 1];
      assert events == init + [e];
      LostExactly(s, init);
      LosslessStep(s, init, e);
      LostStep(After(s, init), e);
    }
  }

  lemma {:induction false} LostStep(s: System, e: Event)
    ensures s.lost <= Next(s, e).lost
    ensures Next(s, e).lost == {} <==> s.lost == {} && !LosesStart(s, e)
  {
    match e {
      case StartUpgrades(requests, launches) =>
        if LosesStart(s, e) { assert requests[0].id in IdsOf(requests); }
      case StartOperation(request, launches) =>
        if LosesStart(s, e) { assert [request][0].id in IdsOf([request]); }
      case _ =>
    }
  }

  /** Until it is released, a deployment's run keeps every other operation on it out; one
      whose start raised stays out for good. */
  lemma {:induction false} BusyRefuses(s: System, requests: seq<Request>, i: nat, kind: Kind, launches: bool)
    requires Exclusive(s) && i < |requests|
    requires requests[i].id in s.lost || exists a :: a in s.runs && requests[i].id in s.runs[a].Ids()
    ensures Started(s, kind, requests, launches) == s
  {
    if requests[i].id !in s.lost {
      var a :| a in s.runs && requests[i].id in s.runs[a].Ids();
      assert requests[i].id in Held(s.runs);
    }
    assert requests[i].id in s.busy;
  }

  lemma {:induction false} LostForGood(s: System, events: seq<Event>)
    requires Exclusive(s)
    ensures s.lost <= After(s, events).lost && s.lost <= After(s, events).busy
    decreases |events|
  {
    AlwaysExclusive(s, events);
    if events != [] {
      LostForGood(s, events[..|events| - 1]);
      LostStep(After(s, events[..|events| - 1]), events[|events| - 1]);
    }
  }

  // ---- What runs of upgrades leave --------------------------------------------------------

  // One folder per deployment, its own on its host.
  ghost predicate OneFolderEach(folder: Id -> string) {
    forall a, b :: folder(a) == folder(b) ==> a == b
  }

  ghost predicate InPlace(s: System, folder: Id -> string) {
    && (forall id :: id in s.records ==> s.records[id].details.dir == folder(id))
    && (forall a, i :: a in s.runs && 0 <= i < |s.runs[a].progress.plan| ==>
          s.runs[a].progress.plan[i].0.details.dir == folder(s.runs[a].progress.plan[i].0.id))
  }

  /** At every moment, and whatever the other runs are doing, each run of upgrades has brought
      the deployments it passed to their versions and left those ahead as they were. */
  ghost predicate InOrder(s: System, folder: Id -> string) {
    Exclusive(s) && InPlace(s, folder) && AllOrderly(s)
  }

  lemma {:induction false} InPlaceStep(s: System, folder: Id -> string, e: Event)
    requires Exclusive(s) && InPlace(s, folder)
    ensures InPlace(Next(s, e), folder)
  {
    hide Exclusive, OwnChange, OnNewVersion, MayStart;
    match e {
      case StartUpgrades(requests, launches) => InPlaceStart(s, folder, Upgrades, requests, launches);
      case StartOperation(request, launches) => InPlaceStart(s, folder, Other, [request], launches);
      case Worked(run, files, records) => InPlaceOwn(s, folder, run, files, records);
      case TurnRan(run, files, records) => InPlaceOwn(s, folder, run, files, records);
      case TurnFailed(run, files, records) => InPlaceOwn(s, folder, run, files, records);
      case _ =>
    }
  }

  lemma {:induction false} InPlaceStart(s: System, folder: Id -> string, kind: Kind, requests: seq<Request>,
                                        launches: bool)
    requires Exclusive(s) && InPlace(s, folder)
    ensures InPlace(Started(s, kind, requests, launches), folder)
  {
  }

  lemma {:induction false} InPlaceOwn(s: System, folder: Id -> string, run: nat, files: Files,
                                      records: map<Id, Record>)
    requires InPlace(s, folder)
    ensures OwnChange(s, run, files, records) ==> Going(s, run)
    ensures OwnChange(s, run, files, records) ==>
              forall id :: id in records ==> records[id].details.dir == folder(id)
  {
  }

  // A step of one run, seen by another.
  lemma {:induction false} StepOfAnother(s: System, folder: Id -> string, run: nat, files: Files,
                                         records: map<Id, Record>, a: nat)
    requires InOrder(s, folder) && OneFolderEach(folder) && OwnChange(s, run, files, records)
    requires a in s.runs && a != run && s.runs[a].kind.Upgrades?
    ensures Orderly(files, records, s.runs[a].progress)
  {
    var own, plan := Current(s, run).0, s.runs[a].progress.plan;
    assert own.id in s.runs[run].Ids();
    forall j | 0 <= j < |plan| ensures plan[j].0.id != own.id && plan[j].0.details.dir != own.details.dir {
      assert plan[j].0.id in s.runs[a].Ids();
    }
    ForeignStepKeeps(s.files, s.records, files, records, s.runs[a].progress, own.details.dir, own.id);
  }

  // A step of one run, for every run.
  lemma {:induction false} StepForAll(s: System, folder: Id -> string, run: nat, files: Files,
                                      records: map<Id, Record>)
    requires InOrder(s, folder) && OneFolderEach(folder) && OwnChange(s, run, files, records)
    ensures forall a :: a in s.runs && s.runs[a].kind.Upgrades? ==> Orderly(files, records, s.runs[a].progress)
  {
    forall a | a in s.runs && s.runs[a].kind.Upgrades? ensures Orderly(files, records, s.runs[a].progress) {
      if a == run {
        OwnStepKeeps(s.files, s.records, files, records, s.runs[run].progress);
      } else {
        StepOfAnother(s, folder, run, files, records, a);
      }
    }
  }

  // Every run of upgrades is orderly.
  ghost predicate AllOrderly(s: System) {
    forall a :: a in s.runs && s.runs[a].kind.Upgrades? ==>
      Orderly(s.files, s.records, s.runs[a].progress) &&
      (s.runs[a].failed ==> |s.runs[a].progress.at| < |s.runs[a].progress.plan|)
  }

  lemma {:induction false} InOrderStep(s: System, folder: Id -> string, e: Event)
    requires InOrder(s, folder) && OneFolderEach(folder)
    ensures InOrder(Next(s, e), folder)
  {
    hide Exclusive, InPlace, OwnChange, OnNewVersion, MayStart, Orderly;
    ExclusiveStep(s, e);
    InPlaceStep(s, folder, e);
    match e {
      case StartUpgrades(requests, launches) => StartInOrder(s, Upgrades, requests, launches);
      case StartOperation(request, launches) => StartInOrder(s, Other, [request], launches);
      case Worked(run, files, records) => WorkedInOrder(s, folder, run, files, records);
      case TurnRan(run, files, records) => TurnRanInOrder(s, folder, run, files, records);
      case TurnFailed(run, files, records) => TurnFailedInOrder(s, folder, run, files, records);
      case _ =>
    }
  }

  lemma {:induction false} StartInOrder(s: System, kind: Kind, requests: seq<Request>, launches: bool)
    requires AllOrderly(s)
    ensures AllOrderly(Started(s, kind, requests, launches))
  {
    if MayStart(s, requests) { StartsOrderly(PlanOf(s.records, requests), s.files, s.records); }
  }

  lemma {:induction false} WorkedInOrder(s: System, folder: Id -> string, run: nat, files: Files,
                                         records: map<Id, Record>)
    requires InOrder(s, folder) && OneFolderEach(folder)
    ensures AllOrderly(Next(s, Worked(run, files, records)))
  {
    if OwnChange(s, run, files, records) { StepForAll(s, folder, run, files, records); }
  }

  lemma {:induction false} TurnFailedInOrder(s: System, folder: Id -> string, run: nat, files: Files,
                                             records: map<Id, Record>)
    requires InOrder(s, folder) && OneFolderEach(folder)
    ensures AllOrderly(Next(s, TurnFailed(run, files, records)))
  {
    if OwnChange(s, run, files, records) { StepForAll(s, folder, run, files, records); }
  }

  lemma {:induction false} TurnRanInOrder(s: System, folder: Id -> string, run: nat, files: Files,
                                           records: map<Id, Record>)
    requires InOrder(s, folder) && OneFolderEach(folder)
    ensures AllOrderly(Next(s, TurnRan(run, files, records)))
  {
    if Next(s, TurnRan(run, files, records)) != s {
      StepForAll(s, folder, run, files, records);
      TurnOver(files, records, s.runs[run].progress);
    }
  }

  /** Under every interleaving of starts, single changes, turns, ends and releases. */
  lemma {:induction false} AlwaysInOrder(s: System, folder: Id -> string, events: seq<Event>)
    requires InOrder(s, folder) && OneFolderEach(folder)
    ensures InOrder(After(s, events), folder)
    decreases |events|
  {
    if events != [] {
      AlwaysInOrder(s, folder, events[..|events| - 1]);
      InOrderStep(After(s, events[..|events| - 1]), folder, events[|events| - 1]);
    }
  }

  /** What a run of upgrades that names no deployment twice leaves when it fails at one of
      them, until it is released: those before have record, state file and files on the
      requested version, made from the files they had when the run started, and those after
      have their folder and record as they were then. */
  ghost predicate FailedInOrder(files: Files, records: map<Id, Record>, p: Progress) {
    && |p.at| < |p.plan|
    && (forall j :: 0 <= j < |p.at| ==>
          OnNewVersion(files, records, p.at[j], p.plan[j].0, p.plan[j].1) && Untouched(p.at[j], p.files, p.plan[j].0))
    && (forall j :: |p.at| < j < |p.plan| ==>
          Untouched(files, p.files, p.plan[j].0) && SameRecord(records, p.records, p.plan[j].0.id))
  }

  ghost predicate NoneTwice(plan: Plan) {
    forall i, j :: 0 <= i < j < |plan| ==> plan[i].0.id != plan[j].0.id
  }

  lemma {:induction false} NoClash(s: System, folder: Id -> string, a: nat, i: nat, j: nat)
    requires InPlace(s, folder) && OneFolderEach(folder) && a in s.runs && NoneTwice(s.runs[a].progress.plan)
    requires i < |s.runs[a].progress.plan| && j < |s.runs[a].progress.plan| && i != j
    ensures !Clash(s.runs[a].progress.plan, i, j)
  {
  }

  lemma {:induction false} FailedRunInOrder(s: System, folder: Id -> string, events: seq<Event>, a: nat)
    requires InOrder(s, folder) && OneFolderEach(folder)
    requires a in After(s, events).runs && After(s, events).runs[a].kind.Upgrades?
    requires After(s, events).runs[a].failed && NoneTwice(After(s, events).runs[a].progress.plan)
    ensures FailedInOrder(After(s, events).files, After(s, events).records, After(s, events).runs[a].progress)
  {
    AlwaysInOrder(s, folder, events);
    var t := After(s, events);
    var p := t.runs[a].progress;
    forall i, j | 0 <= i < |p.plan| && 0 <= j < |p.plan| && i != j ensures !Clash(p.plan, i, j) {
      NoClash(t, folder, a, i, j);
    }
    ClearedOrderly(t.files, t.records, p);
  }

  lemma {:induction false} ClearedOrderly(files: Files, records: map<Id, Record>, p: Progress)
    requires Orderly(files, records, p) && |p.at| < |p.plan|
    requires forall i, j :: 0 <= i < |p.plan| && 0 <= j < |p.plan| && i != j ==> !Clash(p.plan, i, j)
    ensures FailedInOrder(files, records, p)
  {
    forall j | 0 <= j < |p.at|
      ensures OnNewVersion(files, records, p.at[j], p.plan[j].0, p.plan[j].1) &&
              Untouched(p.at[j], p.files, p.plan[j].0)
    {
      assert LastOf(p.plan, j, Reached(p)) && NotAmong(p.plan, j, j);
    }
    forall j | |p.at| < j < |p.plan|
      ensures Untouched(files, p.files, p.plan[j].0) && SameRecord(records, p.records, p.plan[j].0.id)
    {
      assert NotAmong(p.plan, j, Reached(p));
    }
  }

  /** Then record, state file and `.env` of those before all name the requested version, where
      the `.env` was well-kept. */
  lemma {:induction false} FailedRunVersions(files: Files, records: map<Id, Record>, p: Progress, j: nat)
    requires FailedInOrder(files, records, p) && j < |p.at|
    requires Render.VersionName(p.plan[j].1.version) && Plain(Prefix(p.plan[j].1, p.plan[j].0.details))
    requires Path(p.plan[j].0.details.dir, Env) in p.files
    requires EnvEdits.WellKept(p.files[Path(p.plan[j].0.details.dir, Env)])
    ensures var (deployment, order) := p.plan[j];
            var parsed := ParseEnvOf(files[Path(deployment.details.dir, Env)]);
            && "USR_VERSION" in parsed && parsed["USR_VERSION"] == order.version
            && records[deployment.id].details.version == order.version
            && files[Path(deployment.details.dir, State)] == order.encode(NewState(order, deployment.details))
  {
    assert Same(p.at[j], p.files, Path(p.plan[j].0.details.dir, Env));
    EnvOnNewVersion(files, records, p.at[j], p.plan[j].0, p.plan[j].1);
  }

  // ---- A turn among other runs ------------------------------------------------------------

  function DirsOf(run: Run): set<string> {
    set i | 0 <= i < |run.progress.plan| :: run.progress.plan[i].0.details.dir
  }

  // What a run works on.
  ghost predicate SameView(s: System, t: System, run: nat)
    requires run in s.runs
  {
    && Within(t.files, DirsOf(s.runs[run])) == Within(s.files, DirsOf(s.runs[run]))
    && RecordsOf(t.records, s.runs[run].Ids()) == RecordsOf(s.records, s.runs[run].Ids())
  }

  // A step, an end or the release of this run.
  predicate Of(e: Event, run: nat) {
    match e
    case StartUpgrades(_, _) => false
    case StartOperation(_, _) => false
    case Worked(a, _, _) => a == run
    case TurnRan(a, _, _) => a == run
    case TurnFailed(a, _, _) => a == run
    case Finish(a) => a == run
    case Release(a) => a == run
  }

  // Deployments are where they were, each in a folder of its own, and no two runs share one.
  ghost predicate Apart(s: System, folder: Id -> string) {
    Exclusive(s) && InPlace(s, folder) && OneFolderEach(folder)
  }

  lemma {:induction false} ApartStep(s: System, folder: Id -> string, e: Event)
    requires Apart(s, folder)
    ensures Apart(Next(s, e), folder)
  {
    hide Exclusive, InPlace, Next;
    ExclusiveStep(s, e);
    InPlaceStep(s, folder, e);
  }

  // A change that another run makes.
  lemma {:induction false} ViewStays(s: System, folder: Id -> string, a: nat, files: Files, records: map<Id, Record>,
                                     run: nat)
    requires Apart(s, folder) && OwnChange(s, a, files, records) && run in s.runs && a != run
    ensures Within(files, DirsOf(s.runs[run])) == Within(s.files, DirsOf(s.runs[run]))
    ensures RecordsOf(records, s.runs[run].Ids()) == RecordsOf(s.records, s.runs[run].Ids())
  {
    var own := Current(s, a).0;
    assert own.id in s.runs[a].Ids();
    assert own.id !in s.runs[run].Ids();
    var plan := s.runs[run].progress.plan;
    forall i | 0 <= i < |plan| ensures plan[i].0.details.dir != own.details.dir {
      assert plan[i].0.id in s.runs[run].Ids();
      assert plan[i].0.details.dir == folder(plan[i].0.id) && own.details.dir == folder(own.id);
    }
    SameWithin(s.files, files, own.details.dir, DirsOf(s.runs[run]));
    SameRecords(s.records, records, own.id, s.runs[run].Ids());
  }

  lemma {:induction false} SameWithin(f: Files, g: Files, dir: string, dirs: set<string>)
    requires Elsewhere(g, f, dir) && dir !in dirs
    ensures Within(g, dirs) == Within(f, dirs)
  {
    forall p: Path | p.dir in dirs ensures Same(g, f, p) {
    }
  }

  lemma {:induction false} SameRecords(records: map<Id, Record>, after: map<Id, Record>, id: Id, ids: set<Id>)
    requires OnlyRecord(after, records, id) && id !in ids
    ensures RecordsOf(after, ids) == RecordsOf(records, ids)
  {
    forall other | other in ids ensures SameRecord(after, records, other) {
    }
  }

  /** Whatever the others do, a run finds what it works on as it left it: no event but its own
      changes its folders and records, or how far it has come. */
  lemma {:induction false} OthersApart(s: System, folder: Id -> string, run: nat, e: Event)
    requires Apart(s, folder) && run in s.runs && !Of(e, run)
    ensures var t := Next(s, e);
            run in t.runs && t.runs[run] == s.runs[run] && SameView(s, t, run)
  {
    RunsStarted(s, folder);
    hide Next, Of, Apart, SameView;
    RunStays(s, run, e);
    ViewStaysAs(s, folder, run, e);
  }

  lemma {:induction false} RunStays(s: System, run: nat, e: Event)
    requires run in s.runs && run < s.started && !Of(e, run)
    ensures run in Next(s, e).runs && Next(s, e).runs[run] == s.runs[run]
  {
    hide OwnChange, OnNewVersion, MayStart, Passed, Going, Run.Ids, NewRun;
  }

  lemma {:induction false} ViewStaysAs(s: System, folder: Id -> string, run: nat, e: Event)
    requires Apart(s, folder) && run in s.runs && !Of(e, run)
    ensures SameView(s, Next(s, e), run)
  {
    hide Apart, Within, RecordsOf, OwnChange, OnNewVersion, MayStart, Passed, DirsOf, Run.Ids, NewRun, Going;
    match e {
      case Worked(a, files, records) => ChangedApart(s, folder, a, files, records, run);
      case TurnRan(a, files, records) => ChangedApart(s, folder, a, files, records, run);
      case TurnFailed(a, files, records) => ChangedApart(s, folder, a, files, records, run);
      case _ =>
    }
  }

  lemma {:induction false} RunsStarted(s: System, folder: Id -> string)
    requires Apart(s, folder)
    ensures forall a :: a in s.runs ==> a < s.started
  {
  }

  lemma {:induction false} ChangedApart(s: System, folder: Id -> string, a: nat, files: Files,
                                        records: map<Id, Record>, run: nat)
    requires Apart(s, folder) && run in s.runs && a != run
    ensures OwnChange(s, a, files, records) ==>
              Within(files, DirsOf(s.runs[run])) == Within(s.files, DirsOf(s.runs[run])) &&
              RecordsOf(records, s.runs[run].Ids()) == RecordsOf(s.records, s.runs[run].Ids())
  {
    hide Apart, Within, RecordsOf, DirsOf, Run.Ids, Exclusive, InPlace;
    if OwnChange(s, a, files, records) { ViewStays(s, folder, a, files, records, run); }
  }

  ghost predicate NoneOf(events: seq<Event>, run: nat) {
    forall k :: 0 <= k < |events| ==> !Of(events[k], run)
  }

  lemma {:induction false} OthersApartAll(s: System, folder: Id -> string, run: nat, events: seq<Event>)
    requires Apart(s, folder) && run in s.runs && NoneOf(events, run)
    ensures var t := After(s, events);
            Apart(t, folder) && run in t.runs && t.runs[run] == s.runs[run] && SameView(s, t, run)
    decreases |events|
  {
    hide Apart, Next, Of;
    if events != [] {
      var before := After(s, events[..|events| - 1]);
      OthersApartAll(s, folder, run, events[..|events| - 1]);
      OthersApart(before, folder, run, events[|events| - 1]);
      ApartStep(before, folder, events[|events| - 1]);
    }
  }

  /** Each change that an upgrade makes is a step of its run. */
  lemma {:induction false} ChangeWorks(s: System, folder: Id -> string, run: nat, change: Change)
    requires Apart(s, folder) && Going(s, run) && OwnStep(change, Current(s, run).0)
    requires change.from == Everything(s.files, s.records)
    ensures Next(s, Worked(run, change.to.files, change.to.records)) ==
            s.(files := change.to.files, records := change.to.records)
  {
    var own := Current(s, run).0;
    assert own.details.dir == folder(own.id);
    if own.id in change.to.records && SameRecord(change.to.records, change.from.records, own.id) {
      assert own.id in s.records && Placed(s.records[own.id], own);
    }
  }

  // What the others do, and then a change of the run's.
  datatype Beat = Beat(others: seq<Event>, change: Change)

  // As events.
  ghost function Played(run: nat, beats: seq<Beat>): seq<Event> {
    if beats == [] then []
    else
      Played(run, Init(beats)) + Last(beats).others
      + [Worked(run, Last(beats).change.to.files, Last(beats).change.to.records)]
  }

  // The changes fit between what the others do.
  ghost predicate Interleaved(s: System, run: nat, beats: seq<Beat>) {
    beats == [] || (
      var before := After(s, Played(run, Init(beats)) + Last(beats).others);
      && Interleaved(s, run, Init(beats)) && NoneOf(Last(beats).others, run)
      && Last(beats).change.from == Everything(before.files, before.records))
  }

  lemma {:induction false} AfterAppend(s: System, a: seq<Event>, b: seq<Event>)
    ensures After(s, a + b) == After(After(s, a), b)
    decreases |b|
  {
    hide Next;
    if b == [] {
      assert a + b == a;
    } else {
      var init := b[..|b| - 1];
      AfterAppend(s, a, init);
      assert (a + b)[..|a + b| - 1] == a + init;
    }
  }

  // A turn in progress: the run is where it was, and only its changes show in what it works on.
  ghost predicate InTurn(s: System, t: System, folder: Id -> string, run: nat) {
    Apart(t, folder) && run in s.runs && run in t.runs && t.runs[run] == s.runs[run]
  }

  lemma {:induction false} PlayedInTurn(s: System, folder: Id -> string, run: nat, beats: seq<Beat>)
    requires Apart(s, folder) && Going(s, run) && Interleaved(s, run, beats)
    requires forall k :: 0 <= k < |beats| ==> OwnStep(beats[k].change, Current(s, run).0)
    ensures InTurn(s, After(s, Played(run, beats)), folder, run)
    decreases |beats|
  {
    hide Apart, Next, Of, OwnStep;
    if beats != [] {
      PlayedInTurn(s, folder, run, Init(beats));
      var before, others, change := After(s, Played(run, Init(beats))), Last(beats).others, Last(beats).change;
      OthersApartAll(before, folder, run, others);
      AfterAppend(s, Played(run, Init(beats)), others);
      var now := After(before, others);
      var worked := Worked(run, change.to.files, change.to.records);
      assert OwnStep(beats[|beats| - 1].change, Current(s, run).0);
      ChangeWorks(now, folder, run, change);
      ApartStep(now, folder, worked);
      var events := Played(run, Init(beats)) + others;
      assert (events + [worked])[..|events + [worked]| - 1] == events;
    }
  }

  // The new version shows in what the run works on.
  lemma {:induction false} SeenOnNewVersion(files: Files, records: map<Id, Record>, begun: Files, start: Files,
                                            dirs: set<string>, ids: set<Id>, deployment: Record, order: Order)
    requires OnNewVersion(Within(files, dirs), RecordsOf(records, ids), Within(start, dirs), deployment, order)
    requires deployment.details.dir in dirs && deployment.id in ids && Untouched(begun, start, deployment)
    ensures OnNewVersion(files, records, begun, deployment, order)
  {
    hide OnNewVersion;
    var dir := deployment.details.dir;
    forall p: Path | p.dir == dir
      ensures Same(files, Within(files, dirs), p) && Same(begun, Within(start, dirs), p)
    {
      assert Same(begun, start, p);
    }
    OwnFolderOnly(Within(files, dirs), RecordsOf(records, ids), Within(start, dirs), files, records, begun, deployment,
                  order);
  }

  // The run has changed nothing yet for the deployment it is at.
  ghost predicate TurnBegins(s: System, run: nat) {
    Going(s, run) && s.runs[run].kind.Upgrades? && Untouched(s.runs[run].progress.begun, s.files, Current(s, run).0)
  }

  // These changes, with what others do between and after them, lead from s to t.
  ghost predicate Leads(s: System, run: nat, beats: seq<Beat>, after: seq<Event>, t: System) {
    Interleaved(s, run, beats) && NoneOf(after, run) && t == After(s, Played(run, beats) + after)
  }

  ghost predicate ChangesOf(beats: seq<Beat>, changes: seq<Change>) {
    |beats| == |changes| && forall k :: 0 <= k < |beats| ==> beats[k].change == changes[k]
  }

  // So do these, and then these are the files and records.
  ghost predicate Meets(s: System, run: nat, beats: seq<Beat>, after: seq<Event>, t: System, changes: seq<Change>,
                        files: Files, records: map<Id, Record>)
  {
    && Leads(s, run, beats, after, t) && ChangesOf(beats, changes)
    && t.files == files && t.records == records
  }

  // The turn is over in t: it ran, or it failed.
  ghost predicate TurnEnds(s: System, run: nat, t: System, ran: bool)
    requires run in s.runs
  {
    if ran then
      Next(t, TurnRan(run, t.files, t.records)) ==
      t.(runs := t.runs[run := s.runs[run].(progress := Passed(s.runs[run].progress, t.files))])
    else
      Next(t, TurnFailed(run, t.files, t.records)) == t.(runs := t.runs[run := s.runs[run].(failed := true)])
  }

  lemma {:induction false} TurnOverIn(s: System, folder: Id -> string, run: nat, beats: seq<Beat>, after: seq<Event>,
                                      t: System, ran: bool)
    requires Apart(s, folder) && TurnBegins(s, run) && Leads(s, run, beats, after, t)
    requires forall k :: 0 <= k < |beats| ==> OwnStep(beats[k].change, Current(s, run).0)
    requires ran ==> OnNewVersion(t.files, t.records, s.runs[run].progress.begun, Current(s, run).0, Current(s, run).1)
    ensures TurnEnds(s, run, t, ran)
  {
    hide OwnStep, OnNewVersion, Interleaved;
    PlayedInTurn(s, folder, run, beats);
    AfterAppend(s, Played(run, beats), after);
    OthersApartAll(After(s, Played(run, beats)), folder, run, after);
    StaysAsItIs(t, folder, run);
  }

  // Changing nothing is a step too.
  lemma {:induction false} StaysAsItIs(t: System, folder: Id -> string, run: nat)
    requires Apart(t, folder) && Going(t, run)
    ensures OwnChange(t, run, t.files, t.records)
  {
    var own := Current(t, run).0;
    assert own.details.dir == folder(own.id);
  }

  /** The upgrade itself, among the others: wherever their starts, steps, ends and releases fall
      between and after its changes, each of its changes is a step of its run, and when it
      returns its turn is over: on the new version if it says so, failed if not. */
  method UpgradeTurn(world: World, ghost s: System, ghost folder: Id -> string, ghost run: nat, deployment: Record,
                     order: Order) returns (ran: bool)
    requires world.Valid() && world.files == s.files && world.records == s.records
    requires Apart(s, folder) && TurnBegins(s, run) && Current(s, run) == (deployment, order)
    requires world.dirs == DirsOf(s.runs[run]) && world.ids == s.runs[run].Ids()
    modifies world
    ensures old(world.changes) <= world.changes
    ensures forall beats, after, t ::
              Meets(s, run, beats, after, t, world.changes[|old(world.changes)|..], world.files, world.records) ==>
                TurnEnds(s, run, t, ran)
  {
    hide Apart, OwnStep, OnNewVersion, Leads, TurnEnds, Elsewhere, OnlyRecord, Untouched;
    ghost var start := world.changes;
    assert deployment == s.runs[run].progress.plan[|s.runs[run].progress.at|].0;
    ran := UpgradeNext(world, deployment, order);
    forall beats, after, t |
      Meets(s, run, beats, after, t, world.changes[|start|..], world.files, world.records)
      ensures TurnEnds(s, run, t, ran)
    {
      OwnBeats(beats, start, world.changes, deployment);
      if ran {
        SeenOnNewVersion(t.files, t.records, s.runs[run].progress.begun, s.files, world.dirs, world.ids, deployment,
                         order);
      }
      TurnOverIn(s, folder, run, beats, after, t, ran);
    }
  }

  lemma {:induction false} OwnBeats(beats: seq<Beat>, before: seq<Change>, after: seq<Change>, deployment: Record)
    requires OwnSteps(before, after, deployment) && ChangesOf(beats, after[|before|..])
    ensures forall k :: 0 <= k < |beats| ==> OwnStep(beats[k].change, deployment)
  {
    hide OwnStep;
    forall k | 0 <= k < |beats| ensures OwnStep(beats[k].change, deployment) {
      assert beats[k].change == after[|before| + k];
    }
  }

  // ---- A deployment named twice --------------------------------------------------------------

  /** In every run, a deployment that is named again ahead is not as it was when the run started,
      if the last of its turns passed brought it to another version than it had. */
  lemma {:induction false} NamedAgain(s: System, folder: Id -> string, events: seq<Event>, a: nat, i: nat, j: nat)
    requires InOrder(s, folder) && OneFolderEach(folder)
    requires a in After(s, events).runs && After(s, events).runs[a].kind.Upgrades?
    requires var p := After(s, events).runs[a].progress;
             && i < |p.at| <= Reached(p) <= j < |p.plan| && p.plan[j].0.id == p.plan[i].0.id
             && LastOf(p.plan, i, Reached(p))
             && (p.plan[i].0.id in p.records ==> p.records[p.plan[i].0.id].details.version != p.plan[i].1.version)
    ensures var p := After(s, events).runs[a].progress;
            !SameRecord(After(s, events).records, p.records, p.plan[j].0.id)
  {
    hide Baselines, LaterUntouched, RunsNew, Says;
    AlwaysInOrder(s, folder, events);
    var t := After(s, events);
    var p := t.runs[a].progress;
    assert OnNewVersion(t.files, t.records, p.at[i], p.plan[i].0, p.plan[i].1);
  }

  // A run's first turn, and the next one failing at once.
  ghost function RanThenFailed(s: System, run: nat, files: Files, records: map<Id, Record>): System {
    Next(Next(s, TurnRan(run, files, records)), TurnFailed(run, files, records))
  }

  lemma {:induction false} FirstTurnRan(s: System, run: nat, plan: Plan, files: Files, records: map<Id, Record>)
    requires |plan| >= 2 && run in s.runs && s.runs[run] == Run(Upgrades, Start(plan, s.files, s.records), false, false)
    requires Rollout.Turn(s.files, s.records, files, records, s.files, plan[0].0, plan[0].1, true)
    requires plan[0].0.id in records && Placed(records[plan[0].0.id], plan[0].0)
    requires plan[1].0.id in records && Placed(records[plan[1].0.id], plan[1].0)
    ensures var t := RanThenFailed(s, run, files, records);
            && t.files == files && t.records == records && run in t.runs
            && t.runs[run] == Run(Upgrades, Passed(Start(plan, s.files, s.records), files), true, false)
  {
    assert Current(s, run) == plan[0];
    var ran := Next(s, TurnRan(run, files, records));
    assert ran.runs[run].progress == Passed(Start(plan, s.files, s.records), files);
    assert Current(ran, run) == plan[1];
    assert OwnChange(ran, run, files, records);
  }

  /** A deployment asked for twice has changed when a turn between its own two fails: asked
      for again last, it is not as it was when the run started. */
  lemma {:induction false} NamedTwice(s: System, a: Id, b: Id, first: Order, second: Order, third: Order, files: Files,
                                      records: map<Id, Record>)
    requires a != b && a in s.records && b in s.records && a !in s.busy && b !in s.busy
    requires OwnIds(s.records) && s.records[a].details.version != first.version
    requires Rollout.Turn(s.files, s.records, files, records, s.files, s.records[a], first, true)
    requires a in records && Placed(records[a], s.records[a])
    ensures var requests := [Request(a, first), Request(b, second), Request(a, third)];
            var t := RanThenFailed(Next(s, StartUpgrades(requests, true)), s.started, files, records);
            && s.started in t.runs && t.runs[s.started].failed && |t.runs[s.started].progress.at| == 1
            && |t.runs[s.started].progress.plan| == 3 && t.runs[s.started].progress.plan[2].0.id == a
            && !SameRecord(t.records, t.runs[s.started].progress.records, a)
  {
    var requests := [Request(a, first), Request(b, second), Request(a, third)];
    assert MayStart(s, requests);
    assert b in records && records[b] == s.records[b];
    FirstTurnRan(Next(s, StartUpgrades(requests, true)), s.started, PlanOf(s.records, requests), files, records);
  }

  // ---- The installer's own state ------------------------------------------------------------------

  datatype Refusal = NothingToDo | NoSuchDeployment(id: Id) | StillRunning(id: Id) | Raised

  /** `Installer`, as far as starting and releasing go: each call is one event above. */
  class Installer {
    var records: map<Id, Record>
    var busy: set<Id>
    var tasks: map<nat, Run>
    var started: nat
    // What is on the hosts.
    var files: Files
    ghost var lost: set<Id>

    ghost function Seen(): System
      reads this
    {
      System(files, records, busy, tasks, started, lost)
    }

    constructor (records: map<Id, Record>, files: Files)
      ensures Seen() == System(files, records, {}, map[], 0, {}) && (OwnIds(records) ==> Exclusive(Seen()))
    {
      this.records, this.files := records, files;
      busy, tasks, started, lost := {}, map[], 0, {};
    }

    // `_checked`: why an operation on it cannot start, if it cannot.
    function Checked(id: Id): Option<Refusal>
      reads this
    {
      if id !in records then Some(NoSuchDeployment(id))
      else if id in busy then Some(StillRunning(id))
      else None
    }

    // `_launch` may raise before the run exists, after its deployments are marked busy.
    method Launch(kind: Kind, requests: seq<Request>, launches: bool, run: Run)
      returns (launched: Result<nat, Refusal>)
      requires forall i :: 0 <= i < |requests| ==> requests[i].id in records
      requires run == Run(kind, Start(PlanOf(records, requests), files, records), false, false)
      modifies this`tasks, this`started, this`lost
      ensures if launches
              then tasks == old(tasks)[old(started) := run] &&
                   started == old(started) + 1 && lost == old(lost) && launched == Ok(old(started))
              else tasks == old(tasks) && started == old(started) && lost == old(lost) + IdsOf(requests) &&
                   launched == Err(Raised)
    {
      if launches {
        tasks := tasks[started := run];
        started := started + 1;
        launched := Ok(started - 1);
      } else {
        lost := lost + IdsOf(requests);
        launched := Err(Raised);
      }
    }

    method StartUpgrades(requests: seq<Request>, launches: bool) returns (run: Result<nat, Refusal>)
      modifies this
      ensures Seen() == Next(old(Seen()), Event.StartUpgrades(requests, launches))
      ensures run.Ok? <==> old(MayStart(Seen(), requests)) && launches
    {
      if |requests| == 0 { return Err(NothingToDo); }
      for i := 0 to |requests|
        invariant Seen() == old(Seen())
        invariant forall j :: 0 <= j < i ==> Checked(requests[j].id).None?
      {
        var refusal := Checked(requests[i].id);
        if refusal.Some? { return Err(refusal.value); }
      }
      var launched := NewRun(System(files, records, busy, tasks, started, {}), Upgrades, requests);
      busy := busy + IdsOf(requests);
      run := Launch(Upgrades, requests, launches, launched);
    }

    method StartOperation(request: Request, launches: bool) returns (run: Result<nat, Refusal>)
      modifies this
      ensures Seen() == Next(old(Seen()), Event.StartOperation(request, launches))
      ensures run.Ok? <==> old(MayStart(Seen(), [request])) && launches
    {
      var refusal := Checked(request.id);
      if refusal.Some? { return Err(refusal.value); }
      assert IdsOf([request]) == {request.id} by { assert [request][0].id in IdsOf([request]); }
      assert MayStart(Seen(), [request]);
      var launched := NewRun(System(files, records, busy, tasks, started, {}), Other, [request]);
      busy := busy + {request.id};
      run := Launch(Other, [request], launches, launched);
    }

    // The done callback of a finished task.
    method Release(run: nat)
      requires run in tasks && tasks[run].finished
      modifies this
      ensures Seen() == Next(old(Seen()), Event.Release(run))
    {
      busy := busy - tasks[run].Ids();
      tasks := tasks - {run};
    }
  }
}
