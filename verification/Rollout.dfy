/** Upgrading several deployments in one run: the body of `start_upgrades`
    (installer/runner.py). */
module Rollout {
  import opened Basics
  import opened EnvFile
  import EnvEdits
  import Render
  import opened Deployments

  type Plan = seq<(Record, Order)>

  // This server's record, the host's state file and the deployment's files are all on its order's version.
  ghost predicate OnNewVersion(f: Files, records: map<string, Record>, orig: Files, deployment: Record, order: Order) {
    && RunsNew(f, orig, order, deployment.details, Tracked(deployment.details.components, deployment.details.shared))
    && Says(f, order, deployment.details)
    && deployment.id in records && records[deployment.id].details.version == order.version
  }

  ghost predicate Untouched(f: Files, orig: Files, deployment: Record) {
    forall p: Path :: p.dir == deployment.details.dir ==> Same(f, orig, p)
  }

  /** What the upgrade of one deployment does to what a run works on: only its folder and its
      record change, and when it ran they are on the new version. */
  ghost predicate Turn(f: Files, records: map<string, Record>, g: Files, recorded: map<string, Record>, begun: Files,
                       deployment: Record, order: Order, ran: bool)
  {
    && Elsewhere(g, f, deployment.details.dir) && OnlyRecord(recorded, records, deployment.id)
    && (ran ==> OnNewVersion(g, recorded, begun, deployment, order))
  }

  /** That depends on the deployment's own folder and record alone. */
  lemma {:induction false} OwnFolderOnly(f: Files, records: map<string, Record>, orig: Files, g: Files,
                                         recorded: map<string, Record>, begun: Files, deployment: Record, order: Order)
    requires OnNewVersion(f, records, orig, deployment, order)
    requires Untouched(g, f, deployment) && Untouched(begun, orig, deployment)
    requires SameRecord(recorded, records, deployment.id)
    ensures OnNewVersion(g, recorded, begun, deployment, order)
  {
    forall name ensures Same(g, f, Path(deployment.details.dir, name)) &&
                        Same(begun, orig, Path(deployment.details.dir, name)) {
    }
  }

  // ---- A run of upgrades ----------------------------------------------------------------

  /** How far a run has come: the files at the start of each turn that ran, of the turn it is
      at, and of the whole run, with the records then. */
  datatype Progress = Progress(plan: Plan, at: seq<Files>, begun: Files, files: Files, records: map<string, Record>)

  function Start(plan: Plan, files: Files, records: map<string, Record>): Progress {
    Progress(plan, [], files, files, records)
  }

  // How many of its deployments a run may have changed: those before its turn, and its own.
  function Reached(p: Progress): nat {
    if |p.at| < |p.plan| then |p.at| + 1 else |p.plan|
  }

  // Two requests of a plan that change the same deployment, or the same folder.
  ghost predicate Clash(plan: Plan, i: nat, j: nat)
    requires i < |plan| && j < |plan|
  {
    plan[i].0.id == plan[j].0.id || plan[i].0.details.dir == plan[j].0.details.dir
  }

  // No request after the j-th, up to the n-th, changes what the j-th does.
  ghost predicate LastOf(plan: Plan, j: nat, n: nat)
    requires j < |plan| && n <= |plan|
  {
    forall i :: j < i < n ==> !Clash(plan, i, j)
  }

  // None of the first n requests changes what the j-th does.
  ghost predicate NotAmong(plan: Plan, j: nat, n: nat)
    requires j < |plan| && n <= |plan|
  {
    forall i :: 0 <= i < n ==> !Clash(plan, i, j)
  }

  /** Deployments whose turn ran are on their new versions, from the files they had when the
      turn began, and those not reached are as when the run started. A deployment named twice
      answers to its last turn. */
  ghost predicate Orderly(f: Files, records: map<string, Record>, p: Progress) {
    |p.at| <= |p.plan| && PassedOn(f, records, p) && LaterUntouched(f, records, p) && Baselines(p)
  }

  ghost predicate PassedOn(f: Files, records: map<string, Record>, p: Progress)
    requires |p.at| <= |p.plan|
  {
    forall j :: 0 <= j < |p.at| && LastOf(p.plan, j, Reached(p)) ==>
      OnNewVersion(f, records, p.at[j], p.plan[j].0, p.plan[j].1)
  }

  ghost predicate LaterUntouched(f: Files, records: map<string, Record>, p: Progress)
    requires |p.at| <= |p.plan|
  {
    forall j :: Reached(p) <= j < |p.plan| && NotAmong(p.plan, j, Reached(p)) ==>
      Untouched(f, p.files, p.plan[j].0) && SameRecord(records, p.records, p.plan[j].0.id)
  }

  ghost predicate Baselines(p: Progress)
    requires |p.at| <= |p.plan|
  {
    && (forall j :: 0 <= j < |p.at| && NotAmong(p.plan, j, j) ==> Untouched(p.at[j], p.files, p.plan[j].0))
    && (|p.at| < |p.plan| && NotAmong(p.plan, |p.at|, |p.at|) ==>
          Untouched(p.begun, p.files, p.plan[|p.at|].0))
  }

  lemma {:induction false} StartsOrderly(plan: Plan, files: Files, records: map<string, Record>)
    ensures Orderly(files, records, Start(plan, files, records))
  {
  }

  // A change to one other folder and one other record.
  lemma {:induction false} OthersStay(f: Files, records: map<string, Record>, g: Files, recorded: map<string, Record>,
                                      orig: Files, deployment: Record, order: Order, dir: string, id: string)
    requires Elsewhere(g, f, dir) && OnlyRecord(recorded, records, id)
    requires deployment.details.dir != dir && deployment.id != id
    ensures Untouched(g, f, deployment) && SameRecord(recorded, records, deployment.id)
    ensures OnNewVersion(f, records, orig, deployment, order) ==> OnNewVersion(g, recorded, orig, deployment, order)
    ensures Untouched(f, orig, deployment) ==> Untouched(g, orig, deployment)
  {
    if OnNewVersion(f, records, orig, deployment, order) {
      OwnFolderOnly(f, records, orig, g, recorded, orig, deployment, order);
    }
    if Untouched(f, orig, deployment) {
      forall p: Path | p.dir == deployment.details.dir ensures Same(g, orig, p) {
        assert Same(g, f, p) && Same(f, orig, p);
      }
    }
  }

  /** A change within the turn's own folder and record keeps what is said of the others. */
  lemma {:induction false} OwnStepKeeps(f: Files, records: map<string, Record>, g: Files,
                                        recorded: map<string, Record>, p: Progress)
    requires Orderly(f, records, p) && |p.at| < |p.plan|
    requires Elsewhere(g, f, p.plan[|p.at|].0.details.dir) && OnlyRecord(recorded, records, p.plan[|p.at|].0.id)
    ensures Orderly(g, recorded, p)
  {
    var n := |p.at|;
    var own := p.plan[n].0;
    forall j | 0 <= j < n && LastOf(p.plan, j, n + 1)
      ensures OnNewVersion(g, recorded, p.at[j], p.plan[j].0, p.plan[j].1)
    {
      assert !Clash(p.plan, n, j);
      OthersStay(f, records, g, recorded, p.at[j], p.plan[j].0, p.plan[j].1, own.details.dir, own.id);
    }
    forall j | n < j < |p.plan| && NotAmong(p.plan, j, n + 1)
      ensures Untouched(g, p.files, p.plan[j].0) && SameRecord(recorded, p.records, p.plan[j].0.id)
    {
      assert !Clash(p.plan, n, j);
      OthersStay(f, records, g, recorded, p.files, p.plan[j].0, p.plan[j].1, own.details.dir, own.id);
    }
  }

  /** So does a change to a folder and a record that are none of the run's. */
  lemma {:induction false} ForeignStepKeeps(f: Files, records: map<string, Record>, g: Files,
                                            recorded: map<string, Record>, p: Progress, dir: string, id: string)
    requires Orderly(f, records, p) && Elsewhere(g, f, dir) && OnlyRecord(recorded, records, id)
    requires forall j :: 0 <= j < |p.plan| ==> p.plan[j].0.id != id && p.plan[j].0.details.dir != dir
    ensures Orderly(g, recorded, p)
  {
    forall j | 0 <= j < |p.at| && LastOf(p.plan, j, Reached(p))
      ensures OnNewVersion(g, recorded, p.at[j], p.plan[j].0, p.plan[j].1)
    {
      OthersStay(f, records, g, recorded, p.at[j], p.plan[j].0, p.plan[j].1, dir, id);
    }
    forall j | Reached(p) <= j < |p.plan| && NotAmong(p.plan, j, Reached(p))
      ensures Untouched(g, p.files, p.plan[j].0) && SameRecord(recorded, p.records, p.plan[j].0.id)
    {
      OthersStay(f, records, g, recorded, p.files, p.plan[j].0, p.plan[j].1, dir, id);
    }
  }

  // The run with its turn over, on the new version.
  function Passed(p: Progress, files: Files): Progress {
    p.(at := p.at + [p.begun], begun := files)
  }

  /** A turn that ran is one more deployment on its new version. */
  lemma {:induction false} TurnOver(f: Files, records: map<string, Record>, p: Progress)
    requires Orderly(f, records, p) && |p.at| < |p.plan|
    requires OnNewVersion(f, records, p.begun, p.plan[|p.at|].0, p.plan[|p.at|].1)
    ensures Orderly(f, records, Passed(p, f))
  {
    OverPassed(f, records, p);
    OverLater(f, records, p);
    OverBaselines(f, records, p);
  }

  lemma {:induction false} OverPassed(f: Files, records: map<string, Record>, p: Progress)
    requires |p.at| < |p.plan| && PassedOn(f, records, p)
    requires OnNewVersion(f, records, p.begun, p.plan[|p.at|].0, p.plan[|p.at|].1)
    ensures PassedOn(f, records, Passed(p, f))
  {
    hide OnNewVersion, LastOf;
    var q := Passed(p, f);
    forall j | 0 <= j < |q.at| && LastOf(q.plan, j, Reached(q))
      ensures OnNewVersion(f, records, q.at[j], q.plan[j].0, q.plan[j].1)
    {
      if j < |p.at| { LastOfLess(p.plan, j, Reached(p), Reached(q)); }
    }
  }

  lemma {:induction false} OverLater(f: Files, records: map<string, Record>, p: Progress)
    requires |p.at| < |p.plan| && LaterUntouched(f, records, p)
    ensures LaterUntouched(f, records, Passed(p, f))
  {
    var q := Passed(p, f);
    forall j | Reached(q) <= j < |q.plan| && NotAmong(q.plan, j, Reached(q))
      ensures Untouched(f, q.files, q.plan[j].0) && SameRecord(records, q.records, q.plan[j].0.id)
    {
      NotAmongLess(p.plan, j, Reached(p), Reached(q));
    }
  }

  lemma {:induction false} OverBaselines(f: Files, records: map<string, Record>, p: Progress)
    requires |p.at| < |p.plan| && LaterUntouched(f, records, p) && Baselines(p)
    ensures Baselines(Passed(p, f))
  {
  }

  lemma {:induction false} LastOfLess(plan: Plan, j: nat, m: nat, n: nat)
    requires j < |plan| && m <= n <= |plan| && LastOf(plan, j, n)
    ensures LastOf(plan, j, m)
  {
  }

  lemma {:induction false} NotAmongLess(plan: Plan, j: nat, m: nat, n: nat)
    requires j < |plan| && m <= n <= |plan| && NotAmong(plan, j, n)
    ensures NotAmong(plan, j, m)
  {
  }

  lemma {:induction false} NoTurn(f: Files, records: map<string, Record>, deployment: Record, order: Order)
    ensures Turn(f, records, f, records, f, deployment, order, false)
  {
  }

  lemma {:induction false} FailedTurn(f: Files, records: map<string, Record>, g: Files, deployment: Record,
                                      order: Order)
    requires Elsewhere(g, f, deployment.details.dir)
    ensures Turn(f, records, g, records, f, deployment, order, false)
  {
  }

  lemma {:induction false} RecordedTurn(f: Files, records: map<string, Record>, g: Files,
                                        recorded: map<string, Record>, deployment: Record, order: Order)
    requires Elsewhere(g, f, deployment.details.dir) && Says(g, order, deployment.details)
    requires RunsNew(g, f, order, deployment.details,
                     Tracked(deployment.details.components, deployment.details.shared))
    requires exists imageVersion ::
               recorded == records[deployment.id := NewRecord(order, deployment, imageVersion)]
    ensures forall ran :: Turn(f, records, g, recorded, f, deployment, order, ran)
  {
    hide RunsNew, Says, Elsewhere, Tracked;
  }

  method UpgradeNext(world: World, deployment: Record, order: Order) returns (ran: bool)
    requires world.Valid() && deployment.details.dir in world.dirs && deployment.id in world.ids
    modifies world
    ensures world.Valid() && OwnSteps(old(world.changes), world.changes, deployment)
    ensures Turn(old(world.mine), old(world.recorded), world.mine, world.recorded, old(world.mine), deployment, order,
                 ran)
  {
    NoSteps(world.changes, deployment.details.dir);
    StepsOwn(world.changes, world.changes, deployment);
    NoTurn(world.mine, world.recorded, deployment, order);
    hide OwnSteps, Steps, World.Valid, RunsNew, Says, KeptUntil, NewSince, Kept, Restored, Touches, Turn, OnlyBackups,
         EachCopied, Elsewhere, Tracked, NewRecord, KeptSince;
    var told := world.Attempt();  // an event
    ran := false;
    if told.Done? {
      ghost var f, records := world.mine, world.recorded;
      var end, _ := Upgrade(world, deployment, order);
      ran := end.Upgraded?;
      if end in {Upgraded, Unreachable} {
        RecordedTurn(f, records, world.mine, world.recorded, deployment, order);
      } else {
        FailedTurn(f, records, world.mine, deployment, order);
      }
    }
  }

  // Each change made between is one of the first n deployments' own.
  ghost predicate PlanSteps(before: seq<Change>, after: seq<Change>, plan: Plan, n: nat)
    requires n <= |plan|
  {
    before <= after && forall k :: |before| <= k < |after| ==> PlanStep(after[k], plan, n)
  }

  ghost predicate PlanStep(change: Change, plan: Plan, n: nat)
    requires n <= |plan|
  {
    exists j :: 0 <= j < n && OwnStep(change, plan[j].0)
  }

  lemma {:induction false} PlanStepsNext(before: seq<Change>, between: seq<Change>, after: seq<Change>, plan: Plan,
                                         n: nat)
    requires n < |plan| && PlanSteps(before, between, plan, n) && OwnSteps(between, after, plan[n].0)
    ensures PlanSteps(before, after, plan, n + 1)
  {
    hide OwnStep;
    forall k | |before| <= k < |after| ensures PlanStep(after[k], plan, n + 1) {
      if k < |between| {
        assert after[k] == between[k];
        var j :| 0 <= j < n && OwnStep(after[k], plan[j].0);
        assert 0 <= j < n + 1;
      } else {
        assert OwnStep(after[k], plan[n].0);
      }
    }
  }

  /** The body of `start_upgrades`: deployments in turn, until one fails, while other runs work
      on other deployments. Nothing but the plan's own folders and records is changed by it. */
  method UpgradeInTurn(world: World, plan: Plan) returns (failed: Option<nat>, ghost progress: Progress)
    requires world.Valid()
    requires forall j :: 0 <= j < |plan| ==> plan[j].0.details.dir in world.dirs && plan[j].0.id in world.ids
    modifies world
    ensures world.Valid()
    ensures progress.plan == plan && progress.files == old(world.mine) && progress.records == old(world.recorded)
    ensures if failed.Some? then failed.value < |plan| && |progress.at| == failed.value else |progress.at| == |plan|
    ensures Orderly(world.mine, world.recorded, progress)
    ensures PlanSteps(old(world.changes), world.changes, plan, Reached(progress))
    ensures Beyond(world.mine, old(world.mine), plan, Reached(progress))
    ensures RecordsBeyond(world.recorded, old(world.recorded), plan, Reached(progress))
  {
    ghost var orig, records, start := world.mine, world.recorded, world.changes;
    progress := Start(plan, orig, records);
    StartsOrderly(plan, orig, records);
    hide Orderly, OwnSteps, OnNewVersion, OnlyRecord, Elsewhere, World.Valid;
    for i := 0 to |plan|
      invariant world.Valid()
      invariant progress.plan == plan && progress.files == orig && progress.records == records
      invariant |progress.at| == i && Orderly(world.mine, world.recorded, progress)
      invariant i < |plan| ==> progress.begun == world.mine
      invariant Beyond(world.mine, orig, plan, i) && RecordsBeyond(world.recorded, records, plan, i)
      invariant PlanSteps(start, world.changes, plan, i)
    {
      ghost var before, recorded, did := world.mine, world.recorded, world.changes;
      var ran := UpgradeNext(world, plan[i].0, plan[i].1);
      PlanStepsNext(start, did, world.changes, plan, i);
      OwnStepKeeps(before, recorded, world.mine, world.recorded, progress);
      BeyondNext(before, recorded, world.mine, world.recorded, orig, records, plan, i);
      if !ran {
        return Some(i), progress;
      }
      TurnOver(world.mine, world.recorded, progress);
      progress := Passed(progress, world.mine);
    }
    failed := None;
  }

  // All but the folders of the first n deployments of the plan is as it was.
  ghost predicate Beyond(f: Files, orig: Files, plan: Plan, n: nat)
    requires n <= |plan|
  {
    forall p: Path :: (forall j :: 0 <= j < n ==> plan[j].0.details.dir != p.dir) ==> Same(f, orig, p)
  }

  ghost predicate RecordsBeyond(records: map<string, Record>, before: map<string, Record>, plan: Plan, n: nat)
    requires n <= |plan|
  {
    forall id :: (forall j :: 0 <= j < n ==> plan[j].0.id != id) ==> SameRecord(records, before, id)
  }

  lemma {:induction false} BeyondNext(f: Files, records: map<string, Record>, g: Files, recorded: map<string, Record>,
                                      orig: Files, before: map<string, Record>, plan: Plan, i: nat)
    requires i < |plan| && Beyond(f, orig, plan, i) && RecordsBeyond(records, before, plan, i)
    requires Elsewhere(g, f, plan[i].0.details.dir) && OnlyRecord(recorded, records, plan[i].0.id)
    ensures Beyond(g, orig, plan, i + 1) && RecordsBeyond(recorded, before, plan, i + 1)
  {
    forall p: Path | forall j :: 0 <= j < i + 1 ==> plan[j].0.details.dir != p.dir ensures Same(g, orig, p) {
      assert plan[i].0.details.dir != p.dir;
      assert Same(g, f, p) && Same(f, orig, p);
    }
    forall id | forall j :: 0 <= j < i + 1 ==> plan[j].0.id != id ensures SameRecord(recorded, before, id) {
      assert plan[i].0.id != id;
      assert SameRecord(recorded, records, id) && SameRecord(records, before, id);
    }
  }

  /** A well-kept `.env` then says that version too: record, host state file and `.env` agree. */
  lemma {:induction false} EnvOnNewVersion(f: Files, records: map<string, Record>, orig: Files, deployment: Record,
                                           order: Order)
    requires OnNewVersion(f, records, orig, deployment, order)
    requires Render.VersionName(order.version) && Plain(Prefix(order, deployment.details))
    requires EnvEdits.WellKept(orig[Path(deployment.details.dir, Env)])
    ensures var parsed := ParseEnvOf(f[Path(deployment.details.dir, Env)]);
            "USR_VERSION" in parsed && parsed["USR_VERSION"] == order.version ==
              records[deployment.id].details.version == NewState(order, deployment.details).version
  {
    Render.UpgradeParses(orig[Path(deployment.details.dir, Env)], order.version, Prefix(order, deployment.details));
    Render.VersionKeysStay();
  }
}
