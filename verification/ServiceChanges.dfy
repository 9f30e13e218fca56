/** Turning a host's backend, workers or WebUI on or off: `_change_services`
    (installer/runner.py). */
module ServiceChanges {
  import opened Basics
  import opened EnvEdits
  import opened EnvFile
  import opened Text
  import opened Render
  import opened Deployments

  datatype Services = Services(backend: bool, worker: bool, webui: bool)

  datatype ServicesEnd =
    | ServicesChanged
    | BackendUnreachable  // changed and recorded, but the added backend was not reached
    | Unchanged           // the host already runs these services
    | ServicesNotStarted
    | WentBack
    | GoingBackFailed
    | ServicesInterrupted
    | ServicesUnrecorded

  function Wanted(current: Components, services: Services): Components {
    current.(backend := services.backend, worker := services.worker, webui := services.webui)
  }

  function ServiceEdits(current: Components, wanted: Components, tlsHostname: string): seq<Edit> {
    [Set("COMPOSE_PROFILES", CommaJoin(wanted.Profiles()))]
    + if wanted.webui && !current.webui
      then [Set("USR_WEBUI_TLS", "self-signed"), Set("USR_WEBUI_TLS_HOSTNAMES", tlsHostname)] else []
  }

  lemma {:induction false} JoinPlain(parts: seq<string>)
    requires parts != [] && forall i :: 0 <= i < |parts| ==> Plain(parts[i])
    ensures Plain(Join(parts, ","))
  {
    if |parts| > 1 {
      JoinPlain(parts[1..]);
      PlainAppend(",", Join(parts[1..], ","));
      PlainAppend(parts[0], "," + Join(parts[1..], ","));
    }
  }

  lemma {:induction false} PlainAppend(a: string, b: string)
    requires Plain(a) && Plain(b)
    ensures Plain(a + b)
  {
  }

  lemma {:induction false} ProfilesPlain(c: Components)
    ensures Plain(CommaJoin(c.Profiles()))
  {
    var parts := c.Profiles();
    forall i | 0 <= i < |parts| ensures Plain(parts[i]) {
      assert parts[i] in ["webui", "backend", "worker", "postgres", "redis"];
      assert Plain("webui") && Plain("backend") && Plain("worker") && Plain("postgres") && Plain("redis");
    }
    hide Plain, Join;
    if parts != [] { JoinPlain(parts); }
    assert Plain("") by { NonePlain(); }
  }

  lemma {:induction false} NonePlain()
    ensures Plain("") && Plain("self-signed")
  {
  }

  /** A well-kept `.env` parses afterwards as it did before, with the profiles of the wanted
      services, and with the certificate's settings when a WebUI is added. */
  lemma {:induction false} ServicesParse(env: string, current: Components, wanted: Components, tlsHostname: string)
    requires WellKept(env) && Plain(tlsHostname)
    ensures var after := EditTextAll(env, ServiceEdits(current, wanted, tlsHostname));
            var profiled := ParseEnvOf(env)["COMPOSE_PROFILES" := CommaJoin(wanted.Profiles())];
            && WellKept(after)
            && ParseEnvOf(after) ==
                 if wanted.webui && !current.webui
                 then profiled["USR_WEBUI_TLS" := "self-signed"]["USR_WEBUI_TLS_HOSTNAMES" := tlsHostname]
                 else profiled
  {
    hide Plain, KeyName, CommaJoin, WellKept, EditTextAll, ParseEnvOf;
    var edits := ServiceEdits(current, wanted, tlsHostname);
    VersionKeyNames();
    TlsKeyNames();
    NonePlain();
    ProfilesPlain(wanted);
    EditsParse(env, edits);
    var parsed := ParseEnvOf(env);
    assert EditEnvAll(parsed, []) == parsed;
    assert EditEnvAll(parsed, [edits[0]]) == EditEnv(parsed, edits[0]) by { assert Init([edits[0]]) == []; }
    if |edits| == 1 {
      assert edits == [edits[0]];
    } else {
      assert Init(edits) == [edits[0], edits[1]] && Init([edits[0], edits[1]]) == [edits[0]];
    }
  }

  function ServicesDetails(details: Details, services: Services): Details {
    details.(components := Wanted(details.components, services), shared := details.shared && services.backend)
  }

  function ServicesState(details: Details): HostState {
    HostState(details.project, details.version, details.imageSource, details.imagePrefix, details.components,
              details.shared)
  }

  /** `_change_services`, for every point at which it may fail: the same promise for the
      `.env`, the one file it changes before it records the new services. */
  method ChangeServices(world: World, deployment: Record, services: Services, tlsHostname: string,
                        encode: HostState -> string, decode: string -> Option<HostState>)
    returns (end: ServicesEnd, ghost settled: nat)
    requires world.Valid() && deployment.details.dir in world.dirs && deployment.id in world.ids
    modifies world
    ensures world.Valid() && OwnSteps(old(world.changes), world.changes, deployment)
    ensures var details := deployment.details;
            var after := ServicesDetails(details, services);
            var orig := old(world.mine);
            && old(world.trace) <= world.trace && |old(world.trace)| <= settled <= |world.trace|
            && (forall k :: |old(world.trace)| <= k < |world.trace| ==> Elsewhere(world.trace[k], orig, details.dir))
            && (end in {Unchanged, ServicesNotStarted} ==> OnlyBackups(world.mine, orig, details.dir, [Env]))
            && (end !in {Unchanged, ServicesNotStarted} ==>
                  KeptUntil(|old(world.trace)|, settled, world.trace, orig, details.dir, [Env]) &&
                  ServesSince(settled, world.trace, orig, details, services, tlsHostname))
            && (end.WentBack? ==> Restored(world.mine, orig, details.dir, [Env]))
            && (end in {WentBack, GoingBackFailed, ServicesInterrupted} ==>
                  Kept(world.mine, orig, details.dir, [Env]) && Touches(world.mine, orig, details.dir, [Env]))
            && (end.Unchanged? <==> end != ServicesNotStarted && after.components == details.components)
            && (end in {ServicesChanged, BackendUnreachable, ServicesUnrecorded} ==>
                  EnvServes(world.mine, orig, details, services, tlsHostname))
            && (end in {ServicesChanged, BackendUnreachable} ==>
                  ServicesRecorded(world.mine, world.recorded, old(world.recorded), deployment, services, encode))
            && (end !in {ServicesChanged, BackendUnreachable} ==> world.recorded == old(world.recorded))
  {
    hide Steps, OwnSteps, World.Valid, Kept, Touches, Elsewhere, OnlyBackups, Restored, Safe, LiveAs, EnvServes,
         ServicesRecorded, Wanted, KeptUntil;
    ghost var orig, start, dir := world.mine, world.changes, deployment.details.dir;
    settled := |world.trace|;
    EnvTracked();
    var ended := PrepareServices(world, deployment, services, decode);
    StepsOwn(start, world.changes, deployment);
    if ended.Some? { return ended.value, settled; }
    ghost var backed, prepared := world.trace, world.changes;
    end, settled := SwitchServices(world, orig, deployment, services, tlsHostname, encode);
    OwnTwice(start, prepared, world.changes, deployment);
    KeptOn(backed, world.trace, |old(world.trace)|, settled, orig, dir, [Env]);
  }

  lemma {:induction false} EnvTracked()
    ensures Names([Env])
  {
  }

  lemma {:induction false} KeptOn(before: seq<Files>, trace: seq<Files>, from: nat, to: nat, orig: Files, dir: string,
                                  names: seq<FileName>)
    requires before <= trace && from <= |before| <= to <= |trace|
    requires KeptUntil(from, |before|, before, orig, dir, names) && KeptUntil(|before|, to, trace, orig, dir, names)
    ensures KeptUntil(from, to, trace, orig, dir, names)
  {
  }

  // Before anything changes: the host is checked, its state file read, and the `.env` copied.
  method PrepareServices(world: World, deployment: Record, services: Services, decode: string -> Option<HostState>)
    returns (ended: Option<ServicesEnd>)
    requires world.Valid() && deployment.details.dir in world.dirs
    modifies world`files, world`records, world`mine, world`trace, world`changes
    ensures world.Valid() && Steps(old(world.changes), world.changes, deployment.details.dir)
    ensures old(world.trace) <= world.trace
    ensures OnlyBackups(world.mine, old(world.mine), deployment.details.dir, [Env])
    ensures forall k :: |old(world.trace)| <= k < |world.trace| ==>
              Elsewhere(world.trace[k], old(world.mine), deployment.details.dir)
    ensures ended.Some? ==> ended.value in {Unchanged, ServicesNotStarted}
    ensures ended != Some(ServicesNotStarted) ==>
              (ended == Some(Unchanged) <==>
                 ServicesDetails(deployment.details, services).components == deployment.details.components)
    ensures ended.None? ==>
              && KeptUntil(|old(world.trace)|, |world.trace|, world.trace, old(world.mine), deployment.details.dir,
                           [Env])
              && Safe(world.mine, old(world.mine), deployment.details.dir, [Env])
              && LiveAs(world.mine, old(world.mine), deployment.details.dir, Env)
  {
    var details, dir := deployment.details, deployment.details.dir;
    ghost var orig, from := world.mine, |world.trace|;
    NoSteps(world.changes, dir);
    NothingChanged(orig, dir);
    hide Steps, World.Valid, Elsewhere, OnlyBackups, AllBackedUp, Touches, LiveAs, KeptUntil, Wanted;
    var ran := world.Attempt();  // connecting, and checking the host
    var statePath := Path(dir, State);
    if !ran.Done? || statePath !in world.files { return Some(ServicesNotStarted); }
    var state := decode(world.files[statePath]);
    if state.None? || state.value.project != details.project { return Some(ServicesNotStarted); }
    ran := world.Attempt();  // whether these components go together
    if !ran.Done? { return Some(ServicesNotStarted); }
    if Wanted(details.components, services) == details.components { return Some(Unchanged); }

    var names := [Env];
    EnvTracked();
    ran := BackUp(world, dir, names);
    OnlyBackupsElsewhere(world.trace, from, orig, dir, names);
    OnlyBackupsSafe(world.mine, orig, dir, names);
    if !ran.Done? { return Some(ServicesNotStarted); }
    OnlyBackupsKept(world.trace, from, |world.trace|, orig, dir, names);
    EnvInPlace(world.mine, orig, dir);
    ended := None;
  }

  lemma {:induction false} NothingChanged(f: Files, dir: string)
    ensures OnlyBackups(f, f, dir, [Env]) && Elsewhere(f, f, dir)
  {
  }

  lemma {:induction false} EnvInPlace(f: Files, orig: Files, dir: string)
    requires AllBackedUp(f, orig, dir, [Env]) && OnlyBackups(f, orig, dir, [Env])
    ensures LiveAs(f, orig, dir, Env)
  {
    assert BackedUp(f, orig, dir, [Env][0]) && Same(f, orig, Path(dir, Env));
  }

  lemma {:induction false} EnvThere(f: Files, orig: Files, dir: string)
    requires LiveAs(f, orig, dir, Env)
    ensures Path(dir, Env) in orig
  {
  }

  // Another file is written or removed.
  lemma {:induction false} EnvStays(f: Files, g: Files, dir: string, path: Path)
    requires Changed(g, f, path) && path != Path(dir, Env)
    ensures Same(g, f, Path(dir, Env))
    ensures forall orig: Files :: Same(f, orig, Path(dir, Env)) ==> Same(g, orig, Path(dir, Env))
  {
  }

  // From the backup on: the edits, the containers, and going back when one of them fails.
  method SwitchServices(world: World, ghost orig: Files, deployment: Record, services: Services, tlsHostname: string,
                        encode: HostState -> string) returns (end: ServicesEnd, ghost settled: nat)
    requires Names([Env]) && Safe(world.mine, orig, deployment.details.dir, [Env])
    requires LiveAs(world.mine, orig, deployment.details.dir, Env)
    requires world.Valid() && deployment.details.dir in world.dirs && deployment.id in world.ids
    modifies world
    ensures world.Valid() && OwnSteps(old(world.changes), world.changes, deployment)
    ensures old(world.trace) <= world.trace && |old(world.trace)| <= settled <= |world.trace|
    ensures forall k :: |old(world.trace)| <= k < |world.trace| ==>
              Elsewhere(world.trace[k], orig, deployment.details.dir)
    ensures KeptUntil(|old(world.trace)|, settled, world.trace, orig, deployment.details.dir, [Env])
    ensures ServesSince(settled, world.trace, orig, deployment.details, services, tlsHostname)
    ensures end !in {Unchanged, ServicesNotStarted}
    ensures end.WentBack? ==> Restored(world.mine, orig, deployment.details.dir, [Env])
    ensures end in {WentBack, GoingBackFailed, ServicesInterrupted} ==>
              && Kept(world.mine, orig, deployment.details.dir, [Env])
              && Touches(world.mine, orig, deployment.details.dir, [Env])
              && world.recorded == old(world.recorded)
    ensures end in {ServicesChanged, BackendUnreachable, ServicesUnrecorded} ==>
              EnvServes(world.mine, orig, deployment.details, services, tlsHostname)
    ensures end.ServicesUnrecorded? ==> world.recorded == old(world.recorded)
    ensures end in {ServicesChanged, BackendUnreachable} ==>
              ServicesRecorded(world.mine, world.recorded, old(world.recorded), deployment, services, encode)
  {
    hide Steps, OwnSteps, World.Valid, Kept, Touches, Elsewhere, Restored, AllBackedUp, ServicesRecorded, EnvServes,
         LiveAs, KeptUntil;
    ghost var start, dir, names := world.changes, deployment.details.dir, [Env];
    var ran := EditServices(world, orig, deployment.details, services, tlsHostname);
    StepsOwn(start, world.changes, deployment);
    SafeAlong(world.trace, |old(world.trace)|, |world.trace|, orig, dir, names);
    SafeKept(world.mine, orig, dir, names);
    settled := |world.trace|;
    ghost var edited, before := world.changes, world.trace;
    if ran.Cancelled? { return ServicesInterrupted, settled; }
    if ran.Done? {
      ghost var served := world.mine;
      end := SettleServices(world, orig, deployment, services, encode);
      OwnTwice(start, edited, world.changes, deployment);
      KeptStill(before, world.trace, |old(world.trace)|, orig, dir, names);
      EnvStillServes(before, world.trace, served, orig, deployment.details, services, tlsHostname);
      SameServes(served, world.mine, orig, deployment.details, services, tlsHostname);
      return;
    }
    var restored := RollBack(world, orig, deployment.details.dir, [Env]);
    StepsOwn(edited, world.changes, deployment);
    OwnTwice(start, edited, world.changes, deployment);
    settled := |world.trace|;
    SinceUntil(world.trace, |before|, orig, dir, names);
    KeptOn(before, world.trace, |old(world.trace)|, settled, orig, dir, names);
    TouchesElsewhere(world.trace, |before|, orig, dir, names);
    end := if restored == Some(true) then WentBack
           else if restored.Some? then GoingBackFailed else ServicesInterrupted;
  }

  // The edits, and the containers: the commands that may fail and be undone.
  method EditServices(world: World, ghost orig: Files, details: Details, services: Services, tlsHostname: string)
    returns (ran: Ran)
    requires Names([Env]) && Safe(world.mine, orig, details.dir, [Env]) && LiveAs(world.mine, orig, details.dir, Env)
    requires world.Valid() && details.dir in world.dirs
    modifies world`files, world`records, world`mine, world`trace, world`changes
    ensures world.Valid() && Steps(old(world.changes), world.changes, details.dir)
    ensures old(world.trace) <= world.trace && Safe(world.mine, orig, details.dir, [Env])
    ensures forall k :: |old(world.trace)| <= k < |world.trace| ==> Safe(world.trace[k], orig, details.dir, [Env])
    ensures ran.Done? ==> EnvServes(world.mine, orig, details, services, tlsHostname)
  {
    hide Steps, World.Valid, Safe, ServiceEdits, Wanted;
    var wanted := Wanted(details.components, services);
    ran := EditEnvFile(world, orig, details.dir, [Env], ServiceEdits(details.components, wanted, tlsHostname));
    if ran.Done? { ran := world.Attempt(); }  // the images
    if ran.Done? { ran := world.Attempt(); }  // stopping what was removed
    if ran.Done? { ran := world.Attempt(); }  // docker compose up
  }

  lemma {:induction false} SinceUntil(trace: seq<Files>, from: nat, orig: Files, dir: string, names: seq<FileName>)
    requires KeptSince(from, trace, orig, dir, names)
    ensures KeptUntil(from, |trace|, trace, orig, dir, names)
  {
  }

  lemma {:induction false} KeptStill(before: seq<Files>, trace: seq<Files>, from: nat, orig: Files, dir: string,
                                     names: seq<FileName>)
    requires before <= trace && from <= |before| && KeptUntil(from, |before|, before, orig, dir, names)
    ensures KeptUntil(from, |before|, trace, orig, dir, names)
  {
  }

  lemma {:induction false} SameServes(f: Files, g: Files, orig: Files, details: Details, services: Services,
                                      tlsHostname: string)
    requires EnvServes(f, orig, details, services, tlsHostname) && Same(g, f, Path(details.dir, Env))
    ensures EnvServes(g, orig, details, services, tlsHostname)
  {
  }

  // The same `.env` serves the same.
  lemma {:induction false} EnvStillServes(before: seq<Files>, trace: seq<Files>, f: Files, orig: Files,
                                          details: Details, services: Services, tlsHostname: string)
    requires before <= trace && EnvServes(f, orig, details, services, tlsHostname)
    requires forall k :: |before| <= k < |trace| ==> Same(trace[k], f, Path(details.dir, Env))
    ensures ServesSince(|before|, trace, orig, details, services, tlsHostname)
  {
  }

  // The `.env` with the wanted services' settings.
  ghost predicate EnvServes(f: Files, orig: Files, details: Details, services: Services, tlsHostname: string) {
    var env := Path(details.dir, Env);
    env in orig && env in f && f[env] ==
      EditTextAll(orig[env], ServiceEdits(details.components, Wanted(details.components, services), tlsHostname))
  }

  // Every state since the trace was `from` has it.
  ghost predicate ServesSince(from: nat, trace: seq<Files>, orig: Files, details: Details, services: Services,
                              tlsHostname: string)
  {
    forall k :: from <= k < |trace| ==> EnvServes(trace[k], orig, details, services, tlsHostname)
  }

  ghost predicate ServicesRecorded(f: Files, records: map<string, Record>, before: map<string, Record>,
                                   deployment: Record, services: Services, encode: HostState -> string) {
    var after := ServicesDetails(deployment.details, services);
    && Path(after.dir, State) in f && f[Path(after.dir, State)] == encode(ServicesState(after))
    && records == before[deployment.id := deployment.(details := after)]
  }

  // The new services run: the backup goes, and they are recorded.
  method SettleServices(world: World, ghost orig: Files, deployment: Record, services: Services,
                        encode: HostState -> string) returns (end: ServicesEnd)
    requires Safe(world.mine, orig, deployment.details.dir, [Env])
    requires world.Valid() && deployment.details.dir in world.dirs && deployment.id in world.ids
    modifies world
    ensures world.Valid() && OwnSteps(old(world.changes), world.changes, deployment)
    ensures end in {ServicesChanged, BackendUnreachable, ServicesUnrecorded}
    ensures old(world.trace) <= world.trace
    ensures forall k :: |old(world.trace)| <= k < |world.trace| ==>
              Elsewhere(world.trace[k], orig, deployment.details.dir)
    ensures Same(world.mine, old(world.mine), Path(deployment.details.dir, Env))
    ensures forall k :: |old(world.trace)| <= k < |world.trace| ==>
              Same(world.trace[k], old(world.mine), Path(deployment.details.dir, Env))
    ensures end.ServicesUnrecorded? ==> world.recorded == old(world.recorded)
    ensures !end.ServicesUnrecorded? ==>
              ServicesRecorded(world.mine, world.recorded, old(world.recorded), deployment, services, encode)
  {
    hide Steps, OwnSteps, World.Valid, Elsewhere, Safe, ServicesState, NoOther;
    var after := ServicesDetails(deployment.details, services);
    ghost var start := world.changes;
    var ran := PutServices(world, orig, deployment.details.dir, encode(ServicesState(after)));
    NoOtherIs(|old(world.trace)|, world.trace, old(world.mine), orig, deployment.details.dir);
    StepsOwn(start, world.changes, deployment);
    if !ran.Done? { return ServicesUnrecorded; }
    ghost var written := world.changes;
    var saved := world.Save(deployment.(details := after));
    SavedOwn(written, world.changes, deployment, deployment.(details := after));
    OwnTwice(start, written, world.changes, deployment);
    if !saved.Done? { return ServicesUnrecorded; }
    var reached := world.Attempt();
    end := if reached.Done? then ServicesChanged else BackendUnreachable;
  }

  // Every state since the trace was `from` has the same `.env`, and all other folders.
  ghost predicate NoOther(from: nat, trace: seq<Files>, f: Files, orig: Files, dir: string) {
    forall k :: from <= k < |trace| ==> Elsewhere(trace[k], orig, dir) && Same(trace[k], f, Path(dir, Env))
  }

  lemma {:induction false} NoOtherIs(from: nat, trace: seq<Files>, f: Files, orig: Files, dir: string)
    requires NoOther(from, trace, f, orig, dir)
    ensures forall k :: from <= k < |trace| ==> Elsewhere(trace[k], orig, dir)
    ensures forall k :: from <= k < |trace| ==> Same(trace[k], f, Path(dir, Env))
  {
    hide Elsewhere, Same;
  }

  // The backup goes, and the state file is written.
  method PutServices(world: World, ghost orig: Files, dir: string, state: string) returns (ran: Ran)
    requires Safe(world.mine, orig, dir, [Env]) && world.Valid() && dir in world.dirs
    modifies world`files, world`records, world`mine, world`trace, world`changes
    ensures world.Valid() && Steps(old(world.changes), world.changes, dir) && old(world.trace) <= world.trace
    ensures NoOther(|old(world.trace)|, world.trace, old(world.mine), orig, dir)
    ensures Same(world.mine, old(world.mine), Path(dir, Env))
    ensures ran.Done? ==> Path(dir, State) in world.mine && world.mine[Path(dir, State)] == state
  {
    hide Steps, World.Valid, Elsewhere, Changed, Touches, AllBackedUp;
    ghost var before, start := world.mine, world.changes;
    SafeElsewhere(before, orig, dir, [Env]);
    ran := world.Remove(Path(dir, Backup(Env)));
    ghost var removed, did := world.mine, world.changes;
    ElsewhereStep(before, removed, orig, dir, Path(dir, Backup(Env)));
    EnvStays(before, removed, dir, Path(dir, Backup(Env)));
    if ran.Lost? || ran.Cancelled? { return; }
    ran := world.Overwrite(Path(dir, State), state);
    StepsTwice(start, did, world.changes, dir);
    ElsewhereStep(removed, world.mine, orig, dir, Path(dir, State));
    ElsewhereStep(removed, world.trace[|old(world.trace)| + 1], orig, dir, Path(dir, State));
    EnvStays(removed, world.mine, dir, Path(dir, State));
    EnvStays(removed, world.trace[|old(world.trace)| + 1], dir, Path(dir, State));
  }

  lemma {:induction false} ElsewhereStep(f: Files, g: Files, orig: Files, dir: string, path: Path)
    requires Elsewhere(f, orig, dir) && Changed(g, f, path) && path.dir == dir
    ensures Elsewhere(g, orig, dir)
  {
    forall p: Path | p.dir != dir ensures Same(g, orig, p) { assert Same(g, f, p) && Same(f, orig, p); }
  }
}
