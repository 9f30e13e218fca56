/** The launcher's process supervision (main.py): starting services, selective restarts and
    stopping everything on every way out. Any start may raise. */
module Launcher {
  import opened Basics
  import opened Text
  import opened Signals

  // A child's role; writers are numbered.
  datatype Role = Writer(index: nat) | Archiver | Control | WorkerPool | Plugins | WebServer | DevServer

  datatype Process = Process(pid: nat, role: Role)

  type Handle = Option<Process>

  // The list the supervisor watches, shared with the restart that replaces its items.
  class WatchList {
    var items: seq<(Role, Handle)>

    constructor (items: seq<(Role, Handle)>)
      ensures this.items == items
    {
      this.items := items;
    }
  }

  // The native WebUI: its server, and the dev server in front of it.
  datatype WebUI = WebUI(server: Handle, dev: Handle)

  ghost function Of(handle: Handle): set<Process> {
    if handle.Some? then {handle.value} else {}
  }

  ghost function OfWebUI(webui: Option<WebUI>): set<Process> {
    if webui.Some? then Of(webui.value.server) + Of(webui.value.dev) else {}
  }

  ghost function All(processes: seq<Process>): set<Process> {
    set i | 0 <= i < |processes| :: processes[i]
  }

  /** The operating system's children of the launcher. */
  class Children {
    // Started and not yet terminated.
    var live: set<Process>
    ghost var started: set<Process>
    var nextPid: nat

    ghost predicate Valid()
      reads this
    {
      && live <= started
      && (forall p :: p in started ==> p.pid < nextPid)
      && OnePerRole(live)
    }

    constructor ()
      ensures Valid() && live == {} && started == {}
    {
      live, started, nextPid := {}, {}, 0;
    }

    // `start_process`; None when it raises, and then no child was started.
    method Start(role: Role) returns (handle: Handle)
      requires Valid() && forall p :: p in live ==> p.role != role
      modifies this
      ensures Valid()
      ensures handle.None? ==> live == old(live) && started == old(started)
      ensures handle.Some? ==> handle.value.role == role && handle.value !in old(started) &&
                               live == old(live) + {handle.value} && started == old(started) + {handle.value}
    {
      var raises: bool := *;
      if raises { return None; }
      var process := Process(nextPid, role);
      handle := Some(process);
      live, started, nextPid := live + {process}, started + {process}, nextPid + 1;
    }

    // `terminate_process`, of a child that may have exited, or was terminated before.
    method Terminate(handle: Handle)
      requires Valid()
      modifies this
      ensures Valid() && live == old(live) - Of(handle) && started == old(started)
    {
      if handle.Some? { live := live - {handle.value}; }
    }
  }

  // Two generations of one service never run side by side.
  ghost predicate OnePerRole(live: set<Process>) {
    forall p, q :: p in live && q in live && p.role == q.role ==> p == q
  }

  lemma {:induction false} AllSnoc(processes: seq<Process>, last: Process)
    ensures All(processes + [last]) == All(processes) + {last}
  {
    var longer := processes + [last];
    forall p | p in All(processes) + {last} ensures p in All(longer) {
      if p == last {
        assert longer[|processes|] == p;
      } else {
        var i :| 0 <= i < |processes| && processes[i] == p;
        assert longer[i] == p;
      }
    }
  }

  // ---- Database writers ---------------------------------------------------------------------

  predicate Writers(processes: seq<Process>) {
    forall i :: 0 <= i < |processes| ==> processes[i].role.Writer?
  }

  method StopAll(children: Children, processes: seq<Process>)
    requires children.Valid()
    modifies children
    ensures children.Valid() && children.live == old(children.live) - All(processes)
    ensures children.started == old(children.started)
  {
    for i := 0 to |processes|
      invariant children.Valid() && children.started == old(children.started)
      invariant children.live == old(children.live) - All(processes[..i])
    {
      assert processes[..i + 1] == processes[..i] + [processes[i]];
      AllSnoc(processes[..i], processes[i]);
      children.Terminate(Some(processes[i]));
    }
    assert processes[..|processes|] == processes;
  }

  /** `start_database_writers`: all of them, or none left running. */
  method StartWriters(children: Children, count: nat) returns (writers: Option<seq<Process>>)
    requires children.Valid() && forall p :: p in children.live ==> !p.role.Writer?
    modifies children
    ensures children.Valid() && old(children.started) <= children.started
    ensures writers.None? ==> children.live == old(children.live)
    ensures writers.Some? ==>
              && |writers.value| == count && Writers(writers.value)
              && (forall i :: 0 <= i < count ==> writers.value[i].role == Writer(i))
              && All(writers.value) !! old(children.started)
              && children.live == old(children.live) + All(writers.value)
              && children.started == old(children.started) + All(writers.value)
  {
    var running: seq<Process> := [];
    for i := 0 to count
      invariant children.Valid() && |running| == i
      invariant forall j :: 0 <= j < i ==> running[j].role == Writer(j)
      invariant All(running) !! old(children.started)
      invariant children.live == old(children.live) + All(running)
      invariant children.started == old(children.started) + All(running)
    {
      var handle := children.Start(Writer(i));
      if handle.None? {
        StopAll(children, running);
        return None;
      }
      AllSnoc(running, handle.value);
      running := running + [handle.value];
    }
    writers := Some(running);
  }

  // ---- The WebUI ------------------------------------------------------------------------------

  method StopWebUI(children: Children, webui: Option<WebUI>)
    requires children.Valid()
    modifies children
    ensures children.Valid() && children.live == old(children.live) - OfWebUI(webui)
    ensures children.started == old(children.started)
  {
    if webui.Some? {
      children.Terminate(webui.value.dev);
      children.Terminate(webui.value.server);
    }
  }

  ghost predicate NoWebUI(live: set<Process>) {
    forall p :: p in live ==> !p.role.WebServer? && !p.role.DevServer?
  }

  // A server that may not come up: raises, says no, or runs.
  datatype Came = Raised | Refused | Up(process: Process)

  method BringUp(children: Children, role: Role) returns (came: Came)
    requires children.Valid() && forall p :: p in children.live ==> p.role != role
    modifies children
    ensures children.Valid()
    ensures !came.Up? ==> children.live == old(children.live) && children.started == old(children.started)
    ensures came.Up? ==> came.process.role == role && came.process !in old(children.started) &&
                         children.live == old(children.live) + {came.process} &&
                         children.started == old(children.started) + {came.process}
  {
    var refuses: bool := *;
    if refuses { return Refused; }
    var handle := children.Start(role);
    came := if handle.None? then Raised else Up(handle.value);
  }

  /** `start_webui`: what runs is what it returns; raising, it leaves nothing running. */
  method StartWebUI(children: Children, withDevServer: bool) returns (webui: Option<WebUI>)
    requires children.Valid() && NoWebUI(children.live)
    modifies children
    ensures children.Valid() && old(children.started) <= children.started
    ensures children.live == old(children.live) + OfWebUI(webui)
    ensures OfWebUI(webui) !! old(children.started)
    ensures webui.Some? ==>
              && (webui.value.server.Some? ==> webui.value.server.value.role == WebServer)
              && (webui.value.dev.Some? ==> webui.value.dev.value.role == DevServer && webui.value.server.Some?)
              && (withDevServer && webui.value.server.Some? ==> webui.value.dev.Some?)
  {
    var server := BringUp(children, WebServer);
    if server.Raised? { return None; }
    if server.Refused? { return Some(WebUI(None, None)); }
    if !withDevServer { return Some(WebUI(Some(server.process), None)); }
    var dev := BringUp(children, DevServer);
    if !dev.Up? {
      children.Terminate(Some(server.process));
      return if dev.Raised? then None else Some(WebUI(None, None));
    }
    webui := Some(WebUI(Some(server.process), Some(dev.process)));
    var raises: bool := *;  // waiting for the dev server's address
    if raises {
      StopWebUI(children, webui);
      webui := None;
    }
  }

  // One round of the supervisor: the signals around it, and the children found to have exited.
  datatype Round = Round(signals: Signals.Round, exited: set<Process>)

  ghost function SignalsOf(rounds: seq<Round>): seq<Signals.Round> {
    if rounds == [] then [] else SignalsOf(Init(rounds)) + [Last(rounds).signals]
  }

  // The targets of the rounds that restart any.
  ghost function TargetsAsked(asked: seq<Option<Asked>>): seq<seq<string>> {
    if asked == [] then []
    else TargetsAsked(Init(asked)) + if Last(asked).Some? then [Last(asked).value.targets] else []
  }

  // What these rounds restart, from the flags that the signals so far have left.
  ghost function Polled(flags: Flags, heard: nat, rounds: seq<Round>): Watch {
    Polls(Watch(flags, heard, []), SignalsOf(rounds))
  }

  // The flags, how many signals were heard, and the targets of the restarts made by then.
  datatype Line = Line(flags: Flags, heard: nat, restarts: seq<seq<string>>)

  lemma {:induction false} TargetsSnoc(asked: seq<Option<Asked>>, next: Option<Asked>)
    ensures TargetsAsked(asked + [next]) == TargetsAsked(asked) + TargetsAsked([next])
  {
    assert Init(asked + [next]) == asked && Init([next]) == [];
  }

  lemma {:induction false} PollAlone(watch: Watch, round: Signals.Round)
    ensures var alone, polled := Poll(Watch(watch.flags, watch.heard, []), round), Poll(watch, round);
            && polled.flags == alone.flags && polled.heard == alone.heard
            && |alone.asked| == 1 && polled.asked == watch.asked + [alone.asked[0]]
  {
    hide Over, AfterTake;
  }

  lemma {:induction false} PolledNext(flags: Flags, heard: nat, rounds: seq<Round>, next: Round)
    ensures Polled(flags, heard, rounds + [next]) == Poll(Polled(flags, heard, rounds), next.signals)
  {
    hide Poll;
    assert Init(rounds + [next]) == rounds;
    assert Init(SignalsOf(rounds) + [next.signals]) == SignalsOf(rounds);
  }

  // One more round asks for what it would ask for on its own.
  lemma {:induction false} PollAfter(flags: Flags, heard: nat, rounds: seq<Round>, next: Round)
    ensures var watch := Polled(flags, heard, rounds);
            var alone := Poll(Watch(watch.flags, watch.heard, []), next.signals);
            var polled := Polled(flags, heard, rounds + [next]);
            && polled.flags == alone.flags && polled.heard == alone.heard
            && TargetsAsked(polled.asked) == TargetsAsked(watch.asked) + TargetsAsked(alone.asked)
  {
    hide Poll, Polled, TargetsAsked;
    PolledNext(flags, heard, rounds, next);
    var watch := Polled(flags, heard, rounds);
    var alone := Poll(Watch(watch.flags, watch.heard, []), next.signals);
    PollAlone(watch, next.signals);
    TargetsSnoc(watch.asked, alone.asked[0]);
    assert alone.asked == [alone.asked[0]];
  }

  datatype Ended = ShutDown | RestartRaised | ChildExited | OutOfRounds

  // ---- The runtime --------------------------------------------------------------------------------

  datatype Mode = Api | WithWebUI | WorkerOnly

  // The variables of `main` and `run_worker_runtime` that name the services' processes.
  datatype Services = Services(writers: seq<Process>, archivers: seq<Process>, control: Handle, pool: Handle,
                               plugins: Handle, webui: Option<WebUI>)

  const NONE_STARTED := Services([], [], None, None, None, None)

  ghost predicate Typed(services: Services) {
    && Writers(services.writers)
    && (forall i :: 0 <= i < |services.archivers| ==> services.archivers[i].role == Archiver)
    && (services.control.Some? ==> services.control.value.role == Control)
    && (services.pool.Some? ==> services.pool.value.role == WorkerPool)
    && (services.plugins.Some? ==> services.plugins.value.role == Plugins)
    && TypedWebUI(services.webui)
  }

  ghost predicate TypedWebUI(webui: Option<WebUI>) {
    webui.Some? ==>
      && (webui.value.server.Some? ==> webui.value.server.value.role == WebServer)
      && (webui.value.dev.Some? ==> webui.value.dev.value.role == DevServer)
  }

  ghost function Handles(services: Services): set<Process> {
    All(services.writers) + All(services.archivers) + Of(services.control) + Of(services.pool) + Of(services.plugins)
    + OfWebUI(services.webui)
  }

  // A running child is the one its role's variable names.
  lemma {:induction false} NamedByRole(services: Services, p: Process)
    requires Typed(services) && p in Handles(services)
    ensures p.role.WorkerPool? ==> services.pool == Some(p)
    ensures p.role.Plugins? ==> services.plugins == Some(p)
    ensures p.role.Control? ==> services.control == Some(p)
    ensures p.role.Writer? ==> p in All(services.writers)
    ensures p.role.WebServer? || p.role.DevServer? ==> p in OfWebUI(services.webui)
  {
    if p in All(services.archivers) {
      assert p.role == Archiver;
    } else if p in All(services.writers) {
      assert p.role.Writer?;
    }
  }

  // What the supervisor has to watch.
  function Watched(mode: Mode, services: Services): seq<(Role, Handle)> {
    var writerItems := Items(services.writers);
    if mode.WorkerOnly? then writerItems + [(WorkerPool, services.pool), (Plugins, services.plugins)]
    else [(Control, services.control), (WorkerPool, services.pool)] + writerItems + Items(services.archivers)
         + [(Plugins, services.plugins)]
  }

  function Items(processes: seq<Process>): seq<(Role, Handle)> {
    seq(|processes|, i requires 0 <= i < |processes| => (processes[i].role, Some(processes[i])))
  }

  // `ensure_critical_processes_alive` raises.
  predicate AnyExited(items: seq<(Role, Handle)>, exited: set<Process>) {
    items != [] &&
    ((items[0].1.Some? && items[0].1.value in exited) || AnyExited(items[1..], exited))
  }

  // The processes a restart leaves alone.
  ghost predicate OthersStay(before: set<Process>, after: set<Process>, targets: seq<string>) {
    forall p :: p in before && !Restarts(p.role, targets) ==> p in after
  }

  ghost predicate Renewed(before: Handle, after: Handle, named: bool, started: set<Process>) {
    if named && before.Some? then after.Some? && after.value !in started else after == before
  }

  /** A completed restart of these targets, of services that had started these children. */
  ghost predicate Restarted(before: Services, after: Services, targets: seq<string>, writerCount: nat,
                            started: set<Process>)
  {
    && Renewed(before.pool, after.pool, "worker_pool" in targets, started)
    && Renewed(before.plugins, after.plugins, "plugins" in targets, started)
    && (if "database_writer" in targets
        then |after.writers| == writerCount && All(after.writers) !! started
        else after.writers == before.writers)
    && (if "webui" in targets && before.webui.Some?
        then after.webui.Some? && OfWebUI(after.webui) !! started
        else after.webui == before.webui)
    && after.control == before.control && after.archivers == before.archivers
  }

  predicate Restarts(role: Role, targets: seq<string>) {
    match role
    case WorkerPool => "worker_pool" in targets
    case Plugins => "plugins" in targets
    case Writer(_) => "database_writer" in targets
    case WebServer => "webui" in targets
    case DevServer => "webui" in targets
    case _ => false
  }

  lemma {:induction false} NamedWebUI(services: Services, live: set<Process>)
    requires Typed(services) && live <= Handles(services)
    ensures NoWebUI(live - OfWebUI(services.webui))
  {
    forall p | p in live && (p.role.WebServer? || p.role.DevServer?) ensures p in OfWebUI(services.webui) {
      NamedByRole(services, p);
    }
  }

  // No WebUI runs once the one that is named has been stopped.
  lemma {:induction false} WebUIStopped(services: Services, live: set<Process>, targets: seq<string>)
    requires Typed(services) && live <= Handles(services) && "webui" in targets
    ensures var stopped := live - OfWebUI(services.webui);
            NoWebUI(stopped) && stopped <= Handles(services) && OthersStay(live, stopped, targets)
  {
    NamedWebUI(services, live);
    hide Handles;
    forall p | p in OfWebUI(services.webui) ensures Restarts(p.role, targets) {
      assert p.role.WebServer? || p.role.DevServer?;
    }
  }

  // A new one takes its place.
  lemma {:induction false} WebUIStarted(services: Services, live: set<Process>, webui: Option<WebUI>,
                                        targets: seq<string>)
    requires Typed(services) && live <= Handles(services) && "webui" in targets && TypedWebUI(webui)
    ensures var started := live - OfWebUI(services.webui) + OfWebUI(webui);
            && Typed(services.(webui := webui)) && started <= Handles(services.(webui := webui))
            && OthersStay(live, started, targets)
  {
    WebUIStopped(services, live, targets);
  }

  class Runtime {
    const mode: Mode
    const children: Children
    const writerCount: nat
    const withDevServer: bool
    var services: Services
    // The targets of every selective restart so far.
    ghost var restarts: seq<seq<string>>

    constructor (mode: Mode, children: Children, writerCount: nat, withDevServer: bool)
      ensures this.mode == mode && this.children == children && this.writerCount == writerCount
      ensures this.withDevServer == withDevServer && services == NONE_STARTED && restarts == []
    {
      this.mode, this.children, this.writerCount, this.withDevServer := mode, children, writerCount, withDevServer;
      services, restarts := NONE_STARTED, [];
    }

    ghost function LineOf(shutdown: ShutdownRequest): Line
      reads this, shutdown
    {
      Line(shutdown.Seen(), |shutdown.handled|, restarts)
    }

    // The flags, and the restarts made, are those of these rounds.
    ghost predicate InLine(shutdown: ShutdownRequest, line: Line, rounds: seq<Round>)
      reads this, shutdown
    {
      var polled := Polled(line.flags, line.heard, rounds);
      LineOf(shutdown) == Line(polled.flags, polled.heard, line.restarts + TargetsAsked(polled.asked))
    }

    /** No child runs that a variable does not name: whatever raises next, the clean-up
        reaches all of them. */
    ghost predicate Covered()
      reads `services, children
    {
      Typed(services) && children.Valid() && children.live <= Handles(services)
    }

    // The `finally` of `main` and `run_worker_runtime`.
    method CleanUp()
      requires Covered()
      modifies children
      ensures children.Valid() && children.live == {} && children.started == old(children.started)
    {
      StopWebUI(children, services.webui);
      children.Terminate(services.plugins);
      children.Terminate(services.pool);
      children.Terminate(services.control);
      StopAll(children, services.archivers);
      StopAll(children, services.writers);
    }

    method RestartPool(targets: seq<string>) returns (completed: bool)
      requires Covered()
      modifies `services, children
      ensures Covered() && old(children.started) <= children.started
      ensures services == old(services).(pool := services.pool)
      ensures OthersStay(old(children.live), children.live, targets)
      ensures completed ==> Renewed(old(services.pool), services.pool, "worker_pool" in targets, old(children.started))
      ensures !completed ==> services == old(services)
    {
      if "worker_pool" in targets && services.pool.Some? {
        forall p | p in children.live && p.role.WorkerPool? ensures services.pool == Some(p) {
          NamedByRole(services, p);
        }
        children.Terminate(services.pool);
        var handle := children.Start(WorkerPool);
        if handle.None? { return false; }
        services := services.(pool := handle);
      }
      completed := true;
    }

    method RestartPlugins(targets: seq<string>) returns (completed: bool)
      requires Covered()
      modifies `services, children
      ensures Covered() && old(children.started) <= children.started
      ensures services == old(services).(plugins := services.plugins)
      ensures OthersStay(old(children.live), children.live, targets)
      ensures completed ==>
                Renewed(old(services.plugins), services.plugins, "plugins" in targets, old(children.started))
      ensures !completed ==> services == old(services)
    {
      if "plugins" in targets && services.plugins.Some? {
        forall p | p in children.live && p.role.Plugins? ensures services.plugins == Some(p) {
          NamedByRole(services, p);
        }
        children.Terminate(services.plugins);
        var handle := children.Start(Plugins);
        if handle.None? { return false; }
        services := services.(plugins := handle);
      }
      completed := true;
    }

    method RestartWriters(targets: seq<string>) returns (completed: bool)
      requires Covered()
      modifies `services, children
      ensures Covered() && old(children.started) <= children.started
      ensures services == old(services).(writers := services.writers)
      ensures OthersStay(old(children.live), children.live, targets)
      ensures completed && "database_writer" in targets ==>
                |services.writers| == writerCount && All(services.writers) !! old(children.started)
      ensures !completed || "database_writer" !in targets ==> services == old(services)
    {
      if "database_writer" in targets {
        forall p | p in children.live && p.role.Writer? ensures p in All(services.writers) {
          NamedByRole(services, p);
        }
        StopAll(children, services.writers);
        var writers := StartWriters(children, writerCount);
        if writers.None? { return false; }
        services := services.(writers := writers.value);
      }
      completed := true;
    }

    method RestartWebUI(targets: seq<string>) returns (completed: bool)
      requires Covered()
      modifies `services, children
      ensures Covered() && old(children.started) <= children.started
      ensures services == old(services).(webui := services.webui)
      ensures OthersStay(old(children.live), children.live, targets)
      ensures completed && "webui" in targets && old(services.webui).Some? ==>
                services.webui.Some? && OfWebUI(services.webui) !! old(children.started)
      ensures !completed || "webui" !in targets || old(services.webui).None? ==> services == old(services)
    {
      if "webui" in targets && services.webui.Some? {
        hide Handles, OfWebUI, Typed, TypedWebUI, OthersStay, NoWebUI;
        WebUIStopped(services, children.live, targets);
        ghost var live := children.live;
        StopWebUI(children, services.webui);
        var webui := StartWebUI(children, withDevServer);
        if webui.None? { return false; }
        WebUIStarted(services, live, webui, targets);
        services := services.(webui := webui);
      }
      completed := true;
    }

    /** `handle_selective_restart` and `handle_worker_selective_restart`: the named services
        start anew, the others keep their processes, and the watched list holds the current
        handles. Raising part way, it leaves no child without a handle. */
    method SelectiveRestart(watch: WatchList, targets: seq<string>) returns (completed: bool)
      requires Covered()
      modifies `services, `restarts, children, watch
      ensures Covered() && old(children.started) <= children.started
      ensures restarts == old(restarts) + [targets]
      ensures OthersStay(old(children.live), children.live, targets)
      ensures completed ==> watch.items == Watched(mode, services)
      ensures completed ==> Restarted(old(services), services, targets, writerCount, old(children.started))
      ensures !completed ==> watch.items == old(watch.items)
    {
      hide Covered, Watched;
      restarts := restarts + [targets];
      completed := RestartPool(targets);
      if !completed { return; }
      completed := RestartPlugins(targets);
      if !completed { return; }
      completed := RestartWriters(targets);
      if !completed { return; }
      // A worker has no WebUI, and its handler does not look for one.
      completed := RestartWebUI(targets);
      if !completed { return; }
      watch.items := Watched(mode, services);
    }

    // One turn of the loop of `supervise_processes`, until a check ends it.
    method SuperviseRound(watch: WatchList, shutdown: ShutdownRequest, round: Round) returns (end: Option<Ended>)
      requires Covered() && shutdown.Valid() && watch.items == Watched(mode, services)
      modifies `services, `restarts, children, watch, shutdown
      ensures Covered() && shutdown.Valid() && old(children.started) <= children.started
      ensures end == Some(ShutDown) ==> LastEnding(shutdown.handled).Some?
      ensures end != Some(RestartRaised) ==> watch.items == Watched(mode, services)
      ensures end == Some(ChildExited) ==> AnyExited(watch.items, round.exited)
      ensures end == None ==> !AnyExited(watch.items, round.exited)
      ensures end != Some(OutOfRounds)
      ensures old(shutdown.handled) <= shutdown.handled
      ensures var polled := Poll(Watch(old(shutdown.Seen()), |old(shutdown.handled)|, []), round.signals);
              && shutdown.Seen() == polled.flags && |shutdown.handled| == polled.heard
              && restarts == old(restarts) + TargetsAsked(polled.asked)
    {
      hide Covered, Watched, AnyExited, Over, AfterTake, LastEnding;
      shutdown.HandleAll(round.signals.before);
      if shutdown.requested { return Some(ShutDown); }
      if shutdown.selective {
        var targets := shutdown.Take(round.signals.early, round.signals.late, round.signals.later);
        var completed := SelectiveRestart(watch, targets);
        if !completed { return Some(RestartRaised); }
      }
      end := if AnyExited(watch.items, round.exited) then Some(ChildExited) else None;
    }

    // The same, after these rounds.
    method SuperviseNext(watch: WatchList, shutdown: ShutdownRequest, ghost line: Line, ghost past: seq<Round>,
                         round: Round) returns (end: Option<Ended>)
      requires Covered() && shutdown.Valid() && watch.items == Watched(mode, services)
      requires InLine(shutdown, line, past)
      modifies `services, `restarts, children, watch, shutdown
      ensures Covered() && shutdown.Valid() && old(children.started) <= children.started
      ensures end == Some(ShutDown) ==> LastEnding(shutdown.handled).Some?
      ensures end != Some(RestartRaised) ==> watch.items == Watched(mode, services)
      ensures end == Some(ChildExited) ==> AnyExited(watch.items, round.exited)
      ensures end == None ==> !AnyExited(watch.items, round.exited)
      ensures end != Some(OutOfRounds)
      ensures old(shutdown.handled) <= shutdown.handled
      ensures InLine(shutdown, line, past + [round])
    {
      hide Covered, Poll, Polls, TargetsAsked, Watched, AnyExited, LastEnding;
      PollAfter(line.flags, line.heard, past, round);
      end := SuperviseRound(watch, shutdown, round);
    }

    /** `supervise_processes`, over the rounds until it ends. A watched child that exited ends
        it; a completed restart is watched from the next check on; and it restarts what the
        signals of the rounds it comes to ask for. */
    method Supervise(watch: WatchList, shutdown: ShutdownRequest, rounds: seq<Round>)
      returns (end: Ended, ghost reached: nat)
      requires Covered() && shutdown.Valid() && watch.items == Watched(mode, services)
      modifies `services, `restarts, children, watch, shutdown
      ensures Covered() && shutdown.Valid() && old(children.started) <= children.started
      ensures end.ShutDown? ==> LastEnding(shutdown.handled).Some?
      ensures end.OutOfRounds? ==> LastEnding(shutdown.handled).None?
      ensures !end.RestartRaised? ==> watch.items == Watched(mode, services)
      ensures reached <= |rounds| && (end.OutOfRounds? ==> reached == |rounds|)
      ensures end.ChildExited? ==> reached > 0 && AnyExited(watch.items, rounds[reached - 1].exited)
      ensures end.OutOfRounds? && rounds != [] ==> !AnyExited(watch.items, Last(rounds).exited)
      ensures old(shutdown.handled) <= shutdown.handled
      ensures InLine(shutdown, old(LineOf(shutdown)), rounds[..reached])
    {
      hide Covered, Poll;
      ghost var line := LineOf(shutdown);
      reached := 0;
      for i := 0 to |rounds|
        invariant Covered() && shutdown.Valid() && watch.items == Watched(mode, services)
        invariant old(children.started) <= children.started && old(shutdown.handled) <= shutdown.handled
        invariant i > 0 ==> !AnyExited(watch.items, rounds[i - 1].exited)
        invariant reached == i && InLine(shutdown, line, rounds[..i])
      {
        assert rounds[..i + 1] == rounds[..i] + [rounds[i]];
        var ended := SuperviseNext(watch, shutdown, line, rounds[..i], rounds[i]);
        reached := i + 1;
        if ended.Some? { return ended.value, reached; }
      }
      end := if shutdown.requested then ShutDown else OutOfRounds;
    }

    // A child started into a variable that held none.
    method StartAs(role: Role) returns (completed: bool)
      requires Covered() && (role == Archiver || role == Control || role == WorkerPool || role == Plugins)
      requires role == Archiver ==> services.archivers == []
      requires role == Control ==> services.control == None
      requires role == WorkerPool ==> services.pool == None
      requires role == Plugins ==> services.plugins == None
      modifies `services, children
      ensures Covered() && old(children.started) <= children.started
      ensures !completed ==> services == old(services)
      ensures completed && role == Archiver ==>
                |services.archivers| == 1 && services == old(services).(archivers := services.archivers)
      ensures completed && role == Control ==>
                services.control.Some? && services == old(services).(control := services.control)
      ensures completed && role == WorkerPool ==>
                services.pool.Some? && services == old(services).(pool := services.pool)
      ensures completed && role == Plugins ==>
                services.plugins.Some? && services == old(services).(plugins := services.plugins)
    {
      forall p | p in children.live ensures p.role != role {
        NamedByRole(services, p);
        assert p in All(services.archivers) || p.role != Archiver;
      }
      var handle := children.Start(role);
      if handle.None? { return false; }
      match role {
        case Archiver =>
          AllSnoc([], handle.value);
          assert [] + [handle.value] == [handle.value];
          services := services.(archivers := [handle.value]);
        case Control => services := services.(control := handle);
        case WorkerPool => services := services.(pool := handle);
        case Plugins => services := services.(plugins := handle);
      }
      completed := true;
    }
  }

  // How the runtime ends, whatever raised on the way.
  datatype RuntimeEnd = NotStarted | NotReady | Supervised(end: Ended)

  // What the signals of the start-up and of these rounds ask for; `Signals.AskedExactly` says
  // of each round what that is.
  ghost function RestartsOf(starting: seq<Signal>, rounds: seq<Round>): seq<seq<string>> {
    TargetsAsked(Polls(Started(starting), SignalsOf(rounds)).asked)
  }

  // The worker-only runtime hears no signal before it supervises.
  lemma {:induction false} NoStartUp(rounds: seq<Round>)
    ensures [] + TargetsAsked(Polled(NO_SIGNAL, 0, rounds).asked) == RestartsOf([], rounds)
  {
    hide Poll, Polls, TargetsAsked, SignalsOf;
    assert Started([]) == Watch(NO_SIGNAL, 0, []);
  }

  /** `main` in its webui and api modes: on every way out every child ever started has been
      terminated, and the restarts made are those that the signals asked for. */
  method RunMain(mode: Mode, writerCount: nat, archives: bool, poolEnabled: bool, withDevServer: bool,
                 starting: seq<Signal>, rounds: seq<Round>)
    returns (children: Children, shutdown: ShutdownRequest, end: RuntimeEnd, ghost restarts: seq<seq<string>>,
             ghost reached: nat)
    requires !mode.WorkerOnly?
    ensures fresh(children) && children.Valid() && children.live == {}
    ensures fresh(shutdown) && shutdown.Valid()
    ensures end == Supervised(ShutDown) ==> LastEnding(shutdown.handled).Some?
    ensures reached <= |rounds| && (end == Supervised(OutOfRounds) ==> reached == |rounds|)
    ensures restarts == if end.Supervised? then RestartsOf(starting, rounds[..reached]) else []
  {
    children := new Children();
    shutdown := new ShutdownRequest();
    var runtime := new Runtime(mode, children, writerCount, withDevServer);
    end, reached := StartAndSupervise(runtime, shutdown, archives, poolEnabled, starting, rounds);
    restarts := runtime.restarts;
    runtime.CleanUp();
  }

  // The `try` of `main`.
  method StartAndSupervise(runtime: Runtime, shutdown: ShutdownRequest, archives: bool, poolEnabled: bool,
                           starting: seq<Signal>, rounds: seq<Round>) returns (end: RuntimeEnd, ghost reached: nat)
    requires !runtime.mode.WorkerOnly? && runtime.Covered() && runtime.children.live == {}
    requires runtime.services == NONE_STARTED && runtime.restarts == []
    requires shutdown.Valid() && shutdown.handled == [] && shutdown.Seen() == NO_SIGNAL
    modifies runtime, runtime.children, shutdown
    ensures runtime.Covered() && shutdown.Valid()
    ensures end == Supervised(ShutDown) ==> LastEnding(shutdown.handled).Some?
    ensures reached <= |rounds| && (end == Supervised(OutOfRounds) ==> reached == |rounds|)
    ensures runtime.restarts == if end.Supervised? then RestartsOf(starting, rounds[..reached]) else []
  {
    var started := StartServices(runtime, shutdown, archives, poolEnabled, starting);
    if started.Some? { return started.value, 0; }
    var watch := new WatchList(Watched(runtime.mode, runtime.services));
    var ended;
    ended, reached := runtime.Supervise(watch, shutdown, rounds);
    end := Supervised(ended);
  }

  // The start of every service; None when all of them came up.
  method StartServices(runtime: Runtime, shutdown: ShutdownRequest, archives: bool, poolEnabled: bool,
                       starting: seq<Signal>) returns (stopped: Option<RuntimeEnd>)
    requires !runtime.mode.WorkerOnly? && runtime.Covered() && runtime.children.live == {}
    requires runtime.services == NONE_STARTED && shutdown.Valid() && shutdown.handled == []
    modifies runtime`services, runtime.children, shutdown
    ensures runtime.Covered() && shutdown.Valid()
    ensures stopped.None? ==> shutdown.handled == starting && shutdown.Seen() == Over(old(shutdown.Seen()), 0, starting)
    ensures stopped.Some? ==> !stopped.value.Supervised?
    ensures stopped.None? ==>
              && |runtime.services.writers| == runtime.writerCount && runtime.services.control.Some?
              && (archives <==> runtime.services.archivers != [])
              && (runtime.services.plugins.Some? <==> runtime.mode.WithWebUI?)
              && (runtime.services.pool.Some? <==> runtime.mode.WithWebUI? && poolEnabled)
              && (runtime.services.webui.Some? <==> runtime.mode.WithWebUI?)
  {
    hide Over, LastEnding;
    var writers := StartWriters(runtime.children, runtime.writerCount);
    if writers.None? { return Some(NotStarted); }
    runtime.services := NONE_STARTED.(writers := writers.value);
    var completed := true;
    if archives {
      completed := runtime.StartAs(Archiver);
      if !completed { return Some(NotStarted); }
    }
    completed := runtime.StartAs(Control);
    if !completed { return Some(NotStarted); }
    shutdown.HandleAll(starting);
    if shutdown.requested { return Some(NotReady); }
    stopped := StartRest(runtime, poolEnabled);
  }

  method StartWebUIAs(runtime: Runtime) returns (completed: bool)
    requires runtime.Covered() && runtime.services.webui == None
    modifies runtime`services, runtime.children
    ensures runtime.Covered()
    ensures completed ==>
              runtime.services.webui.Some? &&
              runtime.services == old(runtime.services).(webui := runtime.services.webui)
  {
    hide Handles, Typed, TypedWebUI;
    ghost var live := runtime.children.live;
    WebUIStopped(runtime.services, live, ["webui"]);
    var webui := StartWebUI(runtime.children, runtime.withDevServer);
    if webui.None? { return false; }
    WebUIStarted(runtime.services, live, webui, ["webui"]);
    runtime.services := runtime.services.(webui := webui);
    completed := true;
  }

  // The services that wait for the control plane.
  method StartRest(runtime: Runtime, poolEnabled: bool) returns (stopped: Option<RuntimeEnd>)
    requires !runtime.mode.WorkerOnly? && runtime.Covered() && runtime.services.webui == None
    requires runtime.services.pool == runtime.services.plugins == None
    modifies runtime`services, runtime.children
    ensures runtime.Covered() && (stopped.Some? ==> !stopped.value.Supervised?)
    ensures stopped.None? ==>
              && runtime.services == old(runtime.services).(pool := runtime.services.pool,
                                                            plugins := runtime.services.plugins,
                                                            webui := runtime.services.webui)
              && (runtime.services.plugins.Some? <==> runtime.mode.WithWebUI?)
              && (runtime.services.pool.Some? <==> runtime.mode.WithWebUI? && poolEnabled)
              && (runtime.services.webui.Some? <==> runtime.mode.WithWebUI?)
  {
    hide Runtime.Covered;
    var healthy: bool := *;
    if !healthy { return Some(NotStarted); }
    var completed := true;
    if runtime.mode.WithWebUI? {
      completed := runtime.StartAs(Plugins);
      if !completed { return Some(NotStarted); }
    }
    var alive: bool := *;
    if !alive { return Some(NotStarted); }
    if runtime.mode.WithWebUI? {
      if poolEnabled {
        completed := runtime.StartAs(WorkerPool);
        if !completed { return Some(NotStarted); }
      }
      completed := StartWebUIAs(runtime);
      if !completed { return Some(NotStarted); }
    }
    stopped := None;
  }

  /** `run_worker_runtime`, once setup is complete: the same for the worker-only runtime. */
  method RunWorker(writerCount: nat, rounds: seq<Round>)
    returns (children: Children, shutdown: ShutdownRequest, end: RuntimeEnd, ghost restarts: seq<seq<string>>,
             ghost reached: nat)
    ensures fresh(children) && children.Valid() && children.live == {}
    ensures fresh(shutdown) && shutdown.Valid()
    ensures end == Supervised(ShutDown) ==> LastEnding(shutdown.handled).Some?
    ensures reached <= |rounds| && (end == Supervised(OutOfRounds) ==> reached == |rounds|)
    ensures restarts == if end.Supervised? then RestartsOf([], rounds[..reached]) else []
  {
    hide Poll, Polls, TargetsAsked, Watched, SignalsOf, RestartsOf;
    children := new Children();
    shutdown := new ShutdownRequest();
    var runtime := new Runtime(WorkerOnly, children, writerCount, false);
    end, reached := NotStarted, 0;
    var started := StartWorker(runtime);
    if started {
      var watch := new WatchList(Watched(WorkerOnly, runtime.services));
      var ended;
      ended, reached := runtime.Supervise(watch, shutdown, rounds);
      end := Supervised(ended);
      NoStartUp(rounds[..reached]);
    }
    restarts := runtime.restarts;
    runtime.CleanUp();
  }

  method StartWorker(runtime: Runtime) returns (completed: bool)
    requires runtime.Covered() && runtime.children.live == {} && runtime.services == NONE_STARTED
    modifies runtime`services, runtime.children
    ensures runtime.Covered()
    ensures completed ==>
              |runtime.services.writers| == runtime.writerCount && runtime.services.pool.Some? &&
              runtime.services.plugins.Some? && runtime.services.webui.None?
  {
    var writers := StartWriters(runtime.children, runtime.writerCount);
    if writers.None? { return false; }
    runtime.services := NONE_STARTED.(writers := writers.value);
    completed := runtime.StartAs(WorkerPool);
    if !completed { return; }
    completed := runtime.StartAs(Plugins);
  }
}
