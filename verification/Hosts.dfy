/** A cluster as machines (fleet_hosts.py): nodes grouped into hosts by their addresses, with
    placeholders for what is installed but does not report. */
module Hosts {
  import opened Basics
  import opened Text

  datatype Role = Backend | Workers | WebUI | Postgres | Redis

  datatype State = Healthy | Warning | Offline | Unknown

  datatype Node = Node(role: Role, name: string, state: State, backendId: Option<string>, isSelf: bool,
                       installedOnly: bool)

  // A node put on a host.
  datatype Placed = Placed(key: string, node: Node)

  // ---- Addresses ------------------------------------------------------------------------------

  // What is taken as given of names and addresses.
  datatype Net = Net(lower: string -> string,
                     loopback: string -> bool,        // an IP address that is loopback or unspecified
                     dockerNetwork: string -> bool)   // an IP address in 172.16.0.0/12

  predicate Bracket(c: char) {
    c == '[' || c == ']'
  }

  function Count(text: string, c: char): nat {
    if text == "" then 0 else (if text[0] == c then 1 else 0) + Count(text[1..], c)
  }

  // The text before the first c.
  function Before(text: string, c: char): string {
    if text == "" || text[0] == c then "" else [text[0]] + Before(text[1..], c)
  }

  // `_host_of`: the host part of "host", "host:port" or "[v6]:port"; "" for none.
  function HostOf(net: Net, value: string): string {
    var raw := Strip(value, Space);
    if raw == "" then ""
    else if raw[0] == '[' then
      if ']' in raw then Before(raw[1..], ']') else Strip(raw, Bracket)
    else
      net.lower(if Count(raw, ':') == 1 then Before(raw, ':') else raw)
  }

  // `_local_to_reporter`
  predicate LocalToReporter(net: Net, host: string) {
    host == "localhost" || host == "host.docker.internal" || ('.' !in host && ':' !in host) || net.loopback(host)
  }

  // What keys depend on: the reporting backend's host, and the addresses backends report.
  datatype Context = Context(net: Net, reporterKey: string, known: set<string>)

  // An address that means the reporting backend's own machine; a container's does so where
  // `dockerAlias` says that it may.
  predicate Beside(context: Context, address: string, dockerAlias: bool) {
    var resolved := HostOf(context.net, address);
    resolved != "" && (LocalToReporter(context.net, resolved)
                       || (dockerAlias && resolved !in context.known && context.net.dockerNetwork(resolved)))
  }

  /** The host a report is put on. */
  function KeyFor(context: Context, address: string, fallback: string, dockerAlias: bool): string {
    var resolved := HostOf(context.net, address);
    if Beside(context, address, dockerAlias) then if context.reporterKey != "" then context.reporterKey else fallback
    else if resolved != "" then resolved else fallback
  }

  // On the reporting backend's machine: beside it, or at its own address.
  predicate OnReporter(context: Context, address: string, dockerAlias: bool) {
    Beside(context, address, dockerAlias) || HostOf(context.net, address) == context.reporterKey
  }

  /** Two reports with addresses are put on one host exactly when both are on the reporting
      backend's machine, or neither is and their host parts are the same. A report without an
      address is on a host of its own, as is one beside a backend that is not known. */
  lemma {:induction false} SameHost(context: Context, a: string, b: string, fallbackA: string, fallbackB: string,
                                    aliasA: bool, aliasB: bool)
    ensures context.reporterKey != "" && HostOf(context.net, a) != "" && HostOf(context.net, b) != "" ==>
              (KeyFor(context, a, fallbackA, aliasA) == KeyFor(context, b, fallbackB, aliasB) <==>
                 if OnReporter(context, a, aliasA) then OnReporter(context, b, aliasB)
                 else !OnReporter(context, b, aliasB) && HostOf(context.net, a) == HostOf(context.net, b))
    ensures HostOf(context.net, a) == "" || (context.reporterKey == "" && Beside(context, a, aliasA)) ==>
              KeyFor(context, a, fallbackA, aliasA) == fallbackA
  {
    hide HostOf, LocalToReporter;
  }

  // ---- What is reported -----------------------------------------------------------------------

  datatype BackendEntry = BackendEntry(id: string, address: string, status: string, age: Option<real>, hasApi: bool,
                                       hasWorkers: bool)

  datatype Client = Client(id: string, revoked: bool, age: Option<real>, address: string, name: string, isSelf: bool)

  datatype Database = Database(address: string, location: string, name: string, connected: bool)

  datatype Deployment = Deployment(id: string, name: string, address: string, components: set<Role>)

  // The services this WebUI runs in its own container.
  datatype LocalHost = LocalHost(backend: bool, worker: bool, backendId: string, address: string)

  datatype Report = Report(
    backends: seq<BackendEntry>, clients: seq<Client>, databases: seq<Database>, redis: string,
    redisAnswered: bool, deployments: seq<Deployment>,
    local: Option<LocalHost>,   // of this cluster
    localServices: bool)

  function Reporter(entries: seq<BackendEntry>, id: string): Option<BackendEntry> {
    if entries == [] then None
    else if entries[0].id == id then Some(entries[0])
    else Reporter(entries[1..], id)
  }

  /** What the live entries say of the reporting backend's host and of the known addresses. */
  function ContextOf(net: Net, entries: seq<BackendEntry>, reporterId: string): Context {
    var reporter := Reporter(entries, reporterId);
    var known := set entry | entry in entries && HostOf(net, entry.address) != "" :: HostOf(net, entry.address);
    Context(net,
            if reporter.None? then ""
            else if HostOf(net, reporter.value.address) != "" then HostOf(net, reporter.value.address)
            else "backend:" + reporter.value.id, known)
  }

  // The reporting backend gives the bare name "local" as its address.
  predicate ReporterAtLocal(net: Net, entries: seq<BackendEntry>, reporterId: string) {
    var reporter := Reporter(entries, reporterId);
    reporter.Some? && HostOf(net, reporter.value.address) == "local"
  }

  lemma {:induction false} ReporterKnown(net: Net, entries: seq<BackendEntry>, reporterId: string)
    ensures ContextOf(net, entries, reporterId).reporterKey == "local" <==> ReporterAtLocal(net, entries, reporterId)
  {
    var reporter := Reporter(entries, reporterId);
    if reporter.Some? {
      assert ("backend:" + reporter.value.id)[0] == 'b' && "local"[0] == 'l';
    }
  }

  lemma {:induction false} ReporterIn(entries: seq<BackendEntry>, id: string)
    ensures Reporter(entries, id).Some? ==> Reporter(entries, id).value in entries
  {
    if entries != [] && entries[0].id != id { ReporterIn(entries[1..], id); }
  }

  // `_presence_state`
  function PresenceState(net: Net, status: string, age: Option<real>): State {
    if net.lower(status) in {"offline", "stopped", "unreachable"} then Offline
    else if age.Some? && age.value > 180.0 then Offline
    else if net.lower(status) in {"degraded", "warning"} then Warning else Healthy
  }

  function BackendPlaced(context: Context, entry: BackendEntry): seq<Placed> {
    if entry.id == "" then []
    else
      var key := KeyFor(context, entry.address, "backend:" + entry.id, false);
      var state := PresenceState(context.net, entry.status, entry.age);
      (if entry.hasApi then [Placed(key, Node(Backend, entry.id, state, Some(entry.id), false, false))] else [])
      + if entry.hasWorkers then [Placed(key, Node(Workers, entry.id, state, Some(entry.id), false, false))] else []
  }

  function BackendsPlaced(context: Context, entries: seq<BackendEntry>): seq<Placed> {
    if entries == [] then [] else BackendsPlaced(context, Init(entries)) + BackendPlaced(context, Last(entries))
  }

  lemma {:induction false} BackendsNext(context: Context, before: seq<Placed>, entries: seq<BackendEntry>, i: nat)
    requires i < |entries|
    ensures before + BackendsPlaced(context, entries[..i + 1]) ==
            (before + BackendsPlaced(context, entries[..i])) + BackendPlaced(context, entries[i])
  {
    assert Init(entries[..i + 1]) == entries[..i] && Last(entries[..i + 1]) == entries[i];
  }

  predicate Shown(client: Client) {
    !client.revoked && client.age.Some? && client.age.value <= 3600.0
  }

  function ClientPlaced(context: Context, client: Client): Placed
    requires Shown(client)
  {
    Placed(KeyFor(context, client.address, "webui:" + client.id, true),
           Node(WebUI, client.name, if client.age.value <= 180.0 then Healthy else Offline, None, client.isSelf, false))
  }

  function ClientsPlaced(context: Context, clients: seq<Client>): seq<Placed> {
    if clients == [] then []
    else
      ClientsPlaced(context, Init(clients)) +
      if Shown(Last(clients)) then [ClientPlaced(context, Last(clients))] else []
  }

  function Locations(databases: seq<Database>): set<string> {
    set database | database in databases && database.address != "" :: database.location
  }

  function DatabasePlaced(context: Context, database: Database): Placed {
    Placed(KeyFor(context, database.address, "postgres:" + database.location, false),
           Node(Postgres, database.name, if database.connected then Healthy else Offline, None, false, false))
  }

  // A database listed twice is one.
  function DatabasesPlaced(context: Context, databases: seq<Database>): seq<Placed> {
    if databases == [] then []
    else
      DatabasesPlaced(context, Init(databases)) +
      if Last(databases).address != "" && Last(databases).location !in Locations(Init(databases))
      then [DatabasePlaced(context, Last(databases))] else []
  }

  function RedisPlaced(context: Context, report: Report): seq<Placed> {
    if report.redis == "" then []
    else
      [Placed(KeyFor(context, report.redis, "redis:" + report.redis, false),
              Node(Redis, "Redis", if report.redisAnswered then Healthy else Unknown, None, false, false))]
  }

  /** Every node reported, once, each with its host. */
  function Reported(context: Context, report: Report): seq<Placed> {
    BackendsPlaced(context, report.backends) + ClientsPlaced(context, report.clients)
    + DatabasesPlaced(context, report.databases) + RedisPlaced(context, report)
  }

  // ---- Placeholders ---------------------------------------------------------------------------

  function NodesAt(placed: seq<Placed>, key: string): seq<Node> {
    if placed == [] then []
    else NodesAt(Init(placed), key) + if Last(placed).key == key then [Last(placed).node] else []
  }

  function RolesAt(nodes: seq<Node>): set<Role> {
    set node | node in nodes :: node.role
  }

  function Missing(role: Role, wanted: set<Role>, present: set<Role>, key: string, name: string): seq<Placed> {
    if role in wanted && role !in present then [Placed(key, Node(role, name, Unknown, None, false, true))] else []
  }

  // One of each wanted role that is not there.
  function Placeholders(wanted: set<Role>, present: set<Role>, key: string, name: string): seq<Placed> {
    Missing(Backend, wanted, present, key, name) + Missing(Workers, wanted, present, key, name)
    + Missing(WebUI, wanted, present, key, name) + Missing(Postgres, wanted, present, key, name)
    + Missing(Redis, wanted, present, key, name)
  }

  function DeploymentKey(context: Context, deployment: Deployment): string {
    KeyFor(context, deployment.address, "deployment:" + deployment.id, false)
  }

  // What the deployments add: each one's components that its host does not have yet.
  function Deployed(context: Context, placed: seq<Placed>, deployments: seq<Deployment>): seq<Placed> {
    if deployments == [] then placed
    else
      var before := Deployed(context, placed, Init(deployments));
      var key := DeploymentKey(context, Last(deployments));
      before + Placeholders(Last(deployments).components, RolesAt(NodesAt(before, key)), key, Last(deployments).name)
  }

  predicate Runs(local: Option<LocalHost>) {
    local.Some? && (local.value.backend || local.value.worker)
  }

  function LocalRoles(local: LocalHost): set<Role> {
    (if local.backend then {Backend} else {}) + (if local.worker then {Workers} else {})
  }

  const THIS_WEBUI := Node(WebUI, "This WebUI", Healthy, None, true, false)

  // This WebUI's own node, or one of a backend.
  predicate Sought(node: Node, backendId: Option<string>) {
    if backendId.Some? then node.backendId == backendId else node.isSelf
  }

  predicate Any(placed: seq<Placed>, backendId: Option<string>) {
    exists i :: 0 <= i < |placed| && Sought(placed[i].node, backendId)
  }

  predicate AnyAt(placed: seq<Placed>, key: string, backendId: Option<string>) {
    exists i :: 0 <= i < |placed| && placed[i].key == key && Sought(placed[i].node, backendId)
  }

  // Where its services already report, else the address they were given.
  ghost predicate RunsAt(context: Context, local: LocalHost, placed: seq<Placed>, key: string) {
    if local.backendId != "" && Any(placed, Some(local.backendId)) then AnyAt(placed, key, Some(local.backendId))
    else key == KeyFor(context, local.address, "local", false)
  }

  /** What this WebUI's own services add to the hosts, and the host flagged as theirs. */
  ghost predicate LocalEnd(context: Context, report: Report, before: seq<Placed>, after: seq<Placed>,
                           flagged: Option<string>)
  {
    if !report.localServices then after == before && flagged.None?
    else if Runs(report.local) then
      var local := report.local.value;
      && flagged.Some?
      && after == before + Placeholders(LocalRoles(local), RolesAt(NodesAt(before, flagged.value)), flagged.value,
                                        local.backendId)
      && RunsAt(context, local, before, flagged.value)
    else if Any(before, None) then after == before && flagged.Some? && AnyAt(before, flagged.value, None)
    else after == before + [Placed("local", THIS_WEBUI)] && flagged == Some("local")
  }

  // ---- No role both reports and stands in -----------------------------------------------------

  ghost predicate Unmixed(placed: seq<Placed>) {
    forall i, j :: 0 <= i < |placed| && 0 <= j < |placed| && placed[i].key == placed[j].key &&
                   placed[i].node.role == placed[j].node.role ==>
      placed[i].node.installedOnly == placed[j].node.installedOnly
  }

  // Of one kind: all of them report, or all stand in.
  ghost predicate AllReport(placed: seq<Placed>) {
    forall p :: p in placed ==> !p.node.installedOnly
  }

  lemma {:induction false} BackendsReport(context: Context, entries: seq<BackendEntry>)
    ensures AllReport(BackendsPlaced(context, entries))
    decreases |entries|
  {
    if entries != [] { BackendsReport(context, Init(entries)); }
  }

  lemma {:induction false} ClientsReport(context: Context, clients: seq<Client>)
    ensures AllReport(ClientsPlaced(context, clients))
    decreases |clients|
  {
    if clients != [] { ClientsReport(context, Init(clients)); }
  }

  lemma {:induction false} DatabasesReport(context: Context, databases: seq<Database>)
    ensures AllReport(DatabasesPlaced(context, databases))
    decreases |databases|
  {
    if databases != [] { DatabasesReport(context, Init(databases)); }
  }

  lemma {:induction false} ReportedReport(context: Context, report: Report)
    ensures AllReport(Reported(context, report))
  {
    BackendsReport(context, report.backends);
    ClientsReport(context, report.clients);
    DatabasesReport(context, report.databases);
  }

  lemma {:induction false} NodesAre(placed: seq<Placed>, key: string)
    ensures forall node :: node in NodesAt(placed, key) <==> Placed(key, node) in placed
    decreases |placed|
  {
    if placed != [] {
      NodesAre(Init(placed), key);
      assert placed == Init(placed) + [Last(placed)];
    }
  }

  // A placeholder is put only where its role is missing, and once.
  ghost predicate StandIns(more: seq<Placed>, key: string, present: set<Role>, wanted: set<Role>) {
    forall p :: p in more ==> p.key == key && p.node.installedOnly && p.node.role in wanted - present
  }

  lemma {:induction false} PlaceholdersStandIn(wanted: set<Role>, present: set<Role>, key: string, name: string)
    ensures StandIns(Placeholders(wanted, present, key, name), key, present, wanted)
    ensures forall role :: role in wanted - present ==>
              Placed(key, Node(role, name, Unknown, None, false, true)) in Placeholders(wanted, present, key, name)
  {
    forall role | role in wanted - present
      ensures Placed(key, Node(role, name, Unknown, None, false, true)) in Placeholders(wanted, present, key, name)
    {
      match role {
        case Backend =>
        case Workers =>
        case WebUI =>
        case Postgres =>
        case Redis =>
      }
    }
  }

  lemma {:induction false} StandInsUnmixed(placed: seq<Placed>, more: seq<Placed>, key: string, wanted: set<Role>)
    requires Unmixed(placed) && StandIns(more, key, RolesAt(NodesAt(placed, key)), wanted)
    ensures Unmixed(placed + more)
  {
    NodesAre(placed, key);
    var all := placed + more;
    forall i, j | 0 <= i < |all| && 0 <= j < |all| && all[i].key == all[j].key && all[i].node.role == all[j].node.role
      ensures all[i].node.installedOnly == all[j].node.installedOnly
    {
      StandsApart(placed, more, key, wanted, all[i], all[j]);
      if i >= |placed| { assert all[i] in more; }
      if j >= |placed| { assert all[j] in more; }
      if i < |placed| && j >= |placed| { StandsApart(placed, more, key, wanted, all[i], all[j]); }
      if j < |placed| && i >= |placed| { StandsApart(placed, more, key, wanted, all[j], all[i]); }
    }
  }

  lemma {:induction false} StandsApart(placed: seq<Placed>, more: seq<Placed>, key: string, wanted: set<Role>,
                                       there: Placed, added: Placed)
    requires StandIns(more, key, RolesAt(NodesAt(placed, key)), wanted)
    ensures there in placed && added in more && there.key == added.key ==> there.node.role != added.node.role
  {
    NodesAre(placed, key);
    if there in placed && added in more && there.key == added.key {
      assert there.node in NodesAt(placed, key);
    }
  }

  lemma {:induction false} DeployedUnmixed(context: Context, placed: seq<Placed>, deployments: seq<Deployment>)
    requires Unmixed(placed)
    ensures Unmixed(Deployed(context, placed, deployments))
    decreases |deployments|
  {
    if deployments != [] {
      DeployedUnmixed(context, placed, Init(deployments));
      var before := Deployed(context, placed, Init(deployments));
      var last := Last(deployments);
      var key := DeploymentKey(context, last);
      PlaceholdersStandIn(last.components, RolesAt(NodesAt(before, key)), key, last.name);
      StandInsUnmixed(before, Placeholders(last.components, RolesAt(NodesAt(before, key)), key, last.name), key,
                      last.components);
    }
  }

  // Some node there has this role, and stands in.
  ghost predicate StandsInAt(placed: seq<Placed>, key: string, role: Role) {
    exists p :: p in placed && p.key == key && p.node.role == role && p.node.installedOnly
  }

  // This WebUI is added to a host where an installed one stands in.
  ghost predicate SelfMixes(report: Report, before: seq<Placed>) {
    report.localServices && !Runs(report.local) && !Any(before, None) && StandsInAt(before, "local", WebUI)
  }

  lemma {:induction false} UnmixedUnless(context: Context, report: Report, after: seq<Placed>,
                                         flagged: Option<string>)
    requires LocalEnd(context, report, Deployed(context, Reported(context, report), report.deployments), after, flagged)
    ensures Unmixed(after) <==>
            !SelfMixes(report, Deployed(context, Reported(context, report), report.deployments))
  {
    var before := Deployed(context, Reported(context, report), report.deployments);
    ReportedReport(context, report);
    DeployedUnmixed(context, Reported(context, report), report.deployments);
    if report.localServices && Runs(report.local) {
      var local := report.local.value;
      PlaceholdersStandIn(LocalRoles(local), RolesAt(NodesAt(before, flagged.value)), flagged.value, local.backendId);
      StandInsUnmixed(before, Placeholders(LocalRoles(local), RolesAt(NodesAt(before, flagged.value)), flagged.value,
                                           local.backendId), flagged.value, LocalRoles(local));
    } else if report.localServices && !Any(before, None) {
      SelfAdded(before, after);
    }
  }

  lemma {:induction false} SelfAdded(before: seq<Placed>, after: seq<Placed>)
    requires Unmixed(before) && after == before + [Placed("local", THIS_WEBUI)]
    ensures Unmixed(after) <==> !StandsInAt(before, "local", WebUI)
  {
    if StandsInAt(before, "local", WebUI) {
      var i :| 0 <= i < |before| && before[i].key == "local" && before[i].node.role == WebUI &&
               before[i].node.installedOnly;
      assert after[i] == before[i] && after[|before|] == Placed("local", THIS_WEBUI);
    } else {
      forall i, j | 0 <= i < |after| && 0 <= j < |after| && after[i].key == after[j].key &&
                    after[i].node.role == after[j].node.role
        ensures after[i].node.installedOnly == after[j].node.installedOnly
      {
        assert i < |before| ==> after[i] in before;
        assert j < |before| ==> after[j] in before;
      }
    }
  }

  ghost predicate RoleAt(placed: seq<Placed>, key: string, role: Role) {
    exists p :: p in placed && p.key == key && p.node.role == role
  }

  // Some deployment on that host has a component of this role.
  ghost predicate Wanted(context: Context, deployments: seq<Deployment>, key: string, role: Role) {
    exists d :: d in deployments && DeploymentKey(context, d) == key && role in d.components
  }

  lemma {:induction false} RolesThere(placed: seq<Placed>, key: string, role: Role)
    ensures role in RolesAt(NodesAt(placed, key)) <==> RoleAt(placed, key, role)
  {
    NodesAre(placed, key);
    if RoleAt(placed, key, role) {
      var p :| p in placed && p.key == key && p.node.role == role;
      assert p.node in NodesAt(placed, key);
    }
  }

  // One more deployment's placeholders.
  lemma {:induction false} StandsInNext(before: seq<Placed>, wanted: set<Role>, there: string, name: string,
                                        key: string, role: Role)
    ensures var after := before + Placeholders(wanted, RolesAt(NodesAt(before, there)), there, name);
            && (RoleAt(after, key, role) <==> RoleAt(before, key, role) || (there == key && role in wanted))
            && (StandsInAt(after, key, role) <==>
                  StandsInAt(before, key, role) || (there == key && role in wanted && !RoleAt(before, key, role)))
  {
    var more := Placeholders(wanted, RolesAt(NodesAt(before, there)), there, name);
    PlaceholdersStandIn(wanted, RolesAt(NodesAt(before, there)), there, name);
    RolesThere(before, there, role);
    hide RolesAt, NodesAt, Placeholders;
    if there == key && role in wanted && !RoleAt(before, key, role) {
      assert Placed(key, Node(role, name, Unknown, None, false, true)) in before + more;
    }
  }

  lemma {:induction false} WantedNext(context: Context, deployments: seq<Deployment>, key: string, role: Role)
    requires deployments != []
    ensures Wanted(context, deployments, key, role) <==>
            Wanted(context, Init(deployments), key, role) ||
            (DeploymentKey(context, Last(deployments)) == key && role in Last(deployments).components)
  {
    hide DeploymentKey;
    assert deployments == Init(deployments) + [Last(deployments)];
    if Wanted(context, Init(deployments), key, role) {
      var d :| d in Init(deployments) && DeploymentKey(context, d) == key && role in d.components;
      assert d in deployments;
    }
  }

  /** A role stands in on a host exactly when it is installed there and nothing of it reports. */
  lemma {:induction false} StandsInExactly(context: Context, placed: seq<Placed>, deployments: seq<Deployment>,
                                           key: string, role: Role)
    requires AllReport(placed)
    ensures var after := Deployed(context, placed, deployments);
            && (RoleAt(after, key, role) <==> RoleAt(placed, key, role) || Wanted(context, deployments, key, role))
            && (StandsInAt(after, key, role) <==>
                  Wanted(context, deployments, key, role) && !RoleAt(placed, key, role))
    decreases |deployments|
  {
    hide DeploymentKey, RolesAt, NodesAt, Placeholders;
    if deployments != [] {
      var last := Last(deployments);
      StandsInExactly(context, placed, Init(deployments), key, role);
      StandsInNext(Deployed(context, placed, Init(deployments)), last.components, DeploymentKey(context, last),
                   last.name, key, role);
      WantedNext(context, deployments, key, role);
    }
  }

  // The shown clients.
  ghost predicate ClientAt(context: Context, clients: seq<Client>, key: string) {
    exists client :: client in clients && Shown(client) && ClientPlaced(context, client).key == key
  }

  ghost predicate SelfShown(clients: seq<Client>) {
    exists client :: client in clients && Shown(client) && client.isSelf
  }

  ghost predicate AnySelf(placed: seq<Placed>) {
    exists p :: p in placed && p.node.isSelf
  }

  lemma {:induction false} ClientsAre(context: Context, clients: seq<Client>, key: string)
    ensures RoleAt(ClientsPlaced(context, clients), key, WebUI) <==> ClientAt(context, clients, key)
    ensures AnySelf(ClientsPlaced(context, clients)) <==> SelfShown(clients)
    decreases |clients|
  {
    if clients != [] {
      ClientsAre(context, Init(clients), key);
      assert clients == Init(clients) + [Last(clients)];
      hide KeyFor;
      if Shown(Last(clients)) { assert ClientPlaced(context, Last(clients)) in ClientsPlaced(context, clients); }
    }
  }

  // No other report is of a WebUI.
  ghost predicate NoWebUI(placed: seq<Placed>) {
    forall p :: p in placed ==> p.node.role != WebUI && !p.node.isSelf
  }

  lemma {:induction false} BackendsNoWebUI(context: Context, entries: seq<BackendEntry>)
    ensures NoWebUI(BackendsPlaced(context, entries))
    decreases |entries|
  {
    hide KeyFor, PresenceState;
    if entries != [] { BackendsNoWebUI(context, Init(entries)); }
  }

  lemma {:induction false} DatabasesNoWebUI(context: Context, databases: seq<Database>)
    ensures NoWebUI(DatabasesPlaced(context, databases))
    decreases |databases|
  {
    hide KeyFor;
    if databases != [] { DatabasesNoWebUI(context, Init(databases)); }
  }

  lemma {:induction false} ReportedWebUI(context: Context, report: Report, key: string)
    ensures RoleAt(Reported(context, report), key, WebUI) <==> ClientAt(context, report.clients, key)
    ensures AnySelf(Reported(context, report)) <==> SelfShown(report.clients)
  {
    BackendsNoWebUI(context, report.backends);
    DatabasesNoWebUI(context, report.databases);
    ClientsAre(context, report.clients, key);
    var clients := ClientsPlaced(context, report.clients);
    hide KeyFor, BackendsPlaced, ClientsPlaced, DatabasesPlaced, ClientAt, SelfShown;
    assert NoWebUI(RedisPlaced(context, report));
    OnlyThese(BackendsPlaced(context, report.backends), clients, DatabasesPlaced(context, report.databases),
              RedisPlaced(context, report), key);
  }

  lemma {:induction false} OnlyThese(before: seq<Placed>, clients: seq<Placed>, databases: seq<Placed>,
                                     redis: seq<Placed>, key: string)
    requires NoWebUI(before) && NoWebUI(databases) && NoWebUI(redis)
    ensures RoleAt(before + clients + databases + redis, key, WebUI) <==> RoleAt(clients, key, WebUI)
    ensures AnySelf(before + clients + databases + redis) <==> AnySelf(clients)
  {
    var all := before + clients + databases + redis;
    assert forall p :: p in all <==> p in before || p in clients || p in databases || p in redis;
  }

  // Placeholders are not this WebUI.
  lemma {:induction false} DeployedSelf(context: Context, placed: seq<Placed>, deployments: seq<Deployment>)
    ensures AnySelf(Deployed(context, placed, deployments)) <==> AnySelf(placed)
    decreases |deployments|
  {
    hide DeploymentKey, RolesAt, NodesAt;
    if deployments != [] { DeployedSelf(context, placed, Init(deployments)); }
  }

  lemma {:induction false} SelfIsAny(placed: seq<Placed>)
    ensures Any(placed, None) <==> AnySelf(placed)
  {
    if AnySelf(placed) {
      var p :| p in placed && p.node.isSelf;
      var i :| 0 <= i < |placed| && placed[i] == p;
      assert Sought(placed[i].node, None);
    }
  }

  // What is put on the host "local": what is beside a reporting backend of that name.
  lemma {:induction false} CalledLocal(context: Context, address: string, fallback: string, dockerAlias: bool)
    requires fallback != "local"
    ensures KeyFor(context, address, fallback, dockerAlias) == "local" <==>
            context.reporterKey == "local" && Beside(context, address, dockerAlias)
  {
    hide HostOf;
    assert LocalToReporter(context.net, "local");
  }

  // As the report says: this WebUI can run services, runs none and is not among the clients
  // shown; the reporting backend gives the bare name "local" as its address; and beside it
  // there is a deployment with a WebUI, and no client that is shown.
  ghost predicate Mixes(net: Net, reporterId: string, report: Report) {
    var context := ContextOf(net, report.backends, reporterId);
    && report.localServices && !Runs(report.local) && ReporterAtLocal(net, report.backends, reporterId)
    && (forall client :: client in report.clients && Shown(client) ==>
          !client.isSelf && !Beside(context, client.address, true))
    && exists d :: d in report.deployments && WebUI in d.components && Beside(context, d.address, false)
  }

  lemma {:induction false} MixesExactly(net: Net, reporterId: string, report: Report)
    ensures var context := ContextOf(net, report.backends, reporterId);
            SelfMixes(report, Deployed(context, Reported(context, report), report.deployments)) <==>
            Mixes(net, reporterId, report)
  {
    hide ContextOf, Deployed, Reported, Beside, ReporterAtLocal, Shown, StandsInAt, Wanted, ClientAt, RoleAt, Runs, Any;
    var context := ContextOf(net, report.backends, reporterId);
    var placed := Reported(context, report);
    var before := Deployed(context, placed, report.deployments);
    SelfIsAny(before);
    DeployedSelf(context, placed, report.deployments);
    ReportedReport(context, report);
    ReportedWebUI(context, report, "local");
    StandsInExactly(context, placed, report.deployments, "local", WebUI);
    ReporterKnown(net, report.backends, reporterId);
    LocalClients(context, report.clients);
    LocalDeployments(context, report.deployments);
  }

  lemma {:induction false} LocalClients(context: Context, clients: seq<Client>)
    ensures ClientAt(context, clients, "local") <==>
            context.reporterKey == "local" &&
            exists client :: client in clients && Shown(client) && Beside(context, client.address, true)
  {
    forall client | client in clients && Shown(client)
      ensures ClientPlaced(context, client).key == "local" <==>
              context.reporterKey == "local" && Beside(context, client.address, true)
    {
      assert ("webui:" + client.id)[0] == 'w' && "local"[0] == 'l';
      CalledLocal(context, client.address, "webui:" + client.id, true);
    }
    hide KeyFor, Beside;
  }

  lemma {:induction false} LocalDeployments(context: Context, deployments: seq<Deployment>)
    ensures Wanted(context, deployments, "local", WebUI) <==>
            context.reporterKey == "local" &&
            exists d :: d in deployments && WebUI in d.components && Beside(context, d.address, false)
  {
    forall d | d in deployments
      ensures DeploymentKey(context, d) == "local" <==>
              context.reporterKey == "local" && Beside(context, d.address, false)
    {
      assert ("deployment:" + d.id)[0] == 'd' && "local"[0] == 'l';
      CalledLocal(context, d.address, "deployment:" + d.id, false);
    }
    hide DeploymentKey, Beside;
  }

  /** On no host does a role both report and stand in, unless this WebUI itself is added last
      to a host with an installed WebUI that does not report: exactly when the report says so. */
  lemma {:induction false} UnmixedExactly(net: Net, reporterId: string, report: Report, after: seq<Placed>,
                                          flagged: Option<string>)
    requires var context := ContextOf(net, report.backends, reporterId);
             LocalEnd(context, report, Deployed(context, Reported(context, report), report.deployments), after, flagged)
    ensures Unmixed(after) <==> !Mixes(net, reporterId, report)
  {
    UnmixedUnless(ContextOf(net, report.backends, reporterId), report, after, flagged);
    MixesExactly(net, reporterId, report);
  }

  lemma {:induction false} BareName(net: Net)
    requires net.lower("local") == "local"
    ensures HostOf(net, "local") == "local"
  {
    StripKeeps("local", Space);
    NoneCounted("local", ':');
  }

  lemma {:induction false} NoneCounted(text: string, c: char)
    requires c !in text
    ensures Count(text, c) == 0
  {
    if text != "" { NoneCounted(text[1..], c); }
  }

  // A backend that calls its machine "local", one deployment, and this WebUI, which is not on
  // the list of clients.
  function LocalReport(deployment: Deployment): Report {
    Report([BackendEntry("main", "local", "online", Some(0.0), true, false)], [], [], "",
           true, [deployment], None, true)
  }

  lemma {:induction false} LocalContext(net: Net, deployment: Deployment)
    requires net.lower("local") == "local"
    ensures ReporterAtLocal(net, LocalReport(deployment).backends, "main")
    ensures Beside(ContextOf(net, LocalReport(deployment).backends, "main"), "local", false)
  {
    BareName(net);
    hide HostOf;
    var entries := LocalReport(deployment).backends;
    assert entries[0].id == "main" && Reporter(entries, "main") == Some(entries[0]);
    assert LocalToReporter(net, "local");
  }

  /** It mixes them once a WebUI is deployed beside that backend. */
  lemma {:induction false} MixesOnce(net: Net, deployment: Deployment, after: seq<Placed>, flagged: Option<string>)
    requires net.lower("local") == "local" && deployment.address == "local" && WebUI in deployment.components
    requires var report := LocalReport(deployment);
             var context := ContextOf(net, report.backends, "main");
             LocalEnd(context, report, Deployed(context, Reported(context, report), report.deployments), after, flagged)
    ensures !Unmixed(after)
  {
    hide HostOf, Deployed, Reported, ContextOf, LocalEnd, Unmixed, Beside, ReporterAtLocal;
    LocalContext(net, deployment);
    UnmixedExactly(net, "main", LocalReport(deployment), after, flagged);
    assert deployment in LocalReport(deployment).deployments;
  }

  /** No report mixes them when no backend gives that name: they report IP addresses. */
  lemma {:induction false} NeverMixes(net: Net, reporterId: string, report: Report)
    requires forall entry :: entry in report.backends ==> HostOf(net, entry.address) != "local"
    ensures !Mixes(net, reporterId, report)
  {
    ReporterIn(report.backends, reporterId);
  }

  // ---- Hosts ----------------------------------------------------------------------------------

  ghost predicate NoRepeats(keys: seq<string>) {
    forall i, j :: 0 <= i < j < |keys| ==> keys[i] != keys[j]
  }

  function NodeCount(placed: seq<Placed>, keys: seq<string>): nat {
    if keys == [] then 0 else |NodesAt(placed, keys[0])| + NodeCount(placed, keys[1..])
  }

  lemma {:induction false} CountSnoc(placed: seq<Placed>, keys: seq<string>)
    requires placed != [] && NoRepeats(keys)
    ensures NodeCount(placed, keys) == NodeCount(Init(placed), keys) + if Last(placed).key in keys then 1 else 0
  {
    if keys != [] {
      CountSnoc(placed, keys[1..]);
      assert keys == [keys[0]] + keys[1..];
      assert keys[0] !in keys[1..] by {
        forall i | 0 <= i < |keys[1..]| ensures keys[1..][i] != keys[0] {
          assert keys[0] != keys[i + 1];
        }
      }
    }
  }

  lemma {:induction false} CountNone(keys: seq<string>)
    ensures NodeCount([], keys) == 0
  {
    if keys != [] { CountNone(keys[1..]); }
  }

  /** Every node is on exactly one host: together the hosts have as many as were put there. */
  lemma {:induction false} OnOneHost(placed: seq<Placed>, keys: seq<string>)
    requires NoRepeats(keys) && forall p :: p in placed ==> p.key in keys
    ensures NodeCount(placed, keys) == |placed|
    decreases |placed|
  {
    if placed == [] {
      CountNone(keys);
    } else {
      assert Last(placed) in placed && forall p :: p in Init(placed) ==> p in placed;
      OnOneHost(Init(placed), keys);
      CountSnoc(placed, keys);
    }
  }

  function Rank(state: State): nat {
    match state
    case Offline => 3
    case Warning => 2
    case Healthy => 1
    case Unknown => 0
  }

  function Worst(nodes: seq<Node>): State {
    if nodes == [] then Unknown
    else if Rank(Last(nodes).state) > Rank(Worst(Init(nodes))) then Last(nodes).state else Worst(Init(nodes))
  }

  /** No node's state is worse than its host's, which is one of theirs. */
  lemma {:induction false} WorstIs(nodes: seq<Node>)
    ensures forall node :: node in nodes ==> Rank(node.state) <= Rank(Worst(nodes))
    ensures nodes != [] ==> exists node :: node in nodes && node.state == Worst(nodes)
    decreases |nodes|
  {
    if nodes != [] {
      WorstIs(Init(nodes));
      assert nodes == Init(nodes) + [Last(nodes)];
      if |nodes| == 1 || Rank(Last(nodes).state) > Rank(Worst(Init(nodes))) {
        assert Last(nodes) in nodes;
        if |nodes| == 1 { assert Init(nodes) == []; RankZero(Last(nodes).state); }
      } else {
        var node :| node in Init(nodes) && node.state == Worst(Init(nodes));
        assert node in nodes;
      }
    }
  }

  lemma {:induction false} RankZero(state: State)
    ensures Rank(state) <= 0 ==> state == Unknown
  {
  }

  datatype HostOut = HostOut(key: string, state: State, nodes: seq<Node>, localServices: bool)

  /** The hosts being built: a dict in the order its keys were added. */
  class Fleet {
    var order: seq<string>
    var nodes: map<string, seq<Node>>
    var flagged: Option<string>
    // Every node put on a host, in order.
    ghost var placed: seq<Placed>

    ghost predicate Valid()
      reads this
    {
      Holds(order, nodes, placed) && (flagged.Some? ==> flagged.value in order)
    }

    constructor ()
      ensures Valid() && placed == [] && flagged == None
    {
      order, nodes, flagged, placed := [], map[], None, [];
    }

    // The inner `host`.
    method Host(key: string)
      requires Valid()
      modifies `order, `nodes
      ensures Valid() && key in order && old(order) <= order
    {
      if key !in order {
        HoldsMore(order, nodes, placed, key);
        order, nodes := order + [key], nodes[key := []];
      }
    }

    method Put(key: string, node: Node)
      requires Valid()
      modifies `order, `nodes, `placed
      ensures Valid() && placed == old(placed) + [Placed(key, node)] && old(order) <= order && key in order
    {
      Host(key);
      HoldsNode(order, nodes, placed, key, node);
      nodes, placed := nodes[key := nodes[key] + [node]], placed + [Placed(key, node)];
    }

    method PutAll(all: seq<Placed>)
      requires Valid()
      modifies `order, `nodes, `placed
      ensures Valid() && placed == old(placed) + all && old(order) <= order
    {
      for i := 0 to |all|
        invariant Valid() && placed == old(placed) + all[..i] && old(order) <= order
      {
        Put(all[i].key, all[i].node);
      }
      assert all[..|all|] == all;
    }

    method PutBackends(context: Context, entries: seq<BackendEntry>)
      requires Valid()
      modifies `order, `nodes, `placed
      ensures Valid() && placed == old(placed) + BackendsPlaced(context, entries)
    {
      for i := 0 to |entries|
        invariant Valid() && placed == old(placed) + BackendsPlaced(context, entries[..i])
      {
        BackendsNext(context, old(placed), entries, i);
        PutBackend(context, entries[i]);
      }
      assert entries[..|entries|] == entries;
    }

    method PutBackend(context: Context, entry: BackendEntry)
      requires Valid()
      modifies `order, `nodes, `placed
      ensures Valid() && placed == old(placed) + BackendPlaced(context, entry)
    {
      if entry.id != "" { Host(KeyFor(context, entry.address, "backend:" + entry.id, false)); }
      PutAll(BackendPlaced(context, entry));
    }

    method PutClients(context: Context, clients: seq<Client>)
      requires Valid()
      modifies `order, `nodes, `placed
      ensures Valid() && placed == old(placed) + ClientsPlaced(context, clients)
    {
      for i := 0 to |clients|
        invariant Valid() && placed == old(placed) + ClientsPlaced(context, clients[..i])
      {
        assert Init(clients[..i + 1]) == clients[..i] && Last(clients[..i + 1]) == clients[i];
        if clients[i].revoked || clients[i].age.None? || clients[i].age.value > 3600.0 { continue; }
        var there := ClientPlaced(context, clients[i]);
        Put(there.key, there.node);
      }
      assert clients[..|clients|] == clients;
    }

    method PutDatabases(context: Context, databases: seq<Database>)
      requires Valid()
      modifies `order, `nodes, `placed
      ensures Valid() && placed == old(placed) + DatabasesPlaced(context, databases)
    {
      var seen: set<string> := {};
      for i := 0 to |databases|
        invariant Valid() && placed == old(placed) + DatabasesPlaced(context, databases[..i])
        invariant seen == Locations(databases[..i])
      {
        assert Init(databases[..i + 1]) == databases[..i] && Last(databases[..i + 1]) == databases[i];
        LocationsSnoc(databases[..i + 1]);
        if databases[i].address == "" || databases[i].location in seen { continue; }
        seen := seen + {databases[i].location};
        var there := DatabasePlaced(context, databases[i]);
        Put(there.key, there.node);
      }
      assert databases[..|databases|] == databases;
    }

    method PutDeployments(context: Context, deployments: seq<Deployment>)
      requires Valid()
      modifies `order, `nodes, `placed
      ensures Valid() && placed == Deployed(context, old(placed), deployments)
    {
      for i := 0 to |deployments|
        invariant Valid() && placed == Deployed(context, old(placed), deployments[..i])
      {
        assert Init(deployments[..i + 1]) == deployments[..i] && Last(deployments[..i + 1]) == deployments[i];
        PutMissing(deployments[i].components, DeploymentKey(context, deployments[i]), deployments[i].name);
      }
      assert deployments[..|deployments|] == deployments;
    }

    // The first host with a node that is this one, or runs this backend.
    method Find(backendId: Option<string>) returns (key: Option<string>)
      requires Valid()
      ensures if Any(placed, backendId) then key.Some? && key.value in order && AnyAt(placed, key.value, backendId)
              else key.None?
    {
      for k := 0 to |order|
        invariant forall i :: 0 <= i < |placed| && placed[i].key in order[..k] ==> !Sought(placed[i].node, backendId)
      {
        HoldsAt(order, nodes, placed, order[k]);
        NodesAre(placed, order[k]);
        if exists j :: 0 <= j < |nodes[order[k]]| && Sought(nodes[order[k]][j], backendId) {
          SoughtPlaced(placed, order[k], backendId);
          return Some(order[k]);
        }
        forall i | 0 <= i < |placed| && placed[i].key in order[..k + 1] ensures !Sought(placed[i].node, backendId) {
          if placed[i].key == order[k] { assert placed[i] in placed; }
        }
      }
      key := None;
      forall i | 0 <= i < |placed| ensures !Sought(placed[i].node, backendId) {
        assert placed[i] in placed;
        assert placed[i].key in order[..|order|];
      }
    }

    /** This WebUI's own services, and the host they are on. */
    method PutLocal(context: Context, report: Report)
      requires Valid() && flagged == None
      modifies this
      ensures Valid() && LocalEnd(context, report, old(placed), placed, flagged)
    {
      if !report.localServices { return; }
      if Runs(report.local) {
        PutRunning(context, report.local.value);
        return;
      }
      var target := Find(None);
      if target.None? {
        Put("local", THIS_WEBUI);
        target := Some("local");
      }
      flagged := target;
    }

    method Target(context: Context, local: LocalHost) returns (key: string)
      requires Valid()
      ensures RunsAt(context, local, placed, key)
    {
      key := KeyFor(context, local.address, "local", false);
      if local.backendId != "" {
        var found := Find(Some(local.backendId));
        if found.Some? { key := found.value; }
      }
    }

    method PutRunning(context: Context, local: LocalHost)
      requires Valid()
      modifies this
      ensures Valid() && flagged.Some? && RunsAt(context, local, old(placed), flagged.value)
      ensures placed == old(placed) + Placeholders(LocalRoles(local), RolesAt(NodesAt(old(placed), flagged.value)),
                                                   flagged.value, local.backendId)
    {
      var key := Target(context, local);
      PutMissing(LocalRoles(local), key, local.backendId);
      flagged := Some(key);
    }

    // The wanted roles that a host lacks.
    method PutMissing(wanted: set<Role>, key: string, name: string)
      requires Valid()
      modifies `order, `nodes, `placed
      ensures Valid() && key in order
      ensures placed == old(placed) + Placeholders(wanted, RolesAt(NodesAt(old(placed), key)), key, name)
    {
      Host(key);
      HoldsAt(order, nodes, placed, key);
      PutAll(Placeholders(wanted, RolesAt(nodes[key]), key, name));
    }

    /** The hosts as they are shown: each with the worst of its nodes' states, and flagged when
        this WebUI's services are there. */
    method Show() returns (out: seq<HostOut>)
      requires Valid()
      ensures ShownAs(out, placed, flagged)
    {
      hide NodesAt, Worst, ShownAs, Holds;
      out := [];
      for i := 0 to |order|
        invariant |out| == i
        invariant forall j :: 0 <= j < i ==>
                    out[j] == HostOut(order[j], Worst(NodesAt(placed, order[j])), NodesAt(placed, order[j]),
                                      flagged == Some(order[j]))
      {
        HoldsAt(order, nodes, placed, order[i]);
        var here := nodes[order[i]];
        out := out + [HostOut(order[i], Worst(here), here, flagged == Some(order[i]))];
      }
      ShownHosts(order, nodes, placed, flagged, out);
    }
  }

  lemma {:induction false} SoughtPlaced(placed: seq<Placed>, key: string, backendId: Option<string>)
    requires exists j :: 0 <= j < |NodesAt(placed, key)| && Sought(NodesAt(placed, key)[j], backendId)
    ensures AnyAt(placed, key, backendId)
  {
    NodesAre(placed, key);
    var j :| 0 <= j < |NodesAt(placed, key)| && Sought(NodesAt(placed, key)[j], backendId);
    assert Placed(key, NodesAt(placed, key)[j]) in placed;
  }

  lemma {:induction false} LocationsSnoc(databases: seq<Database>)
    requires databases != []
    ensures Locations(databases) ==
            Locations(Init(databases)) + if Last(databases).address != "" then {Last(databases).location} else {}
  {
    assert databases == Init(databases) + [Last(databases)];
  }

  // Each host has the nodes put there, and every node put somewhere is on a host.
  ghost predicate Holds(order: seq<string>, nodes: map<string, seq<Node>>, placed: seq<Placed>) {
    && NoRepeats(order) && (forall key :: key in order <==> key in nodes)
    && (forall key :: key in nodes ==> nodes[key] == NodesAt(placed, key))
    && (forall p :: p in placed ==> p.key in order)
  }

  lemma {:induction false} HoldsAt(order: seq<string>, nodes: map<string, seq<Node>>, placed: seq<Placed>, key: string)
    requires Holds(order, nodes, placed) && key in order
    ensures key in nodes && nodes[key] == NodesAt(placed, key)
  {
  }

  lemma {:induction false} NoneAt(placed: seq<Placed>, key: string)
    requires forall p :: p in placed ==> p.key != key
    ensures NodesAt(placed, key) == []
    decreases |placed|
  {
    if placed != [] {
      assert Last(placed) in placed && forall p :: p in Init(placed) ==> p in placed;
      NoneAt(Init(placed), key);
    }
  }

  lemma {:induction false} HoldsMore(order: seq<string>, nodes: map<string, seq<Node>>, placed: seq<Placed>,
                                     key: string)
    requires Holds(order, nodes, placed) && key !in order
    ensures Holds(order + [key], nodes[key := []], placed)
  {
    NoneAt(placed, key);
  }

  lemma {:induction false} HoldsNode(order: seq<string>, nodes: map<string, seq<Node>>, placed: seq<Placed>,
                                     key: string, node: Node)
    requires Holds(order, nodes, placed) && key in order
    ensures Holds(order, nodes[key := nodes[key] + [node]], placed + [Placed(key, node)])
  {
    assert Init(placed + [Placed(key, node)]) == placed;
  }

  /** The hosts have distinct keys, each with its own nodes and the worst of their states;
      every node is on one of them, and exactly the flagged one has this WebUI's services. */
  ghost predicate ShownAs(out: seq<HostOut>, placed: seq<Placed>, flagged: Option<string>) {
    && (forall i, j :: 0 <= i < j < |out| ==> out[i].key != out[j].key)
    && (forall p :: p in placed ==> KeyShown(out, p.key)) && (flagged.Some? ==> KeyShown(out, flagged.value))
    && (forall i :: 0 <= i < |out| ==>
          out[i] == HostOut(out[i].key, Worst(NodesAt(placed, out[i].key)), NodesAt(placed, out[i].key),
                            flagged == Some(out[i].key)))
  }

  ghost predicate KeyShown(out: seq<HostOut>, key: string) {
    exists i :: 0 <= i < |out| && out[i].key == key
  }

  lemma {:induction false} ShownHosts(order: seq<string>, nodes: map<string, seq<Node>>, placed: seq<Placed>,
                                      flagged: Option<string>, out: seq<HostOut>)
    requires Holds(order, nodes, placed) && (flagged.Some? ==> flagged.value in order) && |out| == |order|
    requires forall j :: 0 <= j < |out| ==>
               out[j] == HostOut(order[j], Worst(NodesAt(placed, order[j])), NodesAt(placed, order[j]),
                                 flagged == Some(order[j]))
    ensures ShownAs(out, placed, flagged)
  {
    forall key | key in order ensures KeyShown(out, key) {
      var j :| 0 <= j < |order| && order[j] == key;
      assert out[j].key == key;
    }
    forall i, j | 0 <= i < j < |out| ensures out[i].key != out[j].key {
      assert order[i] != order[j];
    }
  }

  // Everything but this WebUI's own services.
  method Collect(fleet: Fleet, context: Context, report: Report)
    requires fleet.Valid() && fleet.placed == []
    modifies fleet`order, fleet`nodes, fleet`placed
    ensures fleet.Valid() && fleet.placed == Deployed(context, Reported(context, report), report.deployments)
  {
    fleet.PutBackends(context, report.backends);
    assert fleet.placed == BackendsPlaced(context, report.backends);
    fleet.PutClients(context, report.clients);
    fleet.PutDatabases(context, report.databases);
    fleet.PutAll(RedisPlaced(context, report));
    assert fleet.placed == Reported(context, report);
    fleet.PutDeployments(context, report.deployments);
  }

  /** `build_hosts`: every reported node, then the placeholders, then this WebUI's own. */
  method BuildHosts(net: Net, reporterId: string, report: Report) returns (out: seq<HostOut>)
    ensures exists placed, flagged ::
              Built(ContextOf(net, report.backends, reporterId), report, out, placed, flagged)
  {
    var context := ContextOf(net, report.backends, reporterId);
    var fleet := new Fleet();
    Collect(fleet, context, report);
    fleet.PutLocal(context, report);
    out := fleet.Show();
    assert Built(context, report, out, fleet.placed, fleet.flagged);
  }

  // The hosts show all that was reported and put beside it.
  ghost predicate Built(context: Context, report: Report, out: seq<HostOut>, placed: seq<Placed>,
                        flagged: Option<string>)
  {
    && LocalEnd(context, report, Deployed(context, Reported(context, report), report.deployments), placed, flagged)
    && ShownAs(out, placed, flagged)
  }

  ghost predicate OnlyLocal(out: seq<HostOut>, i: int) {
    0 <= i < |out| && forall j :: 0 <= j < |out| ==> (out[j].localServices <==> j == i)
  }

  /** Exactly one host has this WebUI's services when it can run them, none otherwise. */
  lemma {:induction false} OneLocalHost(context: Context, report: Report, before: seq<Placed>, after: seq<Placed>,
                                        flagged: Option<string>, out: seq<HostOut>)
    requires LocalEnd(context, report, before, after, flagged) && ShownAs(out, after, flagged)
    ensures report.localServices ==>
              exists i :: OnlyLocal(out, i)
    ensures !report.localServices ==> forall j :: 0 <= j < |out| ==> !out[j].localServices
  {
    if report.localServices {
      assert flagged.Some?;
      var i :| 0 <= i < |out| && out[i].key == flagged.value;
      forall j | 0 <= j < |out| ensures out[j].localServices <==> j == i {
        if j < i { assert out[j].key != out[i].key; }
        if i < j { assert out[i].key != out[j].key; }
      }
      assert OnlyLocal(out, i);
    }
  }
}
