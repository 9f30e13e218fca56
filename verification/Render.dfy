/** What an install writes (installer/render.py) and what an upgrade makes of it
    (installer/runner.py: `_upgrade`). */
module Render {
  import opened Basics
  import opened Text
  import opened EnvFile
  import opened EnvEdits

  const IMAGE_NAME := "ultimascraper"

  datatype Components = Components(backend: bool, worker: bool, postgres: bool, redis: bool, webui: bool) {
    function Profiles(): seq<string> {
      (if webui then ["webui"] else []) + (if backend then ["backend"] else []) + (if worker then ["worker"] else [])
      + (if postgres then ["postgres"] else []) + (if redis then ["redis"] else [])
    }

    predicate StoreOnly() {
      !backend && !worker && (postgres || redis)
    }
  }

  // Addresses arrive as resolved and rewritten for containers; prefixes as normalised.
  // `supported` says that the deployment's name and its combination of components are ones the
  // installer allows; `checked` holds the texts that are checked and not written as they are:
  // the database's address and fields, the Redis host and the directory.
  datatype DeploySpec = DeploySpec(
    supported: bool,
    checked: seq<string>,
    components: Components,
    imagePrefix: string,
    version: string,
    backendId: string,
    backendPort: nat,
    webPort: nat,
    databaseUrl: string,
    postgresPort: nat,
    redisHost: string,
    redisPort: nat,
    redisPassword: string,
    webuiHostnames: seq<string>,
    defaultBackendUrl: string,
    shareBackend: bool,
    advertiseHost: string,
    backendTlsPort: nat)

  // The tokens an install generates, or is given.
  datatype Tokens = Tokens(admin: string, secretKey: string, postgres: string, redis: string)

  function Decimal(n: nat): string {
    (if n < 10 then "" else Decimal(n / 10)) + ["0123456789"[n % 10]]
  }

  function CommaJoin(parts: seq<string>): string {
    if parts == [] then "" else Join(parts, ",")
  }

  // ---- Image names --------------------------------------------------------------------

  function Image(prefix: string): string {
    if prefix != "" then prefix + "/" + IMAGE_NAME else IMAGE_NAME
  }

  function ImageReference(prefix: string, version: string): string {
    Image(prefix) + ":" + version
  }

  // reference.rsplit(":", 1)[0]
  function BeforeLastColon(reference: string): string {
    if ':' !in reference then reference
    else if Last(reference) == ':' then Init(reference)
    else BeforeLastColon(Init(reference))
  }

  // [A-Za-z0-9][A-Za-z0-9._-]*
  predicate VersionName(version: string) {
    version != "" && forall i :: 0 <= i < |version| ==> VersionChar(version[i])
  }

  predicate VersionChar(c: char) {
    'A' <= c <= 'Z' || 'a' <= c <= 'z' || '0' <= c <= '9' || c in "._-"
  }

  /** The image setting is the reference without its tag, though a registry may
      have a port. */
  lemma {:induction false} ImageWithoutTag(prefix: string, version: string)
    requires forall i :: 0 <= i < |version| ==> VersionChar(version[i])
    ensures BeforeLastColon(ImageReference(prefix, version)) == Image(prefix)
    decreases |version|
  {
    var reference := ImageReference(prefix, version);
    assert reference[|Image(prefix)|] == ':';
    if version == "" {
      assert Last(reference) == ':' && Init(reference) == Image(prefix);
    } else {
      assert Last(reference) == Last(version) && VersionChar(Last(version));
      assert Init(reference) == ImageReference(prefix, Init(version));
      ImageWithoutTag(prefix, Init(version));
    }
  }

  // ---- The environment ------------------------------------------------------------------

  function Always(spec: DeploySpec, tokens: Tokens): Settings {
    var c := spec.components;
    [("COMPOSE_PROFILES", CommaJoin(c.Profiles())),
     ("USR_VERSION", spec.version),
     ("USR_IMAGE", BeforeLastColon(ImageReference(spec.imagePrefix, spec.version))),
     ("BACKEND_ID", spec.backendId),
     ("USR_ADMIN_TOKEN", tokens.admin),
     ("USR_SECRET_KEY", tokens.secretKey),
     ("USR_BACKEND_PORT", Decimal(spec.backendPort)),
     ("USR_WEB_PORT", Decimal(spec.webPort)),
     ("USR_WEBUI_DEFAULT_BACKEND_URL", if c.backend then "http://backend:21121" else spec.defaultBackendUrl),
     ("ULTIMA_ARCHIVE_DATABASE_URL", if c.postgres then "" else spec.databaseUrl),
     ("POSTGRES_PASSWORD", tokens.postgres),
     ("REDIS_HOST", if c.redis then "redis" else spec.redisHost),
     ("REDIS_PORT", if !c.redis || c.StoreOnly() then Decimal(spec.redisPort) else "6379"),
     ("REDIS_PASSWORD", if c.redis then tokens.redis else spec.redisPassword)]
  }

  function StorePort(spec: DeploySpec): Settings {
    if spec.components.StoreOnly() && spec.components.postgres then [("POSTGRES_PORT", Decimal(spec.postgresPort))]
    else []
  }

  function WebuiTls(spec: DeploySpec): Settings {
    if spec.components.webui then
      [("USR_WEBUI_TLS", "self-signed"), ("USR_WEBUI_TLS_HOSTNAMES", CommaJoin(spec.webuiHostnames))]
    else []
  }

  function Advertised(spec: DeploySpec): Settings {
    if Strip(spec.advertiseHost, Space) != "" then [("USR_ADVERTISE_HOST", Strip(spec.advertiseHost, Space))] else []
  }

  function SharedPort(spec: DeploySpec): Settings {
    if spec.shareBackend then [("USR_BACKEND_TLS_PORT", Decimal(spec.backendTlsPort))] else []
  }

  function Sometimes(spec: DeploySpec): Settings {
    StorePort(spec) + WebuiTls(spec) + Advertised(spec) + SharedPort(spec)
  }

  function Environment(spec: DeploySpec, tokens: Tokens): Settings {
    Always(spec, tokens) + Sometimes(spec)
  }

  const ALWAYS_KEYS := ["COMPOSE_PROFILES", "USR_VERSION", "USR_IMAGE", "BACKEND_ID", "USR_ADMIN_TOKEN",
                        "USR_SECRET_KEY", "USR_BACKEND_PORT", "USR_WEB_PORT", "USR_WEBUI_DEFAULT_BACKEND_URL",
                        "ULTIMA_ARCHIVE_DATABASE_URL", "POSTGRES_PASSWORD", "REDIS_HOST", "REDIS_PORT",
                        "REDIS_PASSWORD"]
  const SOMETIMES_KEYS := ["POSTGRES_PORT", "USR_WEBUI_TLS", "USR_WEBUI_TLS_HOSTNAMES", "USR_ADVERTISE_HOST",
                           "USR_BACKEND_TLS_PORT"]

  lemma {:induction false} VersionKeyNames()
    ensures KeyName("COMPOSE_PROFILES") && KeyName("USR_VERSION") && KeyName("USR_IMAGE")
  {
  }

  lemma {:induction false} IdentityKeyNames()
    ensures KeyName("BACKEND_ID") && KeyName("USR_ADMIN_TOKEN") && KeyName("USR_SECRET_KEY")
  {
  }

  lemma {:induction false} PortKeyNames()
    ensures KeyName("USR_BACKEND_PORT") && KeyName("USR_WEB_PORT")
  {
  }

  lemma {:induction false} DefaultUrlKeyName()
    ensures KeyName("USR_WEBUI_DEFAULT_BACKEND_URL")
  {
  }

  lemma {:induction false} ArchiveKeyName()
    ensures KeyName("ULTIMA_ARCHIVE_DATABASE_URL")
  {
  }

  lemma {:induction false} PostgresKeyNames()
    ensures KeyName("POSTGRES_PASSWORD") && KeyName("POSTGRES_PORT")
  {
  }

  lemma {:induction false} RedisKeyNames()
    ensures KeyName("REDIS_HOST") && KeyName("REDIS_PORT") && KeyName("REDIS_PASSWORD")
  {
  }

  lemma {:induction false} TlsKeyNames()
    ensures KeyName("USR_WEBUI_TLS") && KeyName("USR_WEBUI_TLS_HOSTNAMES")
  {
  }

  lemma {:induction false} SharingKeyNames()
    ensures KeyName("USR_ADVERTISE_HOST") && KeyName("USR_BACKEND_TLS_PORT")
  {
  }

  lemma {:induction false} AllKeyNames()
    ensures forall i :: 0 <= i < |ALWAYS_KEYS| ==> KeyName(ALWAYS_KEYS[i])
    ensures forall i :: 0 <= i < |SOMETIMES_KEYS| ==> KeyName(SOMETIMES_KEYS[i])
  {
    hide KeyName;
    VersionKeyNames();
    IdentityKeyNames();
    PortKeyNames();
    DefaultUrlKeyName();
    ArchiveKeyName();
    PostgresKeyNames();
    RedisKeyNames();
    TlsKeyNames();
    SharingKeyNames();
  }

  lemma {:induction false} KeysDiffer()
    ensures forall i, j :: 0 <= i < j < |ALWAYS_KEYS| ==> ALWAYS_KEYS[i] != ALWAYS_KEYS[j]
    ensures forall i, j :: 0 <= i < j < |SOMETIMES_KEYS| ==> SOMETIMES_KEYS[i] != SOMETIMES_KEYS[j]
    ensures forall i, j :: 0 <= i < |ALWAYS_KEYS| && 0 <= j < |SOMETIMES_KEYS| ==> ALWAYS_KEYS[i] != SOMETIMES_KEYS[j]
  {
  }

  lemma {:induction false} AlwaysKeyed(spec: DeploySpec, tokens: Tokens)
    ensures var e := Always(spec, tokens);
            |e| == |ALWAYS_KEYS| && forall i :: 0 <= i < |e| ==> e[i].0 == ALWAYS_KEYS[i]
  {
    hide Decimal, CommaJoin, BeforeLastColon, ImageReference;
  }

  // The settings have these of the optional keys, in order, and none past them.
  ghost predicate KeyedAt(e: Settings, at: seq<nat>, below: nat) {
    && |at| == |e|
    && (forall i :: 0 <= i < |e| ==> at[i] < below <= |SOMETIMES_KEYS| && e[i].0 == SOMETIMES_KEYS[at[i]])
    && (forall i, j :: 0 <= i < j < |e| ==> at[i] < at[j])
  }

  // None or one more.
  lemma {:induction false} KeyedNext(e: Settings, at: seq<nat>, below: nat, more: Settings) returns (longer: seq<nat>)
    requires KeyedAt(e, at, below) && below < |SOMETIMES_KEYS| && OneOf(more, below)
    ensures KeyedAt(e + more, longer, below + 1)
  {
    if more == [] {
      assert e + more == e;
      longer := at;
    } else {
      longer := at + [below];
    }
  }

  // None, or the setting of this optional key.
  ghost predicate OneOf(settings: Settings, k: nat) {
    settings == [] || (|settings| == 1 && k < |SOMETIMES_KEYS| && settings[0].0 == SOMETIMES_KEYS[k])
  }

  lemma {:induction false} TlsKeyed(spec: DeploySpec) returns (name: Settings, hosts: Settings)
    ensures WebuiTls(spec) == name + hosts && OneOf(name, 1) && OneOf(hosts, 2)
  {
    hide CommaJoin;
    var none: Settings := [];
    name, hosts := none, none;
    if spec.components.webui {
      name, hosts := [("USR_WEBUI_TLS", "self-signed")],
                     [("USR_WEBUI_TLS_HOSTNAMES", CommaJoin(spec.webuiHostnames))];
    }
  }

  lemma {:induction false} OthersKeyed(spec: DeploySpec)
    ensures OneOf(StorePort(spec), 0) && OneOf(Advertised(spec), 3) && OneOf(SharedPort(spec), 4)
  {
    hide Strip, Decimal;
  }

  // The optional settings come in the order of their keys.
  lemma {:induction false} SometimesKeyed(spec: DeploySpec) returns (at: seq<nat>)
    ensures KeyedAt(Sometimes(spec), at, |SOMETIMES_KEYS|)
  {
    OthersKeyed(spec);
    var name, hosts := TlsKeyed(spec);
    NoneKeyed();
    hide KeyedAt, OneOf, StorePort, WebuiTls, Advertised, SharedPort;
    at := KeyedNext([], [], 0, StorePort(spec));
    at := KeyedNext([] + StorePort(spec), at, 1, name);
    at := KeyedNext([] + StorePort(spec) + name, at, 2, hosts);
    at := KeyedNext([] + StorePort(spec) + name + hosts, at, 3, Advertised(spec));
    at := KeyedNext([] + StorePort(spec) + name + hosts + Advertised(spec), at, 4, SharedPort(spec));
    assert [] + StorePort(spec) + name + hosts + Advertised(spec) + SharedPort(spec) == Sometimes(spec);
  }

  lemma {:induction false} NoneKeyed()
    ensures KeyedAt([], [], 0)
  {
  }

  lemma {:induction false} EnvironmentKeyed(spec: DeploySpec, tokens: Tokens)
    ensures Keyed(Environment(spec, tokens))
  {
    AllKeyNames();
    AlwaysKeyed(spec, tokens);
    var at := SometimesKeyed(spec);
    var always, sometimes, e := Always(spec, tokens), Sometimes(spec), Environment(spec, tokens);
    forall i | 0 <= i < |e| ensures KeyName(e[i].0) {
      if i < |always| { assert e[i] == always[i]; } else { assert e[i] == sometimes[i - |always|]; }
    }
    forall i, j | 0 <= i < j < |e| ensures e[i].0 != e[j].0 { KeysApart(spec, tokens, at, i, j); }
  }

  lemma {:induction false} KeysApart(spec: DeploySpec, tokens: Tokens, at: seq<nat>, i: nat, j: nat)
    requires i < j < |Environment(spec, tokens)| && KeyedAt(Sometimes(spec), at, |SOMETIMES_KEYS|)
    ensures Environment(spec, tokens)[i].0 != Environment(spec, tokens)[j].0
  {
    KeysDiffer();
    AlwaysKeyed(spec, tokens);
    var always, sometimes, e := Always(spec, tokens), Sometimes(spec), Environment(spec, tokens);
    if j < |always| {
      assert e[i] == always[i] && e[j] == always[j];
    } else if i < |always| {
      assert e[i] == always[i] && e[j] == sometimes[j - |always|];
    } else {
      assert e[i] == sometimes[i - |always|] && e[j] == sometimes[j - |always|];
    }
  }

  predicate Breaks(value: string) {
    '\n' in value || '\r' in value
  }

  // `validate`: why the spec is refused, if it is.
  function Refusal(spec: DeploySpec): Option<string> {
    if !spec.supported then Some("Invalid component combination.")
    else if spec.shareBackend && !spec.components.backend then
      Some("Only a backend can be shared with other machines.")
    else if spec.shareBackend && Strip(spec.advertiseHost, Space) == "" then
      Some("Say which address other machines reach this backend at.")
    else if Breaks(spec.redisPassword) || Breaks(spec.advertiseHost)
            || exists i :: 0 <= i < |spec.checked| && Breaks(spec.checked[i]) then
      Some("Values cannot contain line breaks.")
    else None
  }

  // The `.env` text of `render`, or the error it raises.
  function Rendered(spec: DeploySpec, tokens: Tokens): Result<string, string> {
    if Refusal(spec).Some? then Err(Refusal(spec).value) else EnvText(Environment(spec, tokens))
  }

  /** What `render` writes parses back, in both parsers, as the environment it was given,
      exactly when no value has a line boundary in it. */
  lemma {:induction false} RenderedParses(spec: DeploySpec, tokens: Tokens)
    requires Rendered(spec, tokens).Ok?
    ensures var e, text := Environment(spec, tokens), Rendered(spec, tokens).value;
            var whole := forall i :: 0 <= i < |e| ==> OneLine(e[i].1);
            (EnvValuesOf(text) == Written(e) <==> whole) && (ParseEnvOf(text) == Written(e) <==> whole)
  {
    EnvironmentKeyed(spec, tokens);
    EnvRoundTrip(Environment(spec, tokens));
  }

  // A setting that can be written.
  predicate Writable(value: string) {
    Plain(value) || '\'' !in value
  }

  lemma {:induction false} WritableExactly(settings: Settings)
    ensures EnvText(settings).Ok? <==> forall i :: 0 <= i < |settings| ==> Writable(settings[i].1)
    decreases |settings|
  {
    if settings != [] {
      WritableExactly(Init(settings));
      assert settings == Init(settings) + [Last(settings)];
    }
  }

  lemma {:induction false} SometimesSame(spec: DeploySpec, password: string)
    ensures Sometimes(spec.(redisPassword := password)) == Sometimes(spec)
  {
  }

  // An existing Redis store's password is written as it is given.
  lemma {:induction false} PasswordChanged(spec: DeploySpec, tokens: Tokens, password: string)
    requires !spec.components.redis
    ensures |Environment(spec, tokens)| >= |Always(spec, tokens)| == 14
    ensures Environment(spec.(redisPassword := password), tokens) ==
            Environment(spec, tokens)[13 := ("REDIS_PASSWORD", password)]
  {
    hide Strip, Decimal, BeforeLastColon, ImageReference, CommaJoin, Sometimes;
    var changed := spec.(redisPassword := password);
    SometimesSame(spec, password);
    assert Always(changed, tokens) == Always(spec, tokens)[13 := ("REDIS_PASSWORD", password)];
  }

  const WITH_SEPARATOR := "a\U{2028}b"

  lemma {:induction false} SeparatorPasses()
    ensures Writable(WITH_SEPARATOR) && !Breaks(WITH_SEPARATOR) && !OneLine(WITH_SEPARATOR)
  {
    assert WITH_SEPARATOR[1] == '\U{2028}';
  }

  // A password that `validate` and the quoting let pass makes no difference to them.
  lemma {:induction false} PasswordPasses(spec: DeploySpec, tokens: Tokens, password: string)
    requires Rendered(spec, tokens).Ok? && !spec.components.redis && Writable(password) && !Breaks(password)
    ensures Rendered(spec.(redisPassword := password), tokens).Ok?
  {
    hide Environment, Writable, Breaks, Strip, EnvText;
    PasswordChanged(spec, tokens, password);
    WritableExactly(Environment(spec, tokens));
    WritableExactly(Environment(spec.(redisPassword := password), tokens));
  }

  /** The values `validate` accepts are not all on one line: it looks for two of the line
      boundaries. Any spec it accepts with a Redis store of the user's is accepted as well when
      that store's password has a line separator in it, and what is written then parses back as
      something else. */
  lemma {:induction false} SeparatorLost(spec: DeploySpec, tokens: Tokens)
    requires Rendered(spec, tokens).Ok? && !spec.components.redis
    ensures var broken := spec.(redisPassword := WITH_SEPARATOR);
            && Rendered(broken, tokens).Ok?
            && EnvValuesOf(Rendered(broken, tokens).value) != Written(Environment(broken, tokens))
            && ParseEnvOf(Rendered(broken, tokens).value) != Written(Environment(broken, tokens))
  {
    var broken := spec.(redisPassword := WITH_SEPARATOR);
    SeparatorPasses();
    PasswordPasses(spec, tokens, WITH_SEPARATOR);
    PasswordChanged(spec, tokens, WITH_SEPARATOR);
    hide Environment, Writable, Breaks, OneLine, Rendered, EnvValuesOf, ParseEnvOf, Written, Always;
    assert Environment(broken, tokens)[13].1 == WITH_SEPARATOR;
    RenderedParses(broken, tokens);
  }

  // ---- Upgrades ---------------------------------------------------------------------------

  const LEGACY_KEYS := {"USR_BACKEND_IMAGE", "USR_WORKER_IMAGE", "USR_WEBUI_IMAGE"}

  // The edits of one upgrade, in order.
  function UpgradeEdits(version: string, prefix: string): seq<Edit> {
    [Set("USR_VERSION", version),
     Set("USR_IMAGE", BeforeLastColon(ImageReference(prefix, version))),
     Drop(LEGACY_KEYS)]
  }

  function UpgradeText(env: string, version: string, prefix: string): string {
    EditTextAll(env, UpgradeEdits(version, prefix))
  }

  lemma {:induction false} ServiceImageKeyNames()
    ensures KeyName("USR_BACKEND_IMAGE") && KeyName("USR_WORKER_IMAGE")
  {
  }

  lemma {:induction false} WebuiImageKeyName()
    ensures KeyName("USR_WEBUI_IMAGE")
  {
  }

  lemma {:induction false} LegacyKeyNames()
    ensures forall key :: key in LEGACY_KEYS ==> KeyName(key)
  {
    hide KeyName;
    ServiceImageKeyNames();
    WebuiImageKeyName();
  }

  lemma {:induction false} UpgradeEditsPlain(version: string, prefix: string)
    requires VersionName(version) && Plain(prefix)
    ensures forall i :: 0 <= i < 3 ==> PlainEdit(UpgradeEdits(version, prefix)[i])
  {
    hide KeyName, Plain, Image, ImageReference, BeforeLastColon, LEGACY_KEYS, VersionChar;
    ImageWithoutTag(prefix, version);
    VersionKeyNames();
    LegacyKeyNames();
    VersionPlain(version);
    ImagePlain(prefix);
    assert PlainEdit(Set("USR_VERSION", version)) && PlainEdit(Set("USR_IMAGE", Image(prefix)));
    assert PlainEdit(Drop(LEGACY_KEYS));
  }

  lemma {:induction false} VersionPlain(version: string)
    requires VersionName(version)
    ensures Plain(version)
  {
    forall i | 0 <= i < |version| ensures PlainChar(version[i]) { assert VersionChar(version[i]); }
  }

  lemma {:induction false} ImagePlain(prefix: string)
    requires Plain(prefix)
    ensures Plain(Image(prefix))
  {
    assert Plain(IMAGE_NAME) && Plain("/");
    forall i | 0 <= i < |Image(prefix)| ensures PlainChar(Image(prefix)[i]) {
      if prefix != "" && i < |prefix| {
        assert Image(prefix)[i] == prefix[i];
      } else if prefix != "" && i > |prefix| {
        assert Image(prefix)[i] == IMAGE_NAME[i - |prefix| - 1];
      }
    }
  }

  /** After an upgrade's edits a well-kept file parses as before, with the version and image
      set and the per-service images gone: every other setting, and so every generated
      secret, is unchanged. */
  lemma {:induction false} UpgradeParses(env: string, version: string, prefix: string)
    requires WellKept(env) && VersionName(version) && Plain(prefix)
    ensures WellKept(UpgradeText(env, version, prefix))
    ensures ParseEnvOf(UpgradeText(env, version, prefix)) ==
            ParseEnvOf(env)["USR_VERSION" := version]["USR_IMAGE" := Image(prefix)] - LEGACY_KEYS
  {
    var edits := UpgradeEdits(version, prefix);
    UpgradeEditsPlain(version, prefix);
    ImageWithoutTag(prefix, version);
    EditsParse(env, edits);
    assert Init(edits) == [edits[0], edits[1]] && Init(Init(edits)) == [edits[0]] && Init([edits[0]]) == [];
    var parsed := ParseEnvOf(env);
    assert EditEnvAll(parsed, [edits[0]]) == EditEnv(EditEnvAll(parsed, []), edits[0]);
  }

  lemma {:induction false} VersionKeysStay()
    ensures "USR_VERSION" !in LEGACY_KEYS && "USR_IMAGE" !in LEGACY_KEYS && "USR_VERSION" != "USR_IMAGE"
  {
    assert |"USR_VERSION"| == 11 && |"USR_IMAGE"| == 9;
    assert |"USR_BACKEND_IMAGE"| == 17 && |"USR_WORKER_IMAGE"| == 16 && |"USR_WEBUI_IMAGE"| == 15;
  }

  datatype Upgrade = Upgrade(version: string, prefix: string)

  function UpgradeAll(env: string, upgrades: seq<Upgrade>): string {
    if upgrades == [] then env
    else UpgradeText(UpgradeAll(env, Init(upgrades)), Last(upgrades).version, Last(upgrades).prefix)
  }

  // A parsed file with the version and image of one upgrade.
  function Upgraded(env: Env, upgrade: Upgrade): Env {
    env["USR_VERSION" := upgrade.version]["USR_IMAGE" := Image(upgrade.prefix)] - LEGACY_KEYS
  }

  lemma {:induction false} UpgradedTwice(env: Env, first: Upgrade, second: Upgrade)
    ensures Upgraded(Upgraded(env, first), second) == Upgraded(env, second)
  {
  }

  /** Over any number of upgrades, a well-kept file parses as it did before them but for the
      version and image, which are the last upgrade's, and the per-service images. */
  lemma {:induction false} UpgradesParse(env: string, upgrades: seq<Upgrade>)
    requires WellKept(env)
    requires forall i :: 0 <= i < |upgrades| ==> VersionName(upgrades[i].version) && Plain(upgrades[i].prefix)
    ensures WellKept(UpgradeAll(env, upgrades))
    ensures ParseEnvOf(UpgradeAll(env, upgrades)) ==
            if upgrades == [] then ParseEnvOf(env) else Upgraded(ParseEnvOf(env), Last(upgrades))
    decreases |upgrades|
  {
    if upgrades != [] {
      UpgradesParse(env, Init(upgrades));
      UpgradeParses(UpgradeAll(env, Init(upgrades)), Last(upgrades).version, Last(upgrades).prefix);
      if |upgrades| > 1 {
        UpgradedTwice(ParseEnvOf(env), Last(Init(upgrades)), Last(upgrades));
      }
    }
  }

  /** So an install keeps every secret it was rendered with, however often it is upgraded. */
  lemma {:induction false} InstalledAndUpgraded(spec: DeploySpec, tokens: Tokens, upgrades: seq<Upgrade>, key: string)
    requires Rendered(spec, tokens).Ok?
    requires forall i :: 0 <= i < |Environment(spec, tokens)| ==> OneLine(Environment(spec, tokens)[i].1)
    requires forall i :: 0 <= i < |upgrades| ==> VersionName(upgrades[i].version) && Plain(upgrades[i].prefix)
    requires key in Written(Environment(spec, tokens)) && key !in {"USR_VERSION", "USR_IMAGE"} + LEGACY_KEYS
    ensures var parsed := ParseEnvOf(UpgradeAll(Rendered(spec, tokens).value, upgrades));
            key in parsed && parsed[key] == Written(Environment(spec, tokens))[key]
  {
    EnvironmentKeyed(spec, tokens);
    RenderedParses(spec, tokens);
    WrittenKept(Environment(spec, tokens));
    UpgradesParse(Rendered(spec, tokens).value, upgrades);
  }
}
