/** Validation of the SNMP receiver's configuration, and what it guarantees to start-up. */
module SnmpConfig {
  import opened GoNumbers
  import opened Options

  datatype Auth = Auth(
    version: string, community: string, username: string,
    authProtocol: string, authPassphrase: string,
    privacyProtocol: string, privacyPassphrase: string)

  datatype Target = Target(host: string, port: int, auth: string, groups: seq<string>)

  datatype Metric = Metric(oid: string, name: string, kind: string)

  datatype Listener = Listener(address: string, accepted: seq<string>)

  datatype Config = Config(
    interval: int, auth: map<string, Auth>, targets: seq<Target>, groups: map<string, seq<Metric>>,
    listener: Option<Listener>, timeout: int, retries: int, maxRepetitions: int)

  const MIN_PASSPHRASE := 8
  const AUTH_PROTOCOLS: set<string> := {"MD5", "SHA", "SHA256", "SHA384", "SHA512"}
  const PRIVACY_PROTOCOLS: set<string> := {"DES", "AES", "AES192", "AES256"}
  const METRIC_KINDS: set<string> := {"counter", "gauge", "up_down_counter"}

  /** `strings.ToUpper`: nothing is assumed about it here. */
  type Upper = string -> string

  /** Each error names the entry it is about. */
  datatype Error =
    | NothingToDo | BadInterval | BadTimeout | BadRetries | BadMaxRepetitions
    | BadAuth(name: string) | BadTarget(index: nat) | BadGroup(group: string)
    | NoListenAddress | UnknownAccepted(entry: string) | SharedUser(first: string, second: string)

  /* ---- what a good configuration is ---- */

  predicate GoodAuth(upper: Upper, a: Auth) {
    && (a.version == "v2c" || a.version == "v3")
    && (a.version == "v2c" ==> a.community != "")
    && (a.version == "v3" ==>
      && a.username != ""
      && (a.authProtocol != "" ==> upper(a.authProtocol) in AUTH_PROTOCOLS && |a.authPassphrase| >= MIN_PASSPHRASE)
      && (a.privacyProtocol != "" ==>
        && upper(a.privacyProtocol) in PRIVACY_PROTOCOLS && |a.privacyPassphrase| >= MIN_PASSPHRASE
        && a.authProtocol != ""))
  }

  predicate GoodTarget(cfg: Config, t: Target) {
    && t.host != "" && 0 <= t.port <= 65535
    && t.auth != "" && t.auth in cfg.auth
    && forall g :: g in t.groups ==> g in cfg.groups
  }

  predicate GoodMetric(m: Metric) {
    m.oid != "" && m.name != "" && m.kind in METRIC_KINDS
  }

  predicate GoodGroup(ms: seq<Metric>) {
    ms != [] && forall j :: 0 <= j < |ms| ==> GoodMetric(ms[j])
  }

  /** The SNMPv3 user an accepted entry stands for. */
  function V3User(cfg: Config, name: string): Option<string> {
    if name in cfg.auth && cfg.auth[name].version == "v3" then Some(cfg.auth[name].username) else None
  }

  /** No SNMPv3 user is accepted by two entries of the list. */
  ghost predicate DistinctUsers(cfg: Config, names: seq<string>) {
    forall i, j :: 0 <= i < j < |names| && V3User(cfg, names[i]).Some? ==>
      V3User(cfg, names[i]) != V3User(cfg, names[j])
  }

  ghost predicate GoodListener(cfg: Config, l: Listener) {
    && l.address != ""
    && (forall i :: 0 <= i < |l.accepted| ==> l.accepted[i] in cfg.auth)
    && DistinctUsers(cfg, l.accepted)
  }

  ghost predicate WellFormed(upper: Upper, cfg: Config) {
    && (cfg.targets != [] || cfg.listener.Some?)
    && (cfg.targets != [] ==> cfg.interval > 0)
    && cfg.timeout > 0 && cfg.retries >= 0 && cfg.maxRepetitions >= 0
    && (forall n :: n in cfg.auth ==> GoodAuth(upper, cfg.auth[n]))
    && (forall i :: 0 <= i < |cfg.targets| ==> GoodTarget(cfg, cfg.targets[i]))
    && (forall n :: n in cfg.groups ==> GoodGroup(cfg.groups[n]))
    && (cfg.listener.Some? ==> GoodListener(cfg, cfg.listener.value))
  }

  /** The reported error is really there. */
  ghost predicate Explains(upper: Upper, cfg: Config, e: Error) {
    match e
    case NothingToDo => cfg.targets == [] && cfg.listener.None?
    case BadInterval => cfg.targets != [] && cfg.interval <= 0
    case BadTimeout => cfg.timeout <= 0
    case BadRetries => cfg.retries < 0
    case BadMaxRepetitions => cfg.maxRepetitions < 0
    case BadAuth(n) => n in cfg.auth && !GoodAuth(upper, cfg.auth[n])
    case BadTarget(i) => i < |cfg.targets| && !GoodTarget(cfg, cfg.targets[i])
    case BadGroup(n) => n in cfg.groups && !GoodGroup(cfg.groups[n])
    case NoListenAddress => cfg.listener.Some? && cfg.listener.value.address == ""
    case UnknownAccepted(n) => cfg.listener.Some? && n in cfg.listener.value.accepted && n !in cfg.auth
    case SharedUser(m, n) => cfg.listener.Some? && Shares(cfg, cfg.listener.value.accepted, m, n)
  }

  /** Two positions of the list, holding `m` and `n`, stand for one user. */
  ghost predicate Shares(cfg: Config, names: seq<string>, m: string, n: string) {
    V3User(cfg, m).Some? && V3User(cfg, m) == V3User(cfg, n)
    && exists i, j :: 0 <= i < j < |names| && names[i] == m && names[j] == n
  }

  /* ---- the validator ---- */

  method ValidateAuth(upper: Upper, a: Auth) returns (ok: bool)
    ensures ok == GoodAuth(upper, a)
  {
    if a.version != "v2c" && a.version != "v3" { return false; }
    if a.version == "v2c" && a.community == "" { return false; }
    if a.version == "v3" {
      if a.username == "" { return false; }
      if a.authProtocol != "" && upper(a.authProtocol) !in AUTH_PROTOCOLS { return false; }
      if a.privacyProtocol != "" && upper(a.privacyProtocol) !in PRIVACY_PROTOCOLS { return false; }
      if a.privacyProtocol != "" && a.authProtocol == "" { return false; }
      if a.authProtocol != "" && |a.authPassphrase| < MIN_PASSPHRASE { return false; }
      if a.privacyProtocol != "" && |a.privacyPassphrase| < MIN_PASSPHRASE { return false; }
    }
    return true;
  }

  method ValidateTarget(cfg: Config, t: Target) returns (ok: bool)
    ensures ok == GoodTarget(cfg, t)
  {
    if t.host == "" { return false; }
    if t.port < 0 || t.port > 65535 { return false; }
    if t.auth == "" { return false; }
    if t.auth !in cfg.auth { return false; }
    for i := 0 to |t.groups|
      invariant forall j :: 0 <= j < i ==> t.groups[j] in cfg.groups
    {
      if t.groups[i] !in cfg.groups { return false; }
    }
    return true;
  }

  method ValidateGroup(ms: seq<Metric>) returns (ok: bool)
    ensures ok == GoodGroup(ms)
  {
    assert |""| == 0 && forall k :: k in METRIC_KINDS ==> |k| > 0;
    if |ms| == 0 { return false; }
    for i := 0 to |ms|
      invariant forall j :: 0 <= j < i ==> GoodMetric(ms[j])
    {
      if ms[i].oid == "" { return false; }
      if ms[i].name == "" { return false; }
      if ms[i].kind == "" { return false; }
      if ms[i].kind !in METRIC_KINDS { return false; }
    }
    return true;
  }

  method ValidateListener(upper: Upper, cfg: Config, l: Listener) returns (r: Option<Error>)
    requires cfg.listener == Some(l)
    ensures r.None? <==> GoodListener(cfg, l)
    ensures r.Some? ==> Explains(upper, cfg, r.value)
  {
    if l.address == "" { return Some(NoListenAddress); }
    var v3Users: map<string, string> := map[];
    for i := 0 to |l.accepted|
      invariant forall j :: 0 <= j < i ==> l.accepted[j] in cfg.auth
      invariant DistinctUsers(cfg, l.accepted[..i])
      invariant forall u :: u in v3Users ==> v3Users[u] in l.accepted[..i] && V3User(cfg, v3Users[u]) == Some(u)
      invariant forall j :: 0 <= j < i && V3User(cfg, l.accepted[j]).Some? ==>
        V3User(cfg, l.accepted[j]).value in v3Users
    {
      var name := l.accepted[i];
      if name !in cfg.auth { return Some(UnknownAccepted(name)); }
      var a := cfg.auth[name];
      assert l.accepted[..i + 1] == l.accepted[..i] + [name];
      if a.version == "v3" {
        if a.username in v3Users {
          var other := v3Users[a.username];
          SharedIsNotDistinct(cfg, l.accepted, other, i);
          return Some(SharedUser(other, name));
        }
        v3Users := v3Users[a.username := name];
      }
    }
    assert l.accepted[..|l.accepted|] == l.accepted;
    return None;
  }

  lemma SharedIsNotDistinct(cfg: Config, names: seq<string>, other: string, i: nat)
    requires i < |names| && other in names[..i]
    requires V3User(cfg, other).Some? && V3User(cfg, other) == V3User(cfg, names[i])
    ensures Shares(cfg, names, other, names[i]) && !DistinctUsers(cfg, names)
  {
    var j :| 0 <= j < i && names[..i][j] == other;
    assert names[j] == other;
  }

  /** `Config.Validate`. The two maps are walked in an order nobody chooses; it affects which error
      is reported but not whether there is one, and any error reported is a real one. */
  method Validate(upper: Upper, cfg: Config) returns (r: Option<Error>)
    ensures r.None? <==> WellFormed(upper, cfg)
    ensures r.Some? ==> Explains(upper, cfg, r.value)
  {
    if |cfg.targets| == 0 && cfg.listener.None? { return Some(NothingToDo); }
    if |cfg.targets| > 0 && cfg.interval <= 0 { return Some(BadInterval); }
    if cfg.timeout <= 0 { return Some(BadTimeout); }
    if cfg.retries < 0 { return Some(BadRetries); }
    if cfg.maxRepetitions < 0 { return Some(BadMaxRepetitions); }
    r := ValidateAuths(upper, cfg);
    if r.Some? { return; }
    r := ValidateTargets(upper, cfg);
    if r.Some? { return; }
    r := ValidateGroups(upper, cfg);
    if r.Some? { return; }
    if cfg.listener.Some? {
      r := ValidateListener(upper, cfg, cfg.listener.value);
    }
  }

  method ValidateAuths(upper: Upper, cfg: Config) returns (r: Option<Error>)
    ensures r.None? <==> forall n :: n in cfg.auth ==> GoodAuth(upper, cfg.auth[n])
    ensures r.Some? ==> Explains(upper, cfg, r.value)
  {
    var names := cfg.auth.Keys;
    while names != {}
      invariant names <= cfg.auth.Keys
      invariant forall n :: n in cfg.auth.Keys - names ==> GoodAuth(upper, cfg.auth[n])
      decreases names
    {
      var n :| n in names;
      var ok := ValidateAuth(upper, cfg.auth[n]);
      if !ok { return Some(BadAuth(n)); }
      names := names - {n};
    }
    return None;
  }

  method ValidateTargets(upper: Upper, cfg: Config) returns (r: Option<Error>)
    ensures r.None? <==> forall i :: 0 <= i < |cfg.targets| ==> GoodTarget(cfg, cfg.targets[i])
    ensures r.Some? ==> Explains(upper, cfg, r.value)
  {
    for i := 0 to |cfg.targets|
      invariant forall j :: 0 <= j < i ==> GoodTarget(cfg, cfg.targets[j])
    {
      var ok := ValidateTarget(cfg, cfg.targets[i]);
      if !ok { return Some(BadTarget(i)); }
    }
    return None;
  }

  method ValidateGroups(upper: Upper, cfg: Config) returns (r: Option<Error>)
    ensures r.None? <==> forall n :: n in cfg.groups ==> GoodGroup(cfg.groups[n])
    ensures r.Some? ==> Explains(upper, cfg, r.value)
  {
    var names := cfg.groups.Keys;
    while names != {}
      invariant names <= cfg.groups.Keys
      invariant forall n :: n in cfg.groups.Keys - names ==> GoodGroup(cfg.groups[n])
      decreases names
    {
      var n :| n in names;
      var ok := ValidateGroup(cfg.groups[n]);
      if !ok { return Some(BadGroup(n)); }
      names := names - {n};
    }
    return None;
  }

  /** What acceptance means, by value. */
  lemma AcceptedEntry(upper: Upper, a: Auth)
    ensures GoodAuth(upper, a) <==>
      || (a.version == "v2c" && a.community != "")
      || (&& a.version == "v3" && a.username != ""
          && (a.authProtocol != "" ==>
                upper(a.authProtocol) in {"MD5", "SHA", "SHA256", "SHA384", "SHA512"} && |a.authPassphrase| >= 8)
          && (a.privacyProtocol != "" ==>
                && upper(a.privacyProtocol) in {"DES", "AES", "AES192", "AES256"} && |a.privacyPassphrase| >= 8
                && a.authProtocol != ""))
  {
  }

  lemma AcceptedMetric(m: Metric)
    ensures GoodMetric(m) <==>
      m.oid != "" && m.name != "" && (m.kind == "counter" || m.kind == "gauge" || m.kind == "up_down_counter")
  {
  }

  /* ---- what start-up relies on ---- */

  /** The port `buildTargetDefs` hands to the connection. */
  function EffectivePort(t: Target): int {
    if t.port == 0 then 161 else t.port
  }

  /** Every lookup start-up makes hits, and no port is cut off. */
  lemma StartupLookups(upper: Upper, cfg: Config, i: nat)
    requires WellFormed(upper, cfg) && i < |cfg.targets|
    ensures cfg.targets[i].auth in cfg.auth
    ensures forall g :: g in cfg.targets[i].groups ==> g in cfg.groups && cfg.groups[g] != []
    ensures ToUint16(EffectivePort(cfg.targets[i])) == EffectivePort(cfg.targets[i]) > 0
  {
    assert GoodTarget(cfg, cfg.targets[i]);
  }

  /** Validation does not protect the other conversion: `max_repetitions` reaches the connection
      unchanged if and only if it is below 2^32. */
  lemma MaxRepetitionsKept(upper: Upper, cfg: Config)
    requires WellFormed(upper, cfg)
    ensures ToUint32(cfg.maxRepetitions) == cfg.maxRepetitions <==> cfg.maxRepetitions < TWO_TO_32
  {
  }

  /** 2^32 itself is accepted, with a target to connect to, and becomes 0 there. */
  lemma MaxRepetitionsLost(upper: Upper)
    ensures exists cfg ::
      && WellFormed(upper, cfg) && cfg.targets != [] && cfg.targets[0].auth in cfg.auth
      && cfg.maxRepetitions == TWO_TO_32 && ToUint32(cfg.maxRepetitions) == 0
  {
    var auth := Auth("v2c", "public", "", "", "", "", "");
    var target := Target("192.0.2.1", 161, "a", []);
    var cfg := Config(60, map["a" := auth], [target], map[], None, 1, 0, TWO_TO_32);
    assert GoodAuth(upper, cfg.auth["a"]);
    assert GoodTarget(cfg, target);
    assert WellFormed(upper, cfg);
    assert ToUint32(cfg.maxRepetitions) == 0;
  }
}
