/** The names the operator derives from a PR number, and the default services they are built for.
    A PR number is any string here: `Reconcile` never validates it. */
module Names {

  const DEFAULT_SERVICES: seq<string> := [
    "product-service", "cart-service", "order-service", "payment-service",
    "customer-service", "inventory-service", "notification-service", "discount-service",
    "checkout-service", "analytics-service", "auth-service", "graphql-service"]

  const SERVICE_SUFFIX := "-service"

  function NamespaceName(pr: string): string {
    "pr-" + pr + "-shop-pilab-hu"
  }

  function MongoUserName(pr: string): string {
    "pishop_pr_" + pr
  }

  predicate HasServiceSuffix(service: string) {
    |service| > 8 && service[|service| - 8..] == SERVICE_SUFFIX
  }

  /** The service name without its "-service" ending. */
  function ShortName(service: string): string {
    if HasServiceSuffix(service) then service[..|service| - 8] else service
  }

  function DatabaseName(service: string, pr: string): string {
    "pishop_" + ShortName(service) + "_pr_" + pr
  }

  /** The name `cleanupMongoDB` builds: it keeps the "-service" ending. */
  function CleanupDatabaseName(service: string, pr: string): string {
    "pishop_" + service + "_pr_" + pr
  }

  function DatabaseNames(services: seq<string>, pr: string): (names: seq<string>)
    ensures |names| == |services|
    ensures forall i :: 0 <= i < |names| ==> names[i] == DatabaseName(services[i], pr)
  {
    seq(|services|, i requires 0 <= i < |services| => DatabaseName(services[i], pr))
  }

  function CleanupDatabaseNames(services: seq<string>, pr: string): (names: seq<string>)
    ensures |names| == |services|
    ensures forall i :: 0 <= i < |names| ==> names[i] == CleanupDatabaseName(services[i], pr)
  {
    seq(|services|, i requires 0 <= i < |services| => CleanupDatabaseName(services[i], pr))
  }

  function SetOf<T>(s: seq<T>): set<T> {
    set x | x in s
  }

  /** The databases the PR's Mongo user is granted. */
  function Granted(pr: string): seq<string> {
    DatabaseNames(DEFAULT_SERVICES, pr)
  }

  /** Every database name the operator can touch for a PR, on either path. */
  function Touched(pr: string): set<string> {
    SetOf(Granted(pr)) + SetOf(CleanupDatabaseNames(DEFAULT_SERVICES, pr))
  }

  // ---------------------------------------------------------------- unique reading of names

  lemma NamespaceNameInjective(p: string, q: string)
    requires NamespaceName(p) == NamespaceName(q)
    ensures p == q
  {
    assert |p| == |q|;
    assert p == NamespaceName(p)[3..3 + |p|];
    assert q == NamespaceName(q)[3..3 + |q|];
  }

  lemma MongoUserNameInjective(p: string, q: string)
    requires MongoUserName(p) == MongoUserName(q)
    ensures p == q
  {
    assert p == MongoUserName(p)[10..];
    assert q == MongoUserName(q)[10..];
  }

  /** A text before the first underscore is determined by the whole string. */
  lemma FirstUnderscore(x: string, u: string, y: string, v: string)
    requires '_' !in x && '_' !in y
    requires x + "_" + u == y + "_" + v
    ensures x == y && u == v
  {
    var s, t := x + "_" + u, y + "_" + v;
    assert s[|x|] == '_' && t[|y|] == '_';
    assert forall i :: 0 <= i < |x| ==> s[i] == x[i];
    assert forall i :: 0 <= i < |y| ==> t[i] == y[i];
    assert |x| == |y|;
    assert x == s[..|x|] && y == t[..|y|];
    assert u == s[|x| + 1..] && v == t[|y| + 1..];
  }

  lemma DatabasePattern(x: string, p: string, y: string, q: string)
    requires '_' !in x && '_' !in y
    requires "pishop_" + x + "_pr_" + p == "pishop_" + y + "_pr_" + q
    ensures x == y && p == q
  {
    var s, t := "pishop_" + x + "_pr_" + p, "pishop_" + y + "_pr_" + q;
    assert s[7..] == x + "_" + ("pr_" + p);
    assert t[7..] == y + "_" + ("pr_" + q);
    FirstUnderscore(x, "pr_" + p, y, "pr_" + q);
    assert p == ("pr_" + p)[3..] && q == ("pr_" + q)[3..];
  }

  predicate PlainShort(short: string) {
    |short| > 0 && '_' !in short && '-' !in short
  }

  lemma ServiceShape(short: string, service: string)
    requires PlainShort(short) && service == short + SERVICE_SUFFIX
    ensures '_' !in service && HasServiceSuffix(service) && ShortName(service) == short
  {
    assert service[|service| - 8..] == SERVICE_SUFFIX;
    assert service[..|service| - 8] == short;
  }

  ghost predicate RegularName(service: string) {
    && '_' !in service && HasServiceSuffix(service)
    && service == ShortName(service) + SERVICE_SUFFIX
    && PlainShort(ShortName(service))
  }

  lemma DefaultServiceShape0(service: string)
    requires service in DEFAULT_SERVICES[0..4]
    ensures RegularName(service)
  {
    if service == "product-service" {
      ServiceShape("product", service);
    } else if service == "cart-service" {
      ServiceShape("cart", service);
    } else if service == "order-service" {
      ServiceShape("order", service);
    } else if service == "payment-service" {
      ServiceShape("payment", service);
    }
  }

  lemma DefaultServiceShape1(service: string)
    requires service in DEFAULT_SERVICES[4..8]
    ensures RegularName(service)
  {
    if service == "customer-service" {
      ServiceShape("customer", service);
    } else if service == "inventory-service" {
      ServiceShape("inventory", service);
    } else if service == "notification-service" {
      ServiceShape("notification", service);
    } else if service == "discount-service" {
      ServiceShape("discount", service);
    }
  }

  lemma DefaultServiceShape2(service: string)
    requires service in DEFAULT_SERVICES[8..12]
    ensures RegularName(service)
  {
    if service == "checkout-service" {
      ServiceShape("checkout", service);
    } else if service == "analytics-service" {
      ServiceShape("analytics", service);
    } else if service == "auth-service" {
      ServiceShape("auth", service);
    } else if service == "graphql-service" {
      ServiceShape("graphql", service);
    }
  }

  lemma DefaultServiceShape(service: string)
    requires service in DEFAULT_SERVICES
    ensures RegularName(service)
  {
    assert DEFAULT_SERVICES == DEFAULT_SERVICES[0..4] + DEFAULT_SERVICES[4..8] + DEFAULT_SERVICES[8..12];
    if service in DEFAULT_SERVICES[0..4] {
      DefaultServiceShape0(service);
    } else if service in DEFAULT_SERVICES[4..8] {
      DefaultServiceShape1(service);
    } else {
      DefaultServiceShape2(service);
    }
  }

  /** A provisioned database name tells both its service and its PR, whatever the PR strings are. */
  lemma DatabaseNameInjective(s: string, p: string, t: string, q: string)
    requires s in DEFAULT_SERVICES && t in DEFAULT_SERVICES
    requires DatabaseName(s, p) == DatabaseName(t, q)
    ensures s == t && p == q
  {
    DefaultServiceShape(s);
    DefaultServiceShape(t);
    DatabasePattern(ShortName(s), p, ShortName(t), q);
  }

  /** No name built by cleanup is a provisioned name, of the same PR or of any other. */
  lemma CleanupMissesProvisioned(s: string, p: string, t: string, q: string)
    requires s in DEFAULT_SERVICES && t in DEFAULT_SERVICES
    ensures CleanupDatabaseName(s, p) != DatabaseName(t, q)
  {
    DefaultServiceShape(s);
    DefaultServiceShape(t);
    assert s[|ShortName(s)|] == '-' && '-' in s;
    if CleanupDatabaseName(s, p) == DatabaseName(t, q) {
      DatabasePattern(s, p, ShortName(t), q);
    }
  }

  lemma CleanupDatabaseNameInjective(s: string, p: string, t: string, q: string)
    requires s in DEFAULT_SERVICES && t in DEFAULT_SERVICES
    requires CleanupDatabaseName(s, p) == CleanupDatabaseName(t, q)
    ensures s == t && p == q
  {
    DefaultServiceShape(s);
    DefaultServiceShape(t);
    DatabasePattern(s, p, t, q);
  }

  /** Distinct PRs share no namespace name, no Mongo user name and no database name. */
  lemma PrsAreSeparate(p: string, q: string)
    requires p != q
    ensures NamespaceName(p) != NamespaceName(q)
    ensures MongoUserName(p) != MongoUserName(q)
    ensures Touched(p) !! Touched(q)
  {
    if NamespaceName(p) == NamespaceName(q) { NamespaceNameInjective(p, q); }
    if MongoUserName(p) == MongoUserName(q) { MongoUserNameInjective(p, q); }
    forall d | d in Touched(p) && d in Touched(q) ensures false {
      var s := TouchedBy(d, p);
      var t := TouchedBy(d, q);
      if d == DatabaseName(s, p) {
        if d == DatabaseName(t, q) { DatabaseNameInjective(s, p, t, q); } else { CleanupMissesProvisioned(t, q, s, p); }
      } else {
        if d == DatabaseName(t, q) { CleanupMissesProvisioned(s, p, t, q); } else { CleanupDatabaseNameInjective(s, p, t, q); }
      }
    }
  }

  lemma TouchedBy(d: string, pr: string) returns (service: string)
    requires d in Touched(pr)
    ensures service in DEFAULT_SERVICES
    ensures d == DatabaseName(service, pr) || d == CleanupDatabaseName(service, pr)
  {
    if d in Granted(pr) {
      var i :| 0 <= i < |Granted(pr)| && Granted(pr)[i] == d;
      service := DEFAULT_SERVICES[i];
    } else {
      var names := CleanupDatabaseNames(DEFAULT_SERVICES, pr);
      var i :| 0 <= i < |names| && names[i] == d;
      service := DEFAULT_SERVICES[i];
    }
  }

  // ---------------------------------------------------------------- conservation of databases

  /** The role list and the database list that `provisionMongoDB` builds in its two loops. */
  method ProvisionLists(services: seq<string>, pr: string) returns (roles: seq<string>, databases: seq<string>)
    ensures roles == databases == DatabaseNames(services, pr)
  {
    roles, databases := [], [];
    for i := 0 to |services|
      invariant roles == DatabaseNames(services, pr)[..i]
    {
      roles := roles + [DatabaseName(services[i], pr)];
    }
    for i := 0 to |services|
      invariant databases == DatabaseNames(services, pr)[..i]
    {
      databases := databases + [DatabaseName(services[i], pr)];
    }
  }

  function TrimServiceSuffix(service: string): string {
    if |service| >= 8 && service[|service| - 8..] == SERVICE_SUFFIX then service[..|service| - 8] else service
  }

  function ConfigKey(service: string): string {
    TrimServiceSuffix(service) + "-database"
  }

  lemma ConfigKeyShape(service: string)
    requires service in DEFAULT_SERVICES
    ensures ConfigKey(service) == ShortName(service) + "-database"
    ensures ConfigKey(service) != "uri" && ConfigKey(service) != "timeout"
  {
    DefaultServiceShape(service);
    assert |ConfigKey(service)| >= 9;
  }

  /** No default service has the name of a server or a key that the config map uses otherwise. */
  lemma DefaultServicesApart()
    ensures forall name :: name in DEFAULT_SERVICES ==>
              name !in {"nats", "redis"} && ConfigKey(name) != "uri" && ConfigKey(name) != "timeout"
  {
    forall name | name in DEFAULT_SERVICES
      ensures name !in {"nats", "redis"} && ConfigKey(name) != "uri" && ConfigKey(name) != "timeout"
    {
      DefaultServiceShape(name);
      ConfigKeyShape(name);
    }
  }

  lemma ConfigKeyInjective(s: string, t: string)
    requires s in DEFAULT_SERVICES && t in DEFAULT_SERVICES
    requires ConfigKey(s) == ConfigKey(t)
    ensures s == t
  {
    ConfigKeyShape(s);
    ConfigKeyShape(t);
    DefaultServiceShape(s);
    DefaultServiceShape(t);
    assert ShortName(s) == ConfigKey(s)[..|ConfigKey(s)| - 9];
    assert ShortName(t) == ConfigKey(t)[..|ConfigKey(t)| - 9];
  }

  /** The entries of `getDatabaseConfigMapData`, service by service. */
  function Entries(services: seq<string>, key: string -> string, name: string -> string): map<string, string>
    decreases |services|
  {
    if services == [] then map["uri" := "", "timeout" := "10"]
    else
      var last := services[|services| - 1];
      Entries(services[..|services| - 1], key, name)[key(last) := name(last)]
  }

  function ConfigData(services: seq<string>, pr: string): map<string, string> {
    Entries(services, s => ConfigKey(s), s => DatabaseName(s, pr))
  }

  predicate ConfigMapFor(data: map<string, string>, services: seq<string>, pr: string) {
    && (forall s :: s in services ==> ConfigKey(s) in data && data[ConfigKey(s)] == DatabaseName(s, pr))
    && (forall k :: k in data && k != "uri" && k != "timeout" ==> exists s :: s in services && k == ConfigKey(s))
    && "uri" in data && "timeout" in data
  }

  /** `ConfigMapFor`, for any way to build keys and names. */
  ghost predicate Keyed(data: map<string, string>, services: seq<string>, key: string -> string, name: string -> string) {
    && (forall s :: s in services ==> key(s) in data && data[key(s)] == name(s))
    && (forall k :: k in data && k != "uri" && k != "timeout" ==> exists s :: s in services && k == key(s))
    && "uri" in data && "timeout" in data
  }

  /** A new entry under a key of its own. */
  lemma KeyedGrows(data: map<string, string>, before: seq<string>, service: string,
                   key: string -> string, name: string -> string)
    requires Keyed(data, before, key, name)
    requires forall s :: s in before && key(s) == key(service) ==> s == service
    requires key(service) != "uri" && key(service) != "timeout"
    ensures Keyed(data[key(service) := name(service)], before + [service], key, name)
  {
    var grown, after := data[key(service) := name(service)], before + [service];
    forall k | k in grown && k != "uri" && k != "timeout" ensures exists s :: s in after && k == key(s) {
      if k in data {
        var s :| s in before && k == key(s);
        assert s in after;
      } else {
        assert service in after && k == key(service);
      }
    }
  }

  /** The key of the service at `i` is not one of those before it. */
  ghost predicate KeyIsNew(services: seq<string>, key: string -> string, i: nat)
    requires i < |services|
  {
    && key(services[i]) != "uri" && key(services[i]) != "timeout"
    && forall s :: s in services[..i] && key(s) == key(services[i]) ==> s == services[i]
  }

  lemma {:induction false} EntriesKeyed(services: seq<string>, i: nat, key: string -> string, name: string -> string)
    requires i <= |services| && forall j :: 0 <= j < |services| ==> KeyIsNew(services, key, j)
    ensures var data := Entries(services[..i], key, name);
            Keyed(data, services[..i], key, name) && data["uri"] == "" && data["timeout"] == "10"
    decreases i
  {
    if i > 0 {
      var before, service := services[..i - 1], services[i - 1];
      EntriesKeyed(services, i - 1, key, name);
      assert services[..i] == before + [service] && KeyIsNew(services, key, i - 1);
      KeyedGrows(Entries(before, key, name), before, service, key, name);
      EntriesStep(services, i - 1, key, name);
    }
  }

  lemma EntriesStep(services: seq<string>, i: nat, key: string -> string, name: string -> string)
    requires i < |services|
    ensures Entries(services[..i + 1], key, name) == Entries(services[..i], key, name)[key(services[i]) := name(services[i])]
  {
    assert services[..i + 1][..i] == services[..i];
  }

  lemma ConfigDataStep(services: seq<string>, i: nat, pr: string)
    requires i < |services|
    ensures ConfigData(services[..i + 1], pr) ==
            ConfigData(services[..i], pr)[ConfigKey(services[i]) := DatabaseName(services[i], pr)]
  {
    var key, name := (s: string) => ConfigKey(s), (s: string) => DatabaseName(s, pr);
    EntriesStep(services, i, key, name);
  }

  method CollectEntries(services: seq<string>, pr: string) returns (data: map<string, string>)
    ensures data == ConfigData(services, pr)
  {
    data := map["uri" := "", "timeout" := "10"];
    for i := 0 to |services|
      invariant data == ConfigData(services[..i], pr)
    {
      ConfigDataStep(services, i, pr);
      data := data[ConfigKey(services[i]) := DatabaseName(services[i], pr)];
    }
    assert services[..|services|] == services;
  }

  /** `getDatabaseConfigMapData`: one entry per default service, each under a key of its own. */
  method DatabaseConfigMapData(pr: string) returns (data: map<string, string>)
    ensures data == ConfigData(DEFAULT_SERVICES, pr) && ConfigMapFor(data, DEFAULT_SERVICES, pr)
    ensures data["uri"] == "" && data["timeout"] == "10"
  {
    data := CollectEntries(DEFAULT_SERVICES, pr);
    DefaultConfigData(pr);
  }

  lemma OwnKey(key: string -> string, i: nat)
    requires i < |DEFAULT_SERVICES| && forall s :: key(s) == ConfigKey(s)
    ensures KeyIsNew(DEFAULT_SERVICES, key, i)
  {
    var service := DEFAULT_SERVICES[i];
    ConfigKeyShape(service);
    forall s | s in DEFAULT_SERVICES[..i] && ConfigKey(s) == ConfigKey(service) ensures s == service {
      ConfigKeyInjective(s, service);
    }
  }

  /** Keys of their own for all services are enough. */
  lemma ConfigDataFits(services: seq<string>, pr: string, key: string -> string)
    requires key == ((s: string) => ConfigKey(s)) && forall j :: 0 <= j < |services| ==> KeyIsNew(services, key, j)
    ensures var data := ConfigData(services, pr);
            ConfigMapFor(data, services, pr) && data["uri"] == "" && data["timeout"] == "10"
  {
    assert services[..|services|] == services;
    EntriesKeyed(services, |services|, key, (s: string) => DatabaseName(s, pr));
  }

  lemma DefaultConfigData(pr: string)
    ensures var data := ConfigData(DEFAULT_SERVICES, pr);
            ConfigMapFor(data, DEFAULT_SERVICES, pr) && data["uri"] == "" && data["timeout"] == "10"
  {
    var key := (s: string) => ConfigKey(s);
    forall j | 0 <= j < |DEFAULT_SERVICES| ensures KeyIsNew(DEFAULT_SERVICES, key, j) { OwnKey(key, j); }
    ConfigDataFits(DEFAULT_SERVICES, pr, key);
  }

  /** The databases named by a database config map. */
  ghost function DatabasesIn(data: map<string, string>): set<string> {
    set k | k in data && k != "uri" && k != "timeout" :: data[k]
  }

  /** What the config map names is exactly what the user is granted. */
  lemma DatabasesAreConserved(pr: string, data: map<string, string>)
    requires ConfigMapFor(data, DEFAULT_SERVICES, pr)
    ensures DatabasesIn(data) == SetOf(Granted(pr))
  {
    forall d | d in SetOf(Granted(pr)) ensures d in DatabasesIn(data) {
      var i :| 0 <= i < |Granted(pr)| && Granted(pr)[i] == d;
      var s := DEFAULT_SERVICES[i];
      ConfigKeyShape(s);
      assert d == DatabaseName(s, pr) && s in DEFAULT_SERVICES;
      assert ConfigKey(s) in data && data[ConfigKey(s)] == d;
    }
    forall s | s in DEFAULT_SERVICES ensures DatabaseName(s, pr) in SetOf(Granted(pr)) {
      var i :| 0 <= i < |DEFAULT_SERVICES| && DEFAULT_SERVICES[i] == s;
      assert Granted(pr)[i] == DatabaseName(s, pr);
    }
    forall k | k in data && k != "uri" && k != "timeout" ensures data[k] in SetOf(Granted(pr)) {
      var s :| s in DEFAULT_SERVICES && k == ConfigKey(s);
      assert data[k] == DatabaseName(s, pr);
    }
  }

  /** Also once the caller has set the connection. */
  lemma ConfigWithUri(pr: string, uri: string)
    ensures var data := ConfigData(DEFAULT_SERVICES, pr)["uri" := uri];
            && ConfigMapFor(data, DEFAULT_SERVICES, pr) && data["uri"] == uri
            && DatabasesIn(data) == SetOf(Granted(pr))
  {
    DefaultConfigData(pr);
    forall s | s in DEFAULT_SERVICES ensures ConfigKey(s) != "uri" { ConfigKeyShape(s); }
    DatabasesAreConserved(pr, ConfigData(DEFAULT_SERVICES, pr)["uri" := uri]);
  }

  /** Dropping the names cleanup builds leaves every provisioned database behind; dropping the names
      of `getDatabaseName` would leave none. */
  lemma CleanupRemainder(pr: string, databases: set<string>)
    requires databases <= SetOf(Granted(pr))
    ensures databases - SetOf(CleanupDatabaseNames(DEFAULT_SERVICES, pr)) == databases
    ensures databases - SetOf(DatabaseNames(DEFAULT_SERVICES, pr)) == {}
  {
    var names := CleanupDatabaseNames(DEFAULT_SERVICES, pr);
    forall d | d in databases ensures d !in SetOf(names) {
      var i :| 0 <= i < |Granted(pr)| && Granted(pr)[i] == d;
      if d in names {
        var j :| 0 <= j < |names| && names[j] == d;
        CleanupMissesProvisioned(DEFAULT_SERVICES[j], pr, DEFAULT_SERVICES[i], pr);
      }
    }
  }
}
