/** The entities of the operator: the PRStack resource, the contents of a PR namespace, Mongo users. */
module Types {

  datatype Option<+T> = None | Some(value: T)

  const FINALIZER := "shop.pilab.hu/finalizer"
  const MONGO_SECRET := "mongodb-secret"
  const MONGO_CONFIG := Key(ConfigMap, "mongodb-config")
  const EXPIRATION := 3600

  // ---------------------------------------------------------------- the PRStack resource

  /** `PRStackSpec`. `storageParses` and `limitsParse` say whether the quantities in `BackupConfig.StorageSize`
      and in `ResourceLimits` are ones Kubernetes can parse; nothing checks that before `Reconcile` runs. */
  datatype Spec = Spec(
    active: bool,
    deployedAt: Option<int>,
    services: seq<string>,
    imageTag: string,
    customDomain: string,
    backup: bool,
    storageParses: bool,
    limitsParse: bool)

  datatype Phase =
    | Initialization | Provisioning | Deploying | Running | Inactive | Failed | Degraded | Cleaning | Cleaned

  /** Status and condition messages, with the formatted error texts left out. */
  datatype Message = Empty | Text(text: string) | Count(text: string, part: int, whole: int)

  datatype Condition = Condition(kind: string, status: bool, reason: string, message: Message, time: int)

  datatype ServiceStatus = ServiceStatus(name: string, running: bool)

  datatype Credentials = Credentials(user: string, password: string, connection: string, databases: seq<string>)

  datatype Status = Status(
    phase: Phase,
    message: Message,
    createdAt: Option<int>,
    lastActiveAt: Option<int>,
    lastDeployedAt: Option<int>,
    mongo: Option<Credentials>,
    nats: Option<string>,
    redis: Option<string>,
    services: seq<ServiceStatus>,
    conditions: seq<Condition>)

  const NEW_STATUS := Status(Initialization, Empty, None, None, None, None, None, None, [], [])

  /** `born` identifies the object (its UID); `version` is its resourceVersion. */
  datatype Stack = Stack(
    spec: Spec,
    status: Status,
    finalizers: seq<string>,
    deleted: bool,
    version: nat,
    born: nat)

  // ---------------------------------------------------------------- the contents of a namespace

  /** `database` is the database that the container is told to use, if any. */
  datatype Deployment = Deployment(replicas: Option<int>, restartedAt: Option<int>, image: string, database: Option<string>)

  datatype Secret = Secret(username: string, password: string)

  datatype Kind = Service | ConfigMap | Ingress | Volume | Job(at: int)

  datatype Key = Key(kind: Kind, name: string)

  /** What an object other than a deployment or a secret holds: the entries of a config map, or one line. */
  datatype Body = Line(line: string) | Data(entries: map<string, string>)

  datatype Namespace = Namespace(
    deployments: map<string, Deployment>,
    secrets: map<string, Secret>,
    objects: map<Key, Body>)

  const EMPTY_NAMESPACE := Namespace(map[], map[], map[])

  datatype Ref = DeploymentRef(name: string) | SecretRef(name: string) | ObjectRef(key: Key)

  /** An object handed to `Create` or `Update`. */
  datatype Manifest =
    | DeploymentManifest(name: string, deployment: Deployment)
    | SecretManifest(name: string, secret: Secret)
    | ObjectManifest(key: Key, content: Body)
  {
    function Ref(): Ref {
      match this
      case DeploymentManifest(name, _) => DeploymentRef(name)
      case SecretManifest(name, _) => SecretRef(name)
      case ObjectManifest(key, _) => ObjectRef(key)
    }
  }

  predicate Has(n: Namespace, ref: Ref) {
    match ref
    case DeploymentRef(name) => name in n.deployments
    case SecretRef(name) => name in n.secrets
    case ObjectRef(key) => key in n.objects
  }

  function Put(n: Namespace, m: Manifest): Namespace {
    match m
    case DeploymentManifest(name, d) => n.(deployments := n.deployments[name := d])
    case SecretManifest(name, secret) => n.(secrets := n.secrets[name := secret])
    case ObjectManifest(key, content) => n.(objects := n.objects[key := content])
  }

  function Remove(n: Namespace, ref: Ref): Namespace {
    match ref
    case DeploymentRef(name) => n.(deployments := n.deployments - {name})
    case SecretRef(name) => n.(secrets := n.secrets - {name})
    case ObjectRef(key) => n.(objects := n.objects - {key})
  }

  datatype MongoUser = MongoUser(password: string, roles: seq<string>)

  // ---------------------------------------------------------------- string lists

  /** `removeString`: the list without the first occurrence of `x`. */
  function RemoveString(s: seq<string>, x: string): seq<string> {
    if s == [] then []
    else if s[0] == x then s[1..]
    else [s[0]] + RemoveString(s[1..], x)
  }

  lemma {:induction false} RemoveCounts(s: seq<string>, x: string)
    ensures multiset(RemoveString(s, x)) == multiset(s) - multiset{x}
  {
    if s != [] {
      assert s == [s[0]] + s[1..];
      RemoveCounts(s[1..], x);
    }
  }

  /** The finalizer of the operator is listed at most once. */
  predicate Once(finalizers: seq<string>) {
    multiset(finalizers)[FINALIZER] <= 1
  }

  lemma RemoveKeepsOnce(s: seq<string>, x: string)
    requires Once(s)
    ensures Once(RemoveString(s, x))
    ensures x != FINALIZER ==> (FINALIZER in RemoveString(s, x) <==> FINALIZER in s)
    ensures x == FINALIZER ==> FINALIZER !in RemoveString(s, x)
  {
    RemoveCounts(s, x);
    var r := RemoveString(s, x);
    assert FINALIZER in r <==> FINALIZER in multiset(r);
    assert FINALIZER in s <==> FINALIZER in multiset(s);
  }
}
