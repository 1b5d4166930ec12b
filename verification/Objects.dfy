/** The objects the operator reads and writes, with the fields it looks at. */
module Objects {
  import opened Text

  datatype Kind =
    | UpdateServiceKind | ImageKind | SecretKind | ConfigMapKind | ServiceKind
    | BudgetKind | RouteKind | NetworkPolicyKind | PodKind | DeploymentKind

  datatype Key = Key(kind: Kind, ns: string, name: string)

  type Labels = map<string, string>

  datatype Meta = Meta(labels: Labels, annotations: Labels, owner: Option<string>)

  // ---- UpdateService -----------------------------------------------------

  datatype Spec = Spec(replicas: int, releases: string, graphDataImage: string)

  datatype ConditionType = ReconcileCompleted | RegistryCACertFound | ReconcileError

  datatype Condition = Condition(kind: ConditionType, holds: bool, reason: string)

  datatype Status = Status(conditions: seq<Condition>, uri: string)

  // ---- Services, budgets, routes, policies -------------------------------

  datatype ServicePort = ServicePort(name: string, port: int, target: int)

  datatype ServiceSpec = ServiceSpec(ports: seq<ServicePort>, selector: Labels, clusterIP: string)

  datatype BudgetSpec = BudgetSpec(minAvailable: int, selector: Labels)

  datatype TLS = TLS(termination: string, insecurePolicy: string, certificate: string, key: string)

  datatype RouteSpec = RouteSpec(host: string, targetPort: string, service: string, tls: Option<TLS>)

  datatype PortRef = Number(n: int) | Named(name: string)

  datatype PolicyPort = PolicyPort(protocol: string, port: PortRef)

  datatype Peer = Peer(namespaces: Labels, pods: Option<Labels>)

  datatype PolicyRule = PolicyRule(peers: seq<Peer>, ports: seq<PolicyPort>)

  datatype PolicySpec = PolicySpec(podSelector: Labels, ingress: seq<PolicyRule>, egress: seq<PolicyRule>)

  // ---- Pods and deployments ----------------------------------------------

  datatype Phase = Pending | Running | Succeeded | Failed

  /** A stored amount: its number, in thousandths, and the form it is written in. */
  datatype Quantity = Quantity(milli: int, form: string)

  datatype EnvValue = Literal(text: string) | FromConfig(configMap: string, key: string)

  datatype EnvVar = EnvVar(name: string, value: EnvValue)

  datatype Mount = Mount(name: string, readOnly: bool, path: string)

  datatype VolumeSource =
    | ConfigMapVolume(configMap: string, items: map<string, string>)
    | SecretVolume(secret: string)
    | EmptyDir

  datatype Volume = Volume(name: string, source: VolumeSource)

  /** Fields the operator does not manage are gathered in rest. */
  datatype Container = Container(
    name: string, image: string, pullPolicy: string, command: seq<string>, args: seq<string>,
    ports: seq<ServicePort>, env: seq<EnvVar>,
    limits: map<string, Quantity>, requests: map<string, Quantity>,
    mounts: seq<Mount>, liveness: string, readiness: string, rest: string)

  datatype PodSpec = PodSpec(
    volumes: seq<Volume>, containers: seq<Container>, initContainers: seq<Container>, rest: string)

  datatype Template = Template(labels: Labels, annotations: Labels, pod: PodSpec)

  datatype DeploymentSpec = DeploymentSpec(
    replicas: int, selector: Labels, strategy: string, template: Template, rest: string)

  // ---- Objects -----------------------------------------------------------

  datatype Body =
    | UpdateService(spec: Spec, status: Status)
    | Image(trustedCA: string)
    | Secret(secret: Labels)
    | ConfigMap(data: Labels)
    | Service(service: ServiceSpec)
    | Budget(budget: BudgetSpec)
    | Route(route: RouteSpec, ingress: string)
    | NetworkPolicy(policy: PolicySpec)
    | Pod(image: string, phase: Phase, imageIDs: seq<string>)
    | Deployment(deployment: DeploymentSpec)

  datatype Object = Object(meta: Meta, body: Body)

  function KindOf(b: Body): Kind {
    match b
    case UpdateService(_, _) => UpdateServiceKind
    case Image(_) => ImageKind
    case Secret(_) => SecretKind
    case ConfigMap(_) => ConfigMapKind
    case Service(_) => ServiceKind
    case Budget(_) => BudgetKind
    case Route(_, _) => RouteKind
    case NetworkPolicy(_) => NetworkPolicyKind
    case Pod(_, _, _) => PodKind
    case Deployment(_) => DeploymentKind
  }

  type Store = map<Key, Object>

  function Lookup(s: Store, k: Key): Option<Object> {
    if k in s then Some(s[k]) else None
  }

  /** Every object sits under a key of its own kind. */
  predicate WellKinded(s: Store) {
    forall k <- s :: KindOf(s[k].body) == k.kind
  }
}
