/** The names of the objects an instance owns, derived from its own name. */
module Names {

  const OPENSHIFT_CONFIG := "openshift-config"
  const PULL_SECRET := "pull-secret"
  const CLUSTER_CA := "cluster-trusted-ca"
  const TRUSTED_CA_VOLUME := "trusted-ca"
  const CERT_KEY := "updateservice-registry"
  const CLUSTER_CERT_KEY := "ca-bundle.crt"
  const GRAPH_POD := "graph-data-tag-digest"
  const GRAPH_BUILDER := "graph-builder"
  const POLICY_ENGINE := "policy-engine"
  const GRAPH_DATA := "graph-data"

  function Deployment(n: string): string { n }
  function PodDisruptionBudget(n: string): string { n }
  function NetworkPolicy(n: string): string { n }
  function EnvConfig(n: string): string { n + "-env" }
  function Config(n: string): string { n + "-config" }
  function PolicyEngineService(n: string): string { n + "-policy-engine" }
  function GraphBuilderService(n: string): string { n + "-graph-builder" }
  function PolicyEngineRoute(n: string): string { n + "-route" }
  function OldPolicyEngineRoute(n: string): string { PolicyEngineService(n) + "-route" }
  function AdditionalTrustedCA(n: string): string { n + "-trusted-ca" }
  function PullSecretCopy(n: string): string { n + "-" + PULL_SECRET }

  /** One replica must not block a node drain. */
  function MinAvailable(replicas: int): int {
    if replicas >= 2 then 1 else 0
  }
}
