/**
 * Code the webhook calls but which is not part of this model, taken as
 * parameters: the semantic-version library, the provider identity catalog
 * loaded at start-up, and two checks from the validation package.
 */
module Collaborators {
  import opened KcmApi

  /**
   * The semantic-version library: which strings parse as a version, which
   * parse as a constraint, and whether a constraint accepts a version.
   */
  datatype Semver = Semver(
    isVersion: string -> bool,
    isConstraint: string -> bool,
    satisfies: (string, string) -> bool)  // (constraint, version)

  /**
   * The process-wide, read-only provider catalog: the prefix that marks an
   * infrastructure provider and, per infrastructure provider name, the
   * ClusterIdentity kinds it accepts.
   */
  datatype ProviderCatalog = ProviderCatalog(
    infraPrefix: string,
    clusterIdentityKinds: map<string, seq<string>>)
  {
    /** The accepted kinds of a provider, or None for a provider the catalog does not know. */
    function GetClusterIdentityKinds(provider: string): (r: Option<seq<string>>)
      ensures r.Some? <==> provider in clusterIdentityKinds
      ensures r.Some? ==> r.value == clusterIdentityKinds[provider]
    {
      if provider in clusterIdentityKinds then Some(clusterIdentityKinds[provider]) else None
    }
  }

  /**
   * The validation package's checks on a deployment's services: the
   * cross-namespace reference policy, and that every service names an
   * existing, valid ServiceTemplate in the deployment's namespace. Each
   * returns None when it accepts and an error text when it rejects.
   */
  datatype Validation = Validation(
    crossNamespaceServicesRefs: ClusterDeployment -> Option<string>,
    servicesHaveValidTemplates: (map<ObjectKey, ServiceTemplate>, seq<Service>, string) -> Option<string>)

  /** Go's strings.HasPrefix: s starts with prefix, character by character. */
  predicate HasPrefix(s: string, prefix: string)
    ensures HasPrefix(s, prefix) <==> |prefix| <= |s| && forall i | 0 <= i < |prefix| :: s[i] == prefix[i]
  {
    |prefix| <= |s| && s[..|prefix|] == prefix
  }

  /** Go's strings.TrimPrefix: drops the prefix when present, else returns s unchanged. */
  function TrimPrefix(s: string, prefix: string): (r: string)
    ensures HasPrefix(s, prefix) ==> prefix + r == s
    ensures !HasPrefix(s, prefix) ==> r == s
  {
    if HasPrefix(s, prefix) then s[|prefix|..] else s
  }
}
