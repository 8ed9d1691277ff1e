/**
 * The admission decisions of the ClusterDeployment webhook, as functions of
 * the request and of a snapshot of the store. Each check is a function that
 * passes or fails with an error. The create and update decisions are written
 * as the webhook's chain of early returns, and are proved to report the first
 * failing check of a fixed list of rules.
 */
module Admission {
  import opened KcmApi
  import opened Store
  import opened Collaborators

  /** The built-in infrastructure provider that needs no cloud identity. */
  const InternalProvider: string := "internal"
  /** The identity kind the internal provider accepts. */
  const SecretKind: string := "Secret"

  datatype Error =
    | BadRequest(gotKind: string)
    | InvalidClusterDeployment(cause: Error)   // "the ClusterDeployment is invalid: ..."
    | K8sCompatibilityFailed(cause: Error)     // "failed to validate k8s compatibility: ..."
    | UpgradeForbidden                         // errClusterUpgradeForbidden
    | StoreFailure(storeError: StoreError)
    | TemplateNotValid(validationError: string)
    | K8sVersionUnparsable(version: string, deployment: ObjectKey)
    | ServiceTemplateUnavailable(serviceTemplate: ObjectKey, storeError: StoreError)
    | ConstraintUnparsable(constraint: string, serviceTemplate: ObjectKey)
    | ConstraintUnsatisfied(version: string, deployment: ObjectKey, constraint: string, serviceTemplate: ObjectKey)
    | NoProviders(template: string)
    | NoInfrastructureProviders(template: string)
    | CredentialNotReady
    | WrongIdentityKind(identityKind: string, provider: string)
    | UnsupportedProvider(provider: string)
    | CrossNamespaceRefsRejected(reason: string)
    | ServiceTemplatesRejected(reason: string)
    | DefaultTemplateUnavailable(storeError: StoreError)   // "could not get template for the clusterDeployment: ..."
    | DefaultTemplateInvalid(cause: Error)                 // "template is invalid: ..."

  /** The advisory texts the webhook returns beside some rejections. */
  datatype Warning =
    | K8sCompatibilityWarning                            // "Failed to validate k8s version compatibility with ServiceTemplates"
    | UpgradeSequenceNotAllowed(from: string, to: string) // "Cluster can't be upgraded from <from> to <to>. ..."

  datatype Check = Pass | Fail(error: Error)

  /** What a validating entry point returns: warnings and an optional error. */
  datatype Response = Response(warnings: seq<Warning>, err: Option<Error>)
  {
    predicate Accepted() { err.None? }
  }

  /** The webhook's configuration together with the collaborators it calls. */
  datatype Validator = Validator(
    validateClusterUpgradePath: bool,
    semver: Semver,
    providers: ProviderCatalog,
    validation: Validation)

  // ---------------------------------------------------------------------------
  // Template validity

  /** isTemplateValid: a template is usable only when its Valid flag is set. */
  function TemplateValidity(status: ClusterTemplateStatus): (r: Check)
    ensures r.Pass? <==> status.valid
    ensures r.Fail? ==> r.error == TemplateNotValid(status.validationError)
  {
    if !status.valid then Fail(TemplateNotValid(status.validationError)) else Pass
  }

  // ---------------------------------------------------------------------------
  // Kubernetes version compatibility

  /** The verdict on one service of the deployment for the cluster's Kubernetes version. */
  function ServiceCompatibility(sv: Semver, snap: Snapshot, cd: ClusterDeployment, version: string, svc: Service): (r: Check)
    ensures r.Pass? <==>
      var key := ObjectKey(cd.namespace, svc.template);
      || svc.disable
      || (key in snap.serviceTemplates
          && var c := snap.serviceTemplates[key].kubernetesConstraint;
             c == "" || (sv.isConstraint(c) && sv.satisfies(c, version)))
    ensures
      var key := ObjectKey(cd.namespace, svc.template);
      !svc.disable && key !in snap.serviceTemplates ==>
        r == Fail(ServiceTemplateUnavailable(key, NotFound(ServiceTemplateResource, key)))
    ensures
      var key := ObjectKey(cd.namespace, svc.template);
      && !svc.disable && key in snap.serviceTemplates
      && snap.serviceTemplates[key].kubernetesConstraint != ""
      && !sv.isConstraint(snap.serviceTemplates[key].kubernetesConstraint) ==>
        r == Fail(ConstraintUnparsable(snap.serviceTemplates[key].kubernetesConstraint, key))
    ensures
      var key := ObjectKey(cd.namespace, svc.template);
      && !svc.disable && key in snap.serviceTemplates
      && snap.serviceTemplates[key].kubernetesConstraint != ""
      && sv.isConstraint(snap.serviceTemplates[key].kubernetesConstraint)
      && !sv.satisfies(snap.serviceTemplates[key].kubernetesConstraint, version) ==>
        r == Fail(ConstraintUnsatisfied(version, cd.Key(), snap.serviceTemplates[key].kubernetesConstraint, key))
  {
    if svc.disable then Pass
    else
      var key := ObjectKey(cd.namespace, svc.template);
      match GetServiceTemplate(snap, cd.namespace, svc.template)
      case Missing(e) => Fail(ServiceTemplateUnavailable(key, e))
      case Found(st) =>
        var c := st.kubernetesConstraint;
        if c == "" then Pass
        else if !sv.isConstraint(c) then Fail(ConstraintUnparsable(c, key))
        else if !sv.satisfies(c, version) then Fail(ConstraintUnsatisfied(version, cd.Key(), c, key))
        else Pass
  }

  /** The services, checked in declaration order; the first failure is the result. */
  function ServicesCompatibility(sv: Semver, snap: Snapshot, cd: ClusterDeployment, version: string, services: seq<Service>): (r: Check)
    ensures r.Pass? <==> forall i | 0 <= i < |services| :: ServiceCompatibility(sv, snap, cd, version, services[i]).Pass?
    ensures r.Fail? ==> exists i | 0 <= i < |services| ::
      && ServiceCompatibility(sv, snap, cd, version, services[i]) == r
      && forall j | 0 <= j < i :: ServiceCompatibility(sv, snap, cd, version, services[j]).Pass?
    decreases |services|
  {
    if services == [] then Pass
    else
      match ServiceCompatibility(sv, snap, cd, version, services[0])
      case Fail(e) => Fail(e)
      case Pass =>
        var rest := ServicesCompatibility(sv, snap, cd, version, services[1..]);
        assert forall i | 1 <= i < |services| :: services[i] == services[1..][i - 1];
        rest
  }

  /** The scan over the services reports the failure of the first service that fails. */
  lemma {:induction false} ServicesCompatibilityStopsAtFirstFailure(
    sv: Semver, snap: Snapshot, cd: ClusterDeployment, version: string, services: seq<Service>, i: nat)
    requires i < |services|
    requires forall j | 0 <= j < i :: ServiceCompatibility(sv, snap, cd, version, services[j]).Pass?
    requires ServiceCompatibility(sv, snap, cd, version, services[i]).Fail?
    ensures ServicesCompatibility(sv, snap, cd, version, services) == ServiceCompatibility(sv, snap, cd, version, services[i])
  {
    var r := ServicesCompatibility(sv, snap, cd, version, services);
    var k :| 0 <= k < |services|
      && ServiceCompatibility(sv, snap, cd, version, services[k]) == r
      && forall j | 0 <= j < k :: ServiceCompatibility(sv, snap, cd, version, services[j]).Pass?;
  }

  /**
   * validateK8sCompatibility: every enabled service's constraint must accept
   * the Kubernetes version of the deployment's template.
   */
  function K8sCompatibility(sv: Semver, snap: Snapshot, t: ClusterTemplate, cd: ClusterDeployment): (r: Check)
    ensures |cd.spec.services| == 0 || t.status.kubernetesVersion == "" ==> r == Pass
    ensures r.Pass? <==>
      || |cd.spec.services| == 0
      || t.status.kubernetesVersion == ""
      || (&& sv.isVersion(t.status.kubernetesVersion)
          && forall i | 0 <= i < |cd.spec.services| ::
               ServiceCompatibility(sv, snap, cd, t.status.kubernetesVersion, cd.spec.services[i]).Pass?)
    ensures r.Fail? && !sv.isVersion(t.status.kubernetesVersion) ==>
      r.error == K8sVersionUnparsable(t.status.kubernetesVersion, cd.Key())
    ensures |cd.spec.services| > 0 && t.status.kubernetesVersion != "" && sv.isVersion(t.status.kubernetesVersion) ==>
      r == ServicesCompatibility(sv, snap, cd, t.status.kubernetesVersion, cd.spec.services)
  {
    var version := t.status.kubernetesVersion;
    if |cd.spec.services| == 0 || version == "" then Pass
    else if !sv.isVersion(version) then Fail(K8sVersionUnparsable(version, cd.Key()))
    else ServicesCompatibility(sv, snap, cd, version, cd.spec.services)
  }

  // ---------------------------------------------------------------------------
  // Credential and provider identity

  predicate IsInfraProvider(cat: ProviderCatalog, provider: string)
  {
    HasPrefix(provider, cat.infraPrefix)
  }

  function InfraProviderName(cat: ProviderCatalog, provider: string): string
  {
    TrimPrefix(provider, cat.infraPrefix)
  }

  /** Whether some provider carries the infrastructure prefix. */
  function HasInfraProvider(cat: ProviderCatalog, providers: seq<string>): (r: bool)
    ensures r <==> exists i | 0 <= i < |providers| :: IsInfraProvider(cat, providers[i])
    decreases |providers|
  {
    if providers == [] then false
    else
      var rest := HasInfraProvider(cat, providers[1..]);
      assert forall i | 1 <= i < |providers| :: providers[i] == providers[1..][i - 1];
      IsInfraProvider(cat, providers[0]) || rest
  }

  /**
   * Whether the infrastructure provider of the given short name accepts an
   * identity of the given kind: the internal provider takes only Secret,
   * any other provider what the catalog lists for it.
   */
  predicate AcceptsIdentityKind(cat: ProviderCatalog, name: string, kind: string)
  {
    if name == InternalProvider then kind == SecretKind
    else name in cat.clusterIdentityKinds && kind in cat.clusterIdentityKinds[name]
  }

  /** The verdict on one declared provider for a credential of the given identity kind. */
  function ProviderIdentityCheck(cat: ProviderCatalog, kind: string, provider: string): (r: Check)
    ensures r.Pass? <==>
      (IsInfraProvider(cat, provider) ==> AcceptsIdentityKind(cat, InfraProviderName(cat, provider), kind))
    ensures
      var name := InfraProviderName(cat, provider);
      (IsInfraProvider(cat, provider) && name != InternalProvider && name !in cat.clusterIdentityKinds)
        <==> r == Fail(UnsupportedProvider(name))
    ensures
      var name := InfraProviderName(cat, provider);
      r.Fail? && (name == InternalProvider || name in cat.clusterIdentityKinds) ==>
        r == Fail(WrongIdentityKind(kind, name))
  {
    if !IsInfraProvider(cat, provider) then Pass
    else
      var name := InfraProviderName(cat, provider);
      if name == InternalProvider then
        if kind != SecretKind then Fail(WrongIdentityKind(kind, name)) else Pass
      else
        match cat.GetClusterIdentityKinds(name)
        case None => Fail(UnsupportedProvider(name))
        case Some(kinds) => if kind !in kinds then Fail(WrongIdentityKind(kind, name)) else Pass
  }

  /** The providers, checked in declaration order; the first failure is the result. */
  function ProvidersAcceptIdentity(cat: ProviderCatalog, kind: string, providers: seq<string>): (r: Check)
    ensures r.Pass? <==> forall i | 0 <= i < |providers| :: ProviderIdentityCheck(cat, kind, providers[i]).Pass?
    ensures r.Fail? ==> exists i | 0 <= i < |providers| ::
      && ProviderIdentityCheck(cat, kind, providers[i]) == r
      && forall j | 0 <= j < i :: ProviderIdentityCheck(cat, kind, providers[j]).Pass?
    decreases |providers|
  {
    if providers == [] then Pass
    else
      match ProviderIdentityCheck(cat, kind, providers[0])
      case Fail(e) => Fail(e)
      case Pass =>
        var rest := ProvidersAcceptIdentity(cat, kind, providers[1..]);
        assert forall i | 1 <= i < |providers| :: providers[i] == providers[1..][i - 1];
        rest
  }

  /** The scan over the providers reports the failure of the first provider that fails. */
  lemma {:induction false} ProvidersAcceptIdentityStopsAtFirstFailure(
    cat: ProviderCatalog, kind: string, providers: seq<string>, i: nat)
    requires i < |providers|
    requires forall j | 0 <= j < i :: ProviderIdentityCheck(cat, kind, providers[j]).Pass?
    requires ProviderIdentityCheck(cat, kind, providers[i]).Fail?
    ensures ProvidersAcceptIdentity(cat, kind, providers) == ProviderIdentityCheck(cat, kind, providers[i])
  {
    var r := ProvidersAcceptIdentity(cat, kind, providers);
    var k :| 0 <= k < |providers|
      && ProviderIdentityCheck(cat, kind, providers[k]) == r
      && forall j | 0 <= j < k :: ProviderIdentityCheck(cat, kind, providers[j]).Pass?;
  }

  /**
   * isCredMatchTemplate: the credential matches the template when every
   * infrastructure provider the template declares accepts its identity kind.
   */
  function CredentialMatchesTemplate(cat: ProviderCatalog, cred: Credential, t: ClusterTemplate): (r: Check)
    ensures r.Pass? <==> forall i | 0 <= i < |t.status.providers| ::
      IsInfraProvider(cat, t.status.providers[i]) ==>
        AcceptsIdentityKind(cat, InfraProviderName(cat, t.status.providers[i]), cred.identityKind)
    ensures r.Fail? ==> exists i | 0 <= i < |t.status.providers| ::
      && ProviderIdentityCheck(cat, cred.identityKind, t.status.providers[i]) == r
      && forall j | 0 <= j < i :: ProviderIdentityCheck(cat, cred.identityKind, t.status.providers[j]).Pass?
  {
    ProvidersAcceptIdentity(cat, cred.identityKind, t.status.providers)
  }

  /**
   * validateCredential: the template must declare providers, one of them an
   * infrastructure provider; then the deployment's credential must exist, be
   * Ready and match the template.
   */
  function CredentialMatch(cat: ProviderCatalog, snap: Snapshot, cd: ClusterDeployment, t: ClusterTemplate): (r: Check)
    ensures |t.status.providers| == 0 ==> r == Fail(NoProviders(t.name))
    ensures |t.status.providers| > 0 && !HasInfraProvider(cat, t.status.providers) ==>
      r == Fail(NoInfrastructureProviders(t.name))
    ensures HasInfraProvider(cat, t.status.providers) && ObjectKey(cd.namespace, cd.spec.credential) !in snap.credentials ==>
      r == Fail(StoreFailure(NotFound(CredentialResource, ObjectKey(cd.namespace, cd.spec.credential))))
    ensures HasInfraProvider(cat, t.status.providers) && ObjectKey(cd.namespace, cd.spec.credential) in snap.credentials
            && !snap.credentials[ObjectKey(cd.namespace, cd.spec.credential)].ready ==>
      r == Fail(CredentialNotReady)
    ensures r.Pass? <==>
      var key := ObjectKey(cd.namespace, cd.spec.credential);
      && HasInfraProvider(cat, t.status.providers)
      && key in snap.credentials
      && snap.credentials[key].ready
      && forall i | 0 <= i < |t.status.providers| ::
           IsInfraProvider(cat, t.status.providers[i]) ==>
             AcceptsIdentityKind(cat, InfraProviderName(cat, t.status.providers[i]), snap.credentials[key].identityKind)
    ensures
      var key := ObjectKey(cd.namespace, cd.spec.credential);
      HasInfraProvider(cat, t.status.providers) && key in snap.credentials && snap.credentials[key].ready ==>
        r == CredentialMatchesTemplate(cat, snap.credentials[key], t)
  {
    if |t.status.providers| == 0 then Fail(NoProviders(t.name))
    else if !HasInfraProvider(cat, t.status.providers) then Fail(NoInfrastructureProviders(t.name))
    else
      match GetClusterDeploymentCredential(snap, cd.namespace, cd.spec.credential)
      case Missing(e) => Fail(StoreFailure(e))
      case Found(cred) =>
        if !cred.ready then Fail(CredentialNotReady)
        else CredentialMatchesTemplate(cat, cred, t)
  }

  // ---------------------------------------------------------------------------
  // Create and update

  /** The checks an admission decision may run once the template is found. */
  datatype Rule =
    | UpgradePathRule
    | TemplateValidityRule
    | K8sCompatibilityRule
    | CredentialRule
    | CrossNamespaceRule
    | ServiceTemplatesRule

  /**
   * One admission call: the validator, the store snapshot, the deployment
   * before the change (on update), the deployment and its resolved template.
   */
  datatype Request = Request(
    v: Validator,
    snap: Snapshot,
    previous: Option<ClusterDeployment>,
    cd: ClusterDeployment,
    template: ClusterTemplate)
  {
    function PreviousTemplate(): string
    {
      if previous.Some? then previous.value.spec.template else ""
    }
  }

  /** The verdict of one rule on a request. */
  function RuleCheck(req: Request, rule: Rule): (r: Check)
    ensures rule == UpgradePathRule ==>
      (r.Fail? <==> req.previous.Some? && req.v.validateClusterUpgradePath
                    && req.cd.spec.template !in req.previous.value.status.availableUpgrades)
    ensures rule == UpgradePathRule && r.Fail? ==> r.error == UpgradeForbidden
    ensures rule == CrossNamespaceRule ==>
      var reason := req.v.validation.crossNamespaceServicesRefs(req.cd);
      (r.Pass? <==> reason.None?) && (reason.Some? ==> r.error == CrossNamespaceRefsRejected(reason.value))
    ensures rule == ServiceTemplatesRule ==>
      var reason := req.v.validation.servicesHaveValidTemplates(req.snap.serviceTemplates, req.cd.spec.services, req.cd.namespace);
      (r.Pass? <==> reason.None?) && (reason.Some? ==> r.error == ServiceTemplatesRejected(reason.value))
    ensures r.Fail? && r.error == UpgradeForbidden ==> rule == UpgradePathRule
  {
    match rule
    case UpgradePathRule =>
      if req.previous.Some? && req.v.validateClusterUpgradePath
         && req.cd.spec.template !in req.previous.value.status.availableUpgrades
      then Fail(UpgradeForbidden)
      else Pass
    case TemplateValidityRule => TemplateValidity(req.template.status)
    case K8sCompatibilityRule => K8sCompatibility(req.v.semver, req.snap, req.template, req.cd)
    case CredentialRule => CredentialMatch(req.v.providers, req.snap, req.cd, req.template)
    case CrossNamespaceRule =>
      (match req.v.validation.crossNamespaceServicesRefs(req.cd)
       case None => Pass
       case Some(reason) => Fail(CrossNamespaceRefsRejected(reason)))
    case ServiceTemplatesRule =>
      match req.v.validation.servicesHaveValidTemplates(req.snap.serviceTemplates, req.cd.spec.services, req.cd.namespace)
      case None => Pass
      case Some(reason) => Fail(ServiceTemplatesRejected(reason))
  }

  /** How the failure of a rule is reported: its warnings and its (wrapped) error. */
  function Rejection(req: Request, rule: Rule, e: Error): (r: Response)
    ensures !r.Accepted()
    ensures rule == UpgradePathRule ==>
      r.err == Some(e) && r.warnings == [UpgradeSequenceNotAllowed(req.PreviousTemplate(), req.cd.spec.template)]
    ensures rule == K8sCompatibilityRule ==> r.err == Some(K8sCompatibilityFailed(e)) && r.warnings == [K8sCompatibilityWarning]
    ensures rule != UpgradePathRule && rule != K8sCompatibilityRule ==>
      r.err == Some(InvalidClusterDeployment(e)) && r.warnings == []
  {
    match rule
    case UpgradePathRule => Response([UpgradeSequenceNotAllowed(req.PreviousTemplate(), req.cd.spec.template)], Some(e))
    case K8sCompatibilityRule => Response([K8sCompatibilityWarning], Some(K8sCompatibilityFailed(e)))
    case _ => Response([], Some(InvalidClusterDeployment(e)))
  }

  predicate FirstFailingRule(req: Request, rules: seq<Rule>, i: int)
    requires 0 <= i < |rules|
  {
    && RuleCheck(req, rules[i]).Fail?
    && forall j | 0 <= j < i :: RuleCheck(req, rules[j]).Pass?
  }

  /** Runs the rules in order and stops at the first that fails. */
  function RunRules(req: Request, rules: seq<Rule>): (r: Response)
    ensures r.Accepted() ==> r.warnings == []
    ensures |r.warnings| <= 1
    decreases |rules|
  {
    if rules == [] then Response([], None)
    else
      match RuleCheck(req, rules[0])
      case Fail(e) => Rejection(req, rules[0], e)
      case Pass => RunRules(req, rules[1..])
  }

  /** RunRules accepts exactly when every rule passes, and otherwise reports the first rule that fails. */
  lemma {:induction false} RunRulesFirstFailure(req: Request, rules: seq<Rule>)
    ensures RunRules(req, rules).Accepted() <==> forall i | 0 <= i < |rules| :: RuleCheck(req, rules[i]).Pass?
    ensures RunRules(req, rules).Accepted() ==> RunRules(req, rules).warnings == []
    ensures !RunRules(req, rules).Accepted() ==> exists i | 0 <= i < |rules| ::
      FirstFailingRule(req, rules, i) && RunRules(req, rules) == Rejection(req, rules[i], RuleCheck(req, rules[i]).error)
    decreases |rules|
  {
    if rules != [] {
      match RuleCheck(req, rules[0])
      case Fail(e) =>
        assert FirstFailingRule(req, rules, 0);
      case Pass =>
        RunRulesFirstFailure(req, rules[1..]);
        assert forall i | 1 <= i < |rules| :: rules[i] == rules[1..][i - 1];
        if !RunRules(req, rules).Accepted() {
          var k :| 0 <= k < |rules[1..]| && FirstFailingRule(req, rules[1..], k)
            && RunRules(req, rules[1..]) == Rejection(req, rules[1..][k], RuleCheck(req, rules[1..][k]).error);
          assert FirstFailingRule(req, rules, k + 1);
        }
    }
  }

  /** The checks ValidateCreate runs, in order, after resolving the template. */
  const CreateRules: seq<Rule> :=
    [TemplateValidityRule, K8sCompatibilityRule, CredentialRule, CrossNamespaceRule, ServiceTemplatesRule]

  /** The checks ValidateUpdate always runs. */
  const RecheckedRules: seq<Rule> := [CredentialRule, CrossNamespaceRule, ServiceTemplatesRule]

  /** The checks ValidateUpdate runs, in order, after resolving the new template. */
  function UpdateRules(templateChanged: bool): seq<Rule>
  {
    if templateChanged then [UpgradePathRule, TemplateValidityRule, K8sCompatibilityRule] + RecheckedRules
    else RecheckedRules
  }

  /** One early return of the entry points: a failing check decides, a passing one hands over to `next`. */
  function ThenCheck(req: Request, rule: Rule, next: Response): Response
  {
    match RuleCheck(req, rule)
    case Fail(e) => Rejection(req, rule, e)
    case Pass => next
  }

  /** The checks both entry points end with: the credential, then the two service checks. */
  function RecheckedChecks(req: Request): Response
  {
    ThenCheck(req, CredentialRule,
      ThenCheck(req, CrossNamespaceRule,
        ThenCheck(req, ServiceTemplatesRule, Response([], None))))
  }

  /** The checks of a newly chosen template, followed by the rechecked ones. */
  function TemplateChecks(req: Request): Response
  {
    ThenCheck(req, TemplateValidityRule,
      ThenCheck(req, K8sCompatibilityRule, RecheckedChecks(req)))
  }

  /** The early returns of ValidateCreate and ValidateUpdate run exactly their rule lists. */
  lemma ChecksRunRules(req: Request)
    ensures RecheckedChecks(req) == RunRules(req, RecheckedRules)
    ensures TemplateChecks(req) == RunRules(req, CreateRules)
    ensures ThenCheck(req, UpgradePathRule, TemplateChecks(req)) == RunRules(req, UpdateRules(true))
  {
    assert RecheckedRules[1..][1..][1..] == [];
    assert CreateRules[1..][1..] == RecheckedRules;
    assert UpdateRules(true)[1..] == CreateRules;
  }

  function TemplateLookupRejection(e: StoreError): Response
  {
    Response([], Some(InvalidClusterDeployment(StoreFailure(e))))
  }

  /** Warnings come only with a compatibility failure or a forbidden upgrade. */
  predicate WarningsOnlyWithCompatOrUpgrade(r: Response, from: string, to: string)
  {
    && (r.warnings == []
        || (r.warnings == [K8sCompatibilityWarning] && r.err.Some? && r.err.value.K8sCompatibilityFailed?)
        || (r.warnings == [UpgradeSequenceNotAllowed(from, to)] && r.err == Some(UpgradeForbidden)))
    && (r.err.Some? && r.err.value.K8sCompatibilityFailed? ==> r.warnings == [K8sCompatibilityWarning])
  }

  /** The decision of ValidateCreate on a ClusterDeployment. */
  function CreateDecision(v: Validator, snap: Snapshot, cd: ClusterDeployment): (r: Response)
    ensures WarningsOnlyWithCompatOrUpgrade(r, "", cd.spec.template)
    ensures r.err != Some(UpgradeForbidden)
    ensures r.Accepted() <==>
      var key := ObjectKey(cd.namespace, cd.spec.template);
      && key in snap.clusterTemplates
      && forall i | 0 <= i < |CreateRules| ::
           RuleCheck(Request(v, snap, None, cd, snap.clusterTemplates[key]), CreateRules[i]).Pass?
    ensures
      var key := ObjectKey(cd.namespace, cd.spec.template);
      key !in snap.clusterTemplates ==> r == TemplateLookupRejection(NotFound(ClusterTemplateResource, key))
    ensures
      var key := ObjectKey(cd.namespace, cd.spec.template);
      key in snap.clusterTemplates ==> r == RunRules(Request(v, snap, None, cd, snap.clusterTemplates[key]), CreateRules)
  {
    match GetClusterDeploymentTemplate(snap, cd.namespace, cd.spec.template)
    case Missing(e) => TemplateLookupRejection(e)
    case Found(t) =>
      var req := Request(v, snap, None, cd, t);
      ChecksRunRules(req);
      RunRulesFirstFailure(req, CreateRules);
      TemplateChecks(req)
  }

  /** The decision of ValidateUpdate on a change from `oldCd` to `newCd`. */
  function UpdateDecision(v: Validator, snap: Snapshot, oldCd: ClusterDeployment, newCd: ClusterDeployment): (r: Response)
    ensures WarningsOnlyWithCompatOrUpgrade(r, oldCd.spec.template, newCd.spec.template)
    ensures r.Accepted() <==>
      var key := ObjectKey(newCd.namespace, newCd.spec.template);
      var rules := UpdateRules(oldCd.spec.template != newCd.spec.template);
      && key in snap.clusterTemplates
      && forall i | 0 <= i < |rules| ::
           RuleCheck(Request(v, snap, Some(oldCd), newCd, snap.clusterTemplates[key]), rules[i]).Pass?
    ensures
      var key := ObjectKey(newCd.namespace, newCd.spec.template);
      key !in snap.clusterTemplates ==> r == TemplateLookupRejection(NotFound(ClusterTemplateResource, key))
    ensures
      var key := ObjectKey(newCd.namespace, newCd.spec.template);
      key in snap.clusterTemplates ==>
        r == RunRules(Request(v, snap, Some(oldCd), newCd, snap.clusterTemplates[key]),
                      UpdateRules(oldCd.spec.template != newCd.spec.template))
  {
    match GetClusterDeploymentTemplate(snap, newCd.namespace, newCd.spec.template)
    case Missing(e) => TemplateLookupRejection(e)
    case Found(t) =>
      var req := Request(v, snap, Some(oldCd), newCd, t);
      var changed := oldCd.spec.template != newCd.spec.template;
      ChecksRunRules(req);
      RunRulesFirstFailure(req, UpdateRules(changed));
      if changed then ThenCheck(req, UpgradePathRule, TemplateChecks(req))
      else RecheckedChecks(req)
  }

  // ---------------------------------------------------------------------------
  // Defaulting

  /** The outcome of the defaulter: an optional error and the deployment after it. */
  datatype Defaulted = Defaulted(err: Option<Error>, deployment: ClusterDeployment)

  /**
   * The deployment with the template's default configuration filled in:
   * DryRun forced on and Config set to the template's, everything else kept.
   */
  predicate DefaultsApplied(snap: Snapshot, cd: ClusterDeployment, out: ClusterDeployment)
  {
    var key := ObjectKey(cd.namespace, cd.spec.template);
    && cd.spec.config.None?
    && cd.spec.template != ""
    && key in snap.clusterTemplates
    && snap.clusterTemplates[key].status.valid
    && snap.clusterTemplates[key].status.config.Some?
    && out == cd.(spec := cd.spec.(dryRun := true, config := snap.clusterTemplates[key].status.config))
  }

  /** Default: fills in the template's configuration when the user gave none. */
  function Defaulting(snap: Snapshot, cd: ClusterDeployment): (r: Defaulted)
    ensures cd.spec.config.Some? || cd.spec.template == "" ==> r == Defaulted(None, cd)
    ensures r.deployment == cd || (r.err.None? && DefaultsApplied(snap, cd, r.deployment))
    ensures r.err.Some? ==> r.deployment == cd
    ensures
      var key := ObjectKey(cd.namespace, cd.spec.template);
      cd.spec.config.None? && cd.spec.template != "" && key in snap.clusterTemplates
      && !snap.clusterTemplates[key].status.valid ==>
        r == Defaulted(Some(DefaultTemplateInvalid(TemplateNotValid(snap.clusterTemplates[key].status.validationError))), cd)
    ensures
      var key := ObjectKey(cd.namespace, cd.spec.template);
      cd.spec.config.None? && cd.spec.template != "" && key !in snap.clusterTemplates ==>
        r == Defaulted(Some(DefaultTemplateUnavailable(NotFound(ClusterTemplateResource, key))), cd)
    ensures
      var key := ObjectKey(cd.namespace, cd.spec.template);
      cd.spec.config.None? && cd.spec.template != "" && key in snap.clusterTemplates
      && snap.clusterTemplates[key].status.valid && snap.clusterTemplates[key].status.config.None? ==>
        r == Defaulted(None, cd)
    ensures
      var key := ObjectKey(cd.namespace, cd.spec.template);
      cd.spec.config.None? && cd.spec.template != "" && key in snap.clusterTemplates
      && snap.clusterTemplates[key].status.valid && snap.clusterTemplates[key].status.config.Some? ==>
        r == Defaulted(None, cd.(spec := cd.spec.(dryRun := true, config := snap.clusterTemplates[key].status.config)))
  {
    if cd.spec.config.Some? || cd.spec.template == "" then Defaulted(None, cd)
    else
      match GetClusterDeploymentTemplate(snap, cd.namespace, cd.spec.template)
      case Missing(e) => Defaulted(Some(DefaultTemplateUnavailable(e)), cd)
      case Found(t) =>
        match TemplateValidity(t.status)
        case Fail(e) => Defaulted(Some(DefaultTemplateInvalid(e)), cd)
        case Pass =>
          match t.status.config
          case None => Defaulted(None, cd)
          case Some(config) => Defaulted(None, cd.(spec := cd.spec.(dryRun := true, config := Some(Json(config.raw)))))
  }
}
