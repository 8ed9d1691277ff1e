/**
 * Properties of the ClusterDeployment admission decisions and of the
 * defaulter: the order in which checks reject, what each check reads, and
 * end-to-end scenarios.
 */
module AdmissionProperties {
  import opened KcmApi
  import opened Store
  import opened Collaborators
  import opened Admission

  // ---------------------------------------------------------------------------
  // Template validity on create and update

  /**
   * A found template whose Valid flag is false makes ValidateCreate reject
   * with the template's validation error and no warnings, whatever the
   * services, credential and references are.
   */
  lemma InvalidTemplateRejectsCreate(v: Validator, snap: Snapshot, cd: ClusterDeployment)
    requires ObjectKey(cd.namespace, cd.spec.template) in snap.clusterTemplates
    requires !snap.clusterTemplates[ObjectKey(cd.namespace, cd.spec.template)].status.valid
    ensures CreateDecision(v, snap, cd) ==
      Response([], Some(InvalidClusterDeployment(TemplateNotValid(
        snap.clusterTemplates[ObjectKey(cd.namespace, cd.spec.template)].status.validationError))))
  {
    var t := snap.clusterTemplates[ObjectKey(cd.namespace, cd.spec.template)];
    assert RuleCheck(Request(v, snap, None, cd, t), CreateRules[0]).Fail?;
  }

  /**
   * When the template reference changes, upgrade-path enforcement is on and
   * the new template is not among the old deployment's available upgrades,
   * ValidateUpdate rejects with errClusterUpgradeForbidden and the upgrade
   * warning, before the template's validity is looked at.
   */
  lemma ForbiddenUpgradeRejected(v: Validator, snap: Snapshot, oldCd: ClusterDeployment, newCd: ClusterDeployment)
    requires oldCd.spec.template != newCd.spec.template
    requires v.validateClusterUpgradePath
    requires newCd.spec.template !in oldCd.status.availableUpgrades
    requires ObjectKey(newCd.namespace, newCd.spec.template) in snap.clusterTemplates
    ensures UpdateDecision(v, snap, oldCd, newCd) ==
      Response([UpgradeSequenceNotAllowed(oldCd.spec.template, newCd.spec.template)], Some(UpgradeForbidden))
  {
    var t := snap.clusterTemplates[ObjectKey(newCd.namespace, newCd.spec.template)];
    assert RuleCheck(Request(v, snap, Some(oldCd), newCd, t), UpdateRules(true)[0]).Fail?;
  }

  /**
   * When the template reference changes to an allowed upgrade, an invalid
   * new template makes ValidateUpdate reject with its validation error.
   */
  lemma InvalidTemplateRejectsChangedUpdate(v: Validator, snap: Snapshot, oldCd: ClusterDeployment, newCd: ClusterDeployment)
    requires oldCd.spec.template != newCd.spec.template
    requires v.validateClusterUpgradePath ==> newCd.spec.template in oldCd.status.availableUpgrades
    requires ObjectKey(newCd.namespace, newCd.spec.template) in snap.clusterTemplates
    requires !snap.clusterTemplates[ObjectKey(newCd.namespace, newCd.spec.template)].status.valid
    ensures UpdateDecision(v, snap, oldCd, newCd) ==
      Response([], Some(InvalidClusterDeployment(TemplateNotValid(
        snap.clusterTemplates[ObjectKey(newCd.namespace, newCd.spec.template)].status.validationError))))
  {
    var t := snap.clusterTemplates[ObjectKey(newCd.namespace, newCd.spec.template)];
    var req := Request(v, snap, Some(oldCd), newCd, t);
    var rules := UpdateRules(true);
    assert RuleCheck(req, rules[0]).Pass?;
    assert RunRules(req, rules) == RunRules(req, rules[1..]);
    assert RuleCheck(req, rules[1..][0]).Fail?;
  }

  // ---------------------------------------------------------------------------
  // Update with an unchanged template reference

  /** Two requests whose rules agree one by one reach the same decision. */
  lemma {:induction false} RunRulesAgree(req1: Request, req2: Request, rules: seq<Rule>)
    requires req1.previous == req2.previous && req1.cd == req2.cd
    requires forall i | 0 <= i < |rules| :: RuleCheck(req1, rules[i]) == RuleCheck(req2, rules[i])
    ensures RunRules(req1, rules) == RunRules(req2, rules)
    decreases |rules|
  {
    if rules != [] {
      assert RuleCheck(req1, rules[0]) == RuleCheck(req2, rules[0]);
      assert forall i | 0 <= i < |rules[1..]| :: rules[1..][i] == rules[i + 1];
      RunRulesAgree(req1, req2, rules[1..]);
    }
  }

  /**
   * With the template reference unchanged, ValidateUpdate does not look at
   * the template's validity, validation error or Kubernetes version: any
   * other template of the same name and providers in its place gives the
   * same decision. Only the credential, cross-namespace and service-template
   * checks run, in that order.
   */
  lemma UnchangedTemplateSkipsValidityAndCompatibility(
    v: Validator, snap: Snapshot, oldCd: ClusterDeployment, newCd: ClusterDeployment, other: ClusterTemplate)
    requires oldCd.spec.template == newCd.spec.template
    requires ObjectKey(newCd.namespace, newCd.spec.template) in snap.clusterTemplates
    requires other.name == snap.clusterTemplates[ObjectKey(newCd.namespace, newCd.spec.template)].name
    requires other.status.providers == snap.clusterTemplates[ObjectKey(newCd.namespace, newCd.spec.template)].status.providers
    ensures UpdateDecision(v, snap, oldCd, newCd) ==
      RunRules(Request(v, snap, Some(oldCd), newCd, snap.clusterTemplates[ObjectKey(newCd.namespace, newCd.spec.template)]),
               [CredentialRule, CrossNamespaceRule, ServiceTemplatesRule])
    ensures UpdateDecision(v, snap, oldCd, newCd) ==
      UpdateDecision(v, snap.(clusterTemplates := snap.clusterTemplates[ObjectKey(newCd.namespace, newCd.spec.template) := other]),
                     oldCd, newCd)
  {
    var key := ObjectKey(newCd.namespace, newCd.spec.template);
    var snap' := snap.(clusterTemplates := snap.clusterTemplates[key := other]);
    var req := Request(v, snap, Some(oldCd), newCd, snap.clusterTemplates[key]);
    var req' := Request(v, snap', Some(oldCd), newCd, other);
    forall i | 0 <= i < |RecheckedRules|
      ensures RuleCheck(req, RecheckedRules[i]) == RuleCheck(req', RecheckedRules[i])
    {
      assert CredentialMatch(v.providers, snap, newCd, snap.clusterTemplates[key])
          == CredentialMatch(v.providers, snap', newCd, other);
    }
    RunRulesAgree(req, req', RecheckedRules);
  }

  /**
   * ValidateUpdate re-checks validity only when the template reference
   * changes, so an update that keeps an invalid template is admitted once
   * the credential and service checks pass.
   */
  lemma UnchangedInvalidTemplateAdmitted(v: Validator, snap: Snapshot, oldCd: ClusterDeployment, newCd: ClusterDeployment)
    requires oldCd.spec.template == newCd.spec.template
    requires ObjectKey(newCd.namespace, newCd.spec.template) in snap.clusterTemplates
    requires !snap.clusterTemplates[ObjectKey(newCd.namespace, newCd.spec.template)].status.valid
    requires forall i | 0 <= i < |RecheckedRules| ::
      RuleCheck(Request(v, snap, Some(oldCd), newCd, snap.clusterTemplates[ObjectKey(newCd.namespace, newCd.spec.template)]),
                RecheckedRules[i]).Pass?
    ensures UpdateDecision(v, snap, oldCd, newCd).Accepted()
  {
  }

  /**
   * The upgrade-path scenario: with available upgrades ["t2"] and enforcement
   * on, moving to "t3" is forbidden, and moving to "t2" is admitted when
   * every later check passes for it.
   */
  lemma UpgradePathScenario(v: Validator, snap: Snapshot, oldCd: ClusterDeployment, newCd: ClusterDeployment)
    requires v.validateClusterUpgradePath
    requires oldCd.status.availableUpgrades == ["t2"]
    requires oldCd.spec.template != newCd.spec.template
    requires ObjectKey(newCd.namespace, newCd.spec.template) in snap.clusterTemplates
    ensures newCd.spec.template == "t3" ==>
      UpdateDecision(v, snap, oldCd, newCd) == Response([UpgradeSequenceNotAllowed(oldCd.spec.template, "t3")], Some(UpgradeForbidden))
    ensures newCd.spec.template == "t2"
            && (forall rule | rule != UpgradePathRule ::
                  RuleCheck(Request(v, snap, Some(oldCd), newCd,
                                    snap.clusterTemplates[ObjectKey(newCd.namespace, newCd.spec.template)]), rule).Pass?) ==>
      UpdateDecision(v, snap, oldCd, newCd).Accepted()
  {
    if newCd.spec.template == "t3" {
      ForbiddenUpgradeRejected(v, snap, oldCd, newCd);
    }
    if newCd.spec.template == "t2" {
      var req := Request(v, snap, Some(oldCd), newCd, snap.clusterTemplates[ObjectKey(newCd.namespace, newCd.spec.template)]);
      assert RuleCheck(req, UpgradePathRule).Pass?;
    }
  }

  // ---------------------------------------------------------------------------
  // Kubernetes version compatibility

  /** The two snapshots hold the same ServiceTemplate, or none, under the key. */
  predicate SameServiceTemplate(snap1: Snapshot, snap2: Snapshot, key: ObjectKey)
  {
    && (key in snap1.serviceTemplates <==> key in snap2.serviceTemplates)
    && (key in snap1.serviceTemplates ==> snap1.serviceTemplates[key] == snap2.serviceTemplates[key])
  }

  lemma {:induction false} DisabledServicesNotReadScan(
    sv: Semver, snap1: Snapshot, snap2: Snapshot, cd: ClusterDeployment, version: string, services: seq<Service>)
    requires forall i | 0 <= i < |services| && !services[i].disable ::
      SameServiceTemplate(snap1, snap2, ObjectKey(cd.namespace, services[i].template))
    ensures ServicesCompatibility(sv, snap1, cd, version, services) == ServicesCompatibility(sv, snap2, cd, version, services)
    decreases |services|
  {
    if services != [] {
      assert ServiceCompatibility(sv, snap1, cd, version, services[0]) == ServiceCompatibility(sv, snap2, cd, version, services[0]);
      assert forall i | 0 <= i < |services[1..]| :: services[1..][i] == services[i + 1];
      DisabledServicesNotReadScan(sv, snap1, snap2, cd, version, services[1..]);
    }
  }

  /**
   * The compatibility check never reads the ServiceTemplate of a disabled
   * service: two snapshots that agree on the templates of the enabled
   * services give the same verdict.
   */
  lemma DisabledServicesNotRead(sv: Semver, snap1: Snapshot, snap2: Snapshot, t: ClusterTemplate, cd: ClusterDeployment)
    requires forall i | 0 <= i < |cd.spec.services| && !cd.spec.services[i].disable ::
      SameServiceTemplate(snap1, snap2, ObjectKey(cd.namespace, cd.spec.services[i].template))
    ensures K8sCompatibility(sv, snap1, t, cd) == K8sCompatibility(sv, snap2, t, cd)
  {
    DisabledServicesNotReadScan(sv, snap1, snap2, cd, t.status.kubernetesVersion, cd.spec.services);
  }

  /**
   * A constraint rejection always names an enabled service of the deployment
   * whose ServiceTemplate has a non-empty constraint that does not accept the
   * template's Kubernetes version, and every earlier service passed.
   */
  lemma ConstraintRejectionNamesFirstOffendingService(
    sv: Semver, snap: Snapshot, t: ClusterTemplate, cd: ClusterDeployment,
    version: string, deployment: ObjectKey, constraint: string, key: ObjectKey)
    requires K8sCompatibility(sv, snap, t, cd) == Fail(ConstraintUnsatisfied(version, deployment, constraint, key))
    ensures version == t.status.kubernetesVersion && deployment == cd.Key()
    ensures key in snap.serviceTemplates && snap.serviceTemplates[key].kubernetesConstraint == constraint
    ensures constraint != "" && sv.isConstraint(constraint) && !sv.satisfies(constraint, version)
    ensures exists i | 0 <= i < |cd.spec.services| ::
      && !cd.spec.services[i].disable
      && key == ObjectKey(cd.namespace, cd.spec.services[i].template)
      && forall j | 0 <= j < i :: ServiceCompatibility(sv, snap, cd, version, cd.spec.services[j]).Pass?
  {
    var services := cd.spec.services;
    var v := t.status.kubernetesVersion;
    var r := ServicesCompatibility(sv, snap, cd, v, services);
    var i :| 0 <= i < |services|
      && ServiceCompatibility(sv, snap, cd, v, services[i]) == r
      && forall j | 0 <= j < i :: ServiceCompatibility(sv, snap, cd, v, services[j]).Pass?;
    assert !services[i].disable && key == ObjectKey(cd.namespace, services[i].template);
  }

  // ---------------------------------------------------------------------------
  // Credential and provider identity

  /** The providers that carry the infrastructure prefix, in declaration order. */
  function InfraProviders(cat: ProviderCatalog, providers: seq<string>): (r: seq<string>)
    ensures forall i | 0 <= i < |r| :: IsInfraProvider(cat, r[i])
    ensures forall p | p in providers && IsInfraProvider(cat, p) :: p in r
    ensures forall p | p in r :: p in providers
    ensures |r| <= |providers|
    decreases |providers|
  {
    if providers == [] then []
    else if IsInfraProvider(cat, providers[0]) then [providers[0]] + InfraProviders(cat, providers[1..])
    else InfraProviders(cat, providers[1..])
  }

  /** The filter keeps declaration order: filtering a concatenation concatenates the filtered parts. */
  lemma {:induction false} InfraProvidersAppend(cat: ProviderCatalog, a: seq<string>, b: seq<string>)
    ensures InfraProviders(cat, a + b) == InfraProviders(cat, a) + InfraProviders(cat, b)
    decreases |a|
  {
    if a != [] {
      assert (a + b)[0] == a[0] && (a + b)[1..] == a[1..] + b;
      InfraProvidersAppend(cat, a[1..], b);
    } else {
      assert a + b == b;
    }
  }

  /**
   * Providers without the infrastructure prefix are ignored by
   * isCredMatchTemplate: dropping them changes nothing, not even which
   * error is reported.
   */
  lemma {:induction false} NonInfraProvidersIgnored(cat: ProviderCatalog, kind: string, providers: seq<string>)
    ensures ProvidersAcceptIdentity(cat, kind, providers) == ProvidersAcceptIdentity(cat, kind, InfraProviders(cat, providers))
    decreases |providers|
  {
    if providers != [] {
      NonInfraProvidersIgnored(cat, kind, providers[1..]);
      var rest := providers[1..];
      if IsInfraProvider(cat, providers[0]) {
        var filtered := [providers[0]] + InfraProviders(cat, rest);
        assert filtered[0] == providers[0] && filtered[1..] == InfraProviders(cat, rest);
        match ProviderIdentityCheck(cat, kind, providers[0])
        case Fail(e) =>
          ProvidersAcceptIdentityStopsAtFirstFailure(cat, kind, providers, 0);
          ProvidersAcceptIdentityStopsAtFirstFailure(cat, kind, filtered, 0);
        case Pass =>
      } else {
        assert ProviderIdentityCheck(cat, kind, providers[0]) == Pass;
      }
    }
  }

  /**
   * The credential scenario: a Secret credential matches a template whose
   * only infrastructure provider is the internal one, and is rejected,
   * naming the provider, by a template whose cloud provider's catalog entry
   * does not list Secret.
   */
  lemma SecretCredentialScenario(cat: ProviderCatalog, cred: Credential, t: ClusterTemplate, cloud: string)
    requires cred.identityKind == SecretKind
    requires cloud != InternalProvider && cloud in cat.clusterIdentityKinds && SecretKind !in cat.clusterIdentityKinds[cloud]
    ensures t.status.providers == [cat.infraPrefix + InternalProvider] ==> CredentialMatchesTemplate(cat, cred, t) == Pass
    ensures t.status.providers == [cat.infraPrefix + cloud] ==>
      CredentialMatchesTemplate(cat, cred, t) == Fail(WrongIdentityKind(SecretKind, cloud))
  {
    var p := t.status.providers;
    if p == [cat.infraPrefix + InternalProvider] || p == [cat.infraPrefix + cloud] {
      assert p[0][..|cat.infraPrefix|] == cat.infraPrefix;
      assert p[1..] == [];
    }
  }

  /**
   * validateCredential decides "no providers" and "no infrastructure
   * provider" from the template alone: in those cases the verdict is the
   * same for every store snapshot, so the credential is not read.
   */
  lemma ProviderChecksPrecedeCredentialRead(cat: ProviderCatalog, snap1: Snapshot, snap2: Snapshot, cd: ClusterDeployment, t: ClusterTemplate)
    requires !HasInfraProvider(cat, t.status.providers)
    ensures CredentialMatch(cat, snap1, cd, t) == CredentialMatch(cat, snap2, cd, t)
    ensures CredentialMatch(cat, snap1, cd, t).Fail?
  {
  }

  // ---------------------------------------------------------------------------
  // End-to-end creation

  /**
   * The creation scenario: a valid template with Kubernetes version v and one
   * cloud infrastructure provider, a Ready credential of a kind the provider
   * accepts, and one enabled service whose constraint c is checked. The
   * deployment is admitted when c accepts v, and otherwise rejected with a
   * compatibility error naming the service template, c and v.
   */
  lemma CreateScenario(
    v: Validator, cd: ClusterDeployment, t: ClusterTemplate, cred: Credential, svcTemplate: ServiceTemplate, cloud: string)
    requires t.status.valid && t.status.kubernetesVersion != "" && v.semver.isVersion(t.status.kubernetesVersion)
    requires t.status.providers == [v.providers.infraPrefix + cloud] && cloud != InternalProvider
    requires cloud in v.providers.clusterIdentityKinds && cred.identityKind in v.providers.clusterIdentityKinds[cloud]
    requires cred.ready
    requires |cd.spec.services| == 1 && !cd.spec.services[0].disable
    requires svcTemplate.kubernetesConstraint != "" && v.semver.isConstraint(svcTemplate.kubernetesConstraint)
    requires v.validation.crossNamespaceServicesRefs(cd).None?
    requires v.validation.servicesHaveValidTemplates(
      map[ObjectKey(cd.namespace, cd.spec.services[0].template) := svcTemplate], cd.spec.services, cd.namespace).None?
    ensures
      var snap := Snapshot(
        map[ObjectKey(cd.namespace, cd.spec.template) := t],
        map[ObjectKey(cd.namespace, cd.spec.services[0].template) := svcTemplate],
        map[ObjectKey(cd.namespace, cd.spec.credential) := cred]);
      && (v.semver.satisfies(svcTemplate.kubernetesConstraint, t.status.kubernetesVersion) ==>
            CreateDecision(v, snap, cd) == Response([], None))
      && (!v.semver.satisfies(svcTemplate.kubernetesConstraint, t.status.kubernetesVersion) ==>
            CreateDecision(v, snap, cd) ==
              Response([K8sCompatibilityWarning],
                       Some(K8sCompatibilityFailed(ConstraintUnsatisfied(
                         t.status.kubernetesVersion, cd.Key(), svcTemplate.kubernetesConstraint,
                         ObjectKey(cd.namespace, cd.spec.services[0].template))))))
  {
    var snap := Snapshot(
      map[ObjectKey(cd.namespace, cd.spec.template) := t],
      map[ObjectKey(cd.namespace, cd.spec.services[0].template) := svcTemplate],
      map[ObjectKey(cd.namespace, cd.spec.credential) := cred]);
    var req := Request(v, snap, None, cd, t);
    var p := t.status.providers;
    assert p[0][..|v.providers.infraPrefix|] == v.providers.infraPrefix;
    assert IsInfraProvider(v.providers, p[0]);
    assert InfraProviderName(v.providers, p[0]) == cloud;
    assert p[1..] == [];
    assert HasInfraProvider(v.providers, p);
    assert RuleCheck(req, CredentialRule).Pass?;
    assert RuleCheck(req, TemplateValidityRule).Pass?;
    if v.semver.satisfies(svcTemplate.kubernetesConstraint, t.status.kubernetesVersion) {
      assert RuleCheck(req, K8sCompatibilityRule).Pass?;
      assert forall i | 0 <= i < |CreateRules| :: RuleCheck(req, CreateRules[i]).Pass?;
    } else {
      assert RuleCheck(req, K8sCompatibilityRule).Fail?;
      assert cd.spec.services[1..] == [];
    }
  }

  // ---------------------------------------------------------------------------
  // Defaulting

  /**
   * Default is idempotent: applying it to its own output gives the same
   * outcome, error included.
   */
  lemma DefaultingIdempotent(snap: Snapshot, cd: ClusterDeployment)
    ensures Defaulting(snap, Defaulting(snap, cd).deployment) == Defaulting(snap, cd)
  {
  }

  /**
   * A defaulted deployment is one that had no configuration and named a
   * valid template with a default configuration; it now runs in dry-run
   * mode with exactly that configuration.
   */
  lemma DefaultedDeploymentIsDryRun(snap: Snapshot, cd: ClusterDeployment)
    requires Defaulting(snap, cd).deployment != cd
    ensures
      var key := ObjectKey(cd.namespace, cd.spec.template);
      var out := Defaulting(snap, cd).deployment;
      && cd.spec.config.None? && key in snap.clusterTemplates && snap.clusterTemplates[key].status.valid
      && out.spec.dryRun && out.spec.config == snap.clusterTemplates[key].status.config && out.spec.config.Some?
      && out.spec.template == cd.spec.template && out.spec.credential == cd.spec.credential
      && out.spec.services == cd.spec.services && out.status == cd.status && out.Key() == cd.Key()
  {
  }
}
