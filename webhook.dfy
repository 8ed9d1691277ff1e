/**
 * The ClusterDeployment webhook's entry points and the checks with loops,
 * written as the webhook executes them: early returns, scans that stop at
 * the first failure, and the defaulter that writes into the object it is
 * given. Each is proved to compute the decision its function in module
 * Admission describes.
 */
module ClusterDeploymentWebhook {
  import opened KcmApi
  import opened Store
  import opened Collaborators
  import opened Admission

  /** validateK8sCompatibility */
  method ValidateK8sCompatibility(sv: Semver, snap: Snapshot, t: ClusterTemplate, cd: ClusterDeployment) returns (r: Check)
    ensures r == K8sCompatibility(sv, snap, t, cd)
  {
    var services := cd.spec.services;
    var version := t.status.kubernetesVersion;
    if |services| == 0 || version == "" {
      return Pass;  // nothing to do
    }
    if !sv.isVersion(version) {
      return Fail(K8sVersionUnparsable(version, cd.Key()));
    }
    for i := 0 to |services|
      invariant forall j | 0 <= j < i :: ServiceCompatibility(sv, snap, cd, version, services[j]).Pass?
    {
      var svc := services[i];
      if svc.disable {
        continue;
      }
      var key := ObjectKey(cd.namespace, svc.template);
      var fetched := GetServiceTemplate(snap, cd.namespace, svc.template);
      if fetched.Missing? {
        r := Fail(ServiceTemplateUnavailable(key, fetched.error));
        ServicesCompatibilityStopsAtFirstFailure(sv, snap, cd, version, services, i);
        return;
      }
      var constraint := fetched.obj.kubernetesConstraint;
      if constraint == "" {
        continue;
      }
      if !sv.isConstraint(constraint) {
        r := Fail(ConstraintUnparsable(constraint, key));
        ServicesCompatibilityStopsAtFirstFailure(sv, snap, cd, version, services, i);
        return;
      }
      if !sv.satisfies(constraint, version) {
        r := Fail(ConstraintUnsatisfied(version, cd.Key(), constraint, key));
        ServicesCompatibilityStopsAtFirstFailure(sv, snap, cd, version, services, i);
        return;
      }
    }
    return Pass;
  }

  /** isCredMatchTemplate */
  method IsCredMatchTemplate(cat: ProviderCatalog, cred: Credential, t: ClusterTemplate) returns (r: Check)
    ensures r == CredentialMatchesTemplate(cat, cred, t)
  {
    var kind := cred.identityKind;
    var providers := t.status.providers;
    for i := 0 to |providers|
      invariant forall j | 0 <= j < i :: ProviderIdentityCheck(cat, kind, providers[j]).Pass?
    {
      var provider := providers[i];
      if !HasPrefix(provider, cat.infraPrefix) {
        continue;
      }
      var name := TrimPrefix(provider, cat.infraPrefix);
      if name == InternalProvider {
        if kind != SecretKind {
          r := Fail(WrongIdentityKind(kind, name));
          ProvidersAcceptIdentityStopsAtFirstFailure(cat, kind, providers, i);
          return;
        }
        continue;
      }
      var kinds := cat.GetClusterIdentityKinds(name);
      if kinds.None? {
        r := Fail(UnsupportedProvider(name));
        ProvidersAcceptIdentityStopsAtFirstFailure(cat, kind, providers, i);
        return;
      }
      if kind !in kinds.value {
        r := Fail(WrongIdentityKind(kind, name));
        ProvidersAcceptIdentityStopsAtFirstFailure(cat, kind, providers, i);
        return;
      }
    }
    return Pass;
  }

  /** validateCredential */
  method ValidateCredential(cat: ProviderCatalog, snap: Snapshot, cd: ClusterDeployment, t: ClusterTemplate) returns (r: Check)
    ensures r == CredentialMatch(cat, snap, cd, t)
  {
    var providers := t.status.providers;
    if |providers| == 0 {
      return Fail(NoProviders(t.name));
    }
    var hasInfra := false;
    for i := 0 to |providers|
      invariant !hasInfra
      invariant forall j | 0 <= j < i :: !IsInfraProvider(cat, providers[j])
    {
      if HasPrefix(providers[i], cat.infraPrefix) {
        hasInfra := true;
        break;
      }
    }
    if !hasInfra {
      return Fail(NoInfrastructureProviders(t.name));
    }
    var fetched := GetClusterDeploymentCredential(snap, cd.namespace, cd.spec.credential);
    if fetched.Missing? {
      return Fail(StoreFailure(fetched.error));
    }
    var cred := fetched.obj;
    if !cred.ready {
      return Fail(CredentialNotReady);
    }
    r := IsCredMatchTemplate(cat, cred, t);
  }

  /** ValidateCreate */
  method ValidateCreate(v: Validator, snap: Snapshot, obj: RuntimeObject) returns (warnings: seq<Warning>, err: Option<Error>)
    ensures obj.OtherObject? ==> warnings == [] && err == Some(BadRequest(obj.kind))
    ensures obj.ClusterDeploymentObj? ==> Response(warnings, err) == CreateDecision(v, snap, obj.cd.View())
  {
    if obj.OtherObject? {
      return [], Some(BadRequest(obj.kind));
    }
    var cd := obj.cd.View();
    var fetched := GetClusterDeploymentTemplate(snap, cd.namespace, cd.spec.template);
    if fetched.Missing? {
      return [], Some(InvalidClusterDeployment(StoreFailure(fetched.error)));
    }
    var template := fetched.obj;
    var check := TemplateValidity(template.status);
    if check.Fail? {
      return [], Some(InvalidClusterDeployment(check.error));
    }
    check := ValidateK8sCompatibility(v.semver, snap, template, cd);
    if check.Fail? {
      return [K8sCompatibilityWarning], Some(K8sCompatibilityFailed(check.error));
    }
    check := ValidateCredential(v.providers, snap, cd, template);
    if check.Fail? {
      return [], Some(InvalidClusterDeployment(check.error));
    }
    var reason := v.validation.crossNamespaceServicesRefs(cd);
    if reason.Some? {
      return [], Some(InvalidClusterDeployment(CrossNamespaceRefsRejected(reason.value)));
    }
    reason := v.validation.servicesHaveValidTemplates(snap.serviceTemplates, cd.spec.services, cd.namespace);
    if reason.Some? {
      return [], Some(InvalidClusterDeployment(ServiceTemplatesRejected(reason.value)));
    }
    return [], None;
  }

  /** ValidateUpdate */
  method ValidateUpdate(v: Validator, snap: Snapshot, oldObj: RuntimeObject, newObj: RuntimeObject)
    returns (warnings: seq<Warning>, err: Option<Error>)
    ensures oldObj.OtherObject? ==> warnings == [] && err == Some(BadRequest(oldObj.kind))
    ensures oldObj.ClusterDeploymentObj? && newObj.OtherObject? ==>
      warnings == [] && err == Some(BadRequest(newObj.kind))
    ensures oldObj.ClusterDeploymentObj? && newObj.ClusterDeploymentObj? ==>
      Response(warnings, err) == UpdateDecision(v, snap, oldObj.cd.View(), newObj.cd.View())
  {
    if oldObj.OtherObject? {
      return [], Some(BadRequest(oldObj.kind));
    }
    if newObj.OtherObject? {
      return [], Some(BadRequest(newObj.kind));
    }
    var oldCd := oldObj.cd.View();
    var newCd := newObj.cd.View();
    var oldTemplate := oldCd.spec.template;
    var newTemplate := newCd.spec.template;
    var fetched := GetClusterDeploymentTemplate(snap, newCd.namespace, newTemplate);
    if fetched.Missing? {
      return [], Some(InvalidClusterDeployment(StoreFailure(fetched.error)));
    }
    var template := fetched.obj;
    var check: Check;
    if oldTemplate != newTemplate {
      if v.validateClusterUpgradePath && newTemplate !in oldCd.status.availableUpgrades {
        return [UpgradeSequenceNotAllowed(oldTemplate, newTemplate)], Some(UpgradeForbidden);
      }
      check := TemplateValidity(template.status);
      if check.Fail? {
        return [], Some(InvalidClusterDeployment(check.error));
      }
      check := ValidateK8sCompatibility(v.semver, snap, template, newCd);
      if check.Fail? {
        return [K8sCompatibilityWarning], Some(K8sCompatibilityFailed(check.error));
      }
    }
    check := ValidateCredential(v.providers, snap, newCd, template);
    if check.Fail? {
      return [], Some(InvalidClusterDeployment(check.error));
    }
    var reason := v.validation.crossNamespaceServicesRefs(newCd);
    if reason.Some? {
      return [], Some(InvalidClusterDeployment(CrossNamespaceRefsRejected(reason.value)));
    }
    reason := v.validation.servicesHaveValidTemplates(snap.serviceTemplates, newCd.spec.services, newCd.namespace);
    if reason.Some? {
      return [], Some(InvalidClusterDeployment(ServiceTemplatesRejected(reason.value)));
    }
    return [], None;
  }

  /** ValidateDelete: deletion is always admitted. */
  method ValidateDelete(obj: RuntimeObject) returns (warnings: seq<Warning>, err: Option<Error>)
    ensures warnings == [] && err == None
  {
    return [], None;
  }

  /**
   * Default: when the deployment carries no configuration and names a
   * template, copies the template's default configuration into it and turns
   * dry-run on. Only the deployment's spec is written.
   */
  method Default(snap: Snapshot, obj: RuntimeObject) returns (err: Option<Error>)
    modifies obj.Footprint()
    ensures obj.OtherObject? ==> err == Some(BadRequest(obj.kind))
    ensures obj.ClusterDeploymentObj? ==> Defaulted(err, obj.cd.View()) == Defaulting(snap, old(obj.cd.View()))
  {
    if obj.OtherObject? {
      return Some(BadRequest(obj.kind));
    }
    var cd := obj.cd;
    // Only apply defaults when there is no configuration and a template is named.
    if cd.spec.config.Some? || cd.spec.template == "" {
      return None;
    }
    var fetched := GetClusterDeploymentTemplate(snap, cd.namespace, cd.spec.template);
    if fetched.Missing? {
      return Some(DefaultTemplateUnavailable(fetched.error));
    }
    var template := fetched.obj;
    var check := TemplateValidity(template.status);
    if check.Fail? {
      return Some(DefaultTemplateInvalid(check.error));
    }
    if template.status.config.None? {
      return None;
    }
    cd.spec := cd.spec.(dryRun := true);
    cd.spec := cd.spec.(config := Some(Json(template.status.config.value.raw)));
    return None;
  }
}
