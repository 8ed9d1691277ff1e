# ClusterDeployment admission webhook of kcm, in Dafny

This project models the admission webhook that kcm registers for
`ClusterDeployment` objects (`internal/webhook/clusterdeployment_webhook.go`),
and proves properties of the model.

- **Validating entry points.** `ValidateCreate` resolves the deployment's
  ClusterTemplate. It then runs these checks in a fixed order and returns at
  the first one that fails:
  1. the template's `Valid` flag;
  2. Kubernetes version compatibility with the enabled services'
     ServiceTemplates;
  3. the credential: it exists, it is Ready, and its identity kind suits
     every infrastructure provider of the template;
  4. the cross-namespace reference policy;
  5. the service-template existence check.

  `ValidateUpdate` runs the upgrade-path check, the validity check and the
  compatibility check only when the template reference changes. It always
  runs the credential check and the two service checks. `ValidateDelete`
  admits everything.
- **Defaulter.** `Default` fills a deployment that has no configuration with
  its template's default configuration. It also turns dry-run on. It writes
  into the object it is given.
- **Store reads.** The webhook's lookups of ClusterTemplates,
  ServiceTemplates and Credentials read a `Snapshot` of the store. A missing
  object is a `NotFound` error.

Layout:

- `kcm_api.dfy` holds the API objects. A deployment is a value, plus a
  `ClusterDeploymentObject` class for the pointer that the defaulter
  mutates.
- `store.dfy` holds the snapshot and its lookups.
- `collaborators.dfy` holds the code the webhook calls but which is not
  part of this model. Each piece is a parameter:
  - the semantic-version library;
  - the provider identity catalog;
  - the validation package's two checks.
- `admission.dfy` holds each check and each decision as a function. It
  also holds the rule list that the decisions are proved to follow.
- `webhook.dfy` holds the entry points and the looping checks as methods,
  in the code's own shape: `for` loops, `continue`, `break` and early
  returns. Each method is proved to compute its function in `Admission`.
- `admission_properties.dfy` holds lemmas about the decisions.

`ValidateUpdate` re-checks validity only when the template reference
changes, so an update that keeps an invalid template is admitted once the
credential and service checks pass
(`AdmissionProperties.UnchangedInvalidTemplateAdmitted`).

## Model

| member | source | states |
|---|---|---|
| Store.GetClusterDeploymentTemplate | internal/webhook/clusterdeployment_webhook.go:222-225 | the template is found exactly when the deployment's namespace holds a ClusterTemplate of that name; the result is that object, otherwise a NotFound error for that key |
| Store.GetClusterDeploymentCredential | internal/webhook/clusterdeployment_webhook.go:227-237 | the credential is found exactly when its key is in the store; the result is that object, otherwise NotFound for that key |
| Store.GetServiceTemplate | internal/webhook/clusterdeployment_webhook.go:160-163 | a service's ServiceTemplate is read in the deployment's namespace; found iff present, otherwise NotFound for that key |
| Collaborators.TrimPrefix | internal/webhook/clusterdeployment_webhook.go:289 | with the prefix present, prefix + result is the input; without it, the input is returned unchanged |
| Collaborators.ProviderCatalog.GetClusterIdentityKinds | internal/webhook/clusterdeployment_webhook.go:297-300 | a provider is known exactly when the catalog has an entry for it, and then its kinds are that entry |
| Admission.TemplateValidity | internal/webhook/clusterdeployment_webhook.go:239-245 | passes iff the Valid flag is set; a failure carries the template's validation error |
| Admission.ServiceCompatibility | internal/webhook/clusterdeployment_webhook.go:155-179 | one service passes iff it is disabled, or its ServiceTemplate exists and its constraint is empty, or it parses and accepts the version; an enabled service with no template fails with that template's NotFound, a non-empty constraint that does not parse fails as unparsable, and a parsable one that rejects the version fails as unsatisfied |
| Admission.ServicesCompatibility | internal/webhook/clusterdeployment_webhook.go:155-182 | passes iff every service passes; a failure is the verdict of a service all of whose predecessors passed |
| Admission.ServicesCompatibilityStopsAtFirstFailure | internal/webhook/clusterdeployment_webhook.go:155-180 | when service i is the first to fail, the scan reports exactly its failure |
| Admission.K8sCompatibility | internal/webhook/clusterdeployment_webhook.go:145-183 | passes when there are no services or no version; otherwise passes iff the version parses and every service passes; an unparsable version is reported with the deployment's key; with a parsable version the verdict is the in-order scan of the services |
| Admission.HasInfraProvider | internal/webhook/clusterdeployment_webhook.go:252-258 | true iff some declared provider carries the infrastructure prefix |
| Admission.ProviderIdentityCheck | internal/webhook/clusterdeployment_webhook.go:286-304 | a provider passes iff it is not an infrastructure provider or it accepts the identity kind (internal needs Secret, others what the catalog lists); the failure is "unsupported provider" exactly for an infrastructure provider that is neither internal nor in the catalog, and any other failure is a wrong kind naming the trimmed provider |
| Admission.ProvidersAcceptIdentity | internal/webhook/clusterdeployment_webhook.go:285-307 | passes iff every provider passes; a failure is the verdict of the first failing provider |
| Admission.ProvidersAcceptIdentityStopsAtFirstFailure | internal/webhook/clusterdeployment_webhook.go:285-305 | when provider i is the first to fail, the scan reports exactly its failure |
| Admission.CredentialMatchesTemplate | internal/webhook/clusterdeployment_webhook.go:276-308 | passes iff every infrastructure provider of the template accepts the credential's identity kind; a failure is the verdict of the first failing provider ("unsupported" for an uncatalogued one, otherwise a wrong kind naming it) |
| Admission.CredentialMatch | internal/webhook/clusterdeployment_webhook.go:247-274 | no providers, then no infrastructure provider, then a missing credential, then a credential that is not Ready are rejected in that order; passes iff an infrastructure provider exists and the credential exists, is Ready and matches every infrastructure provider; for a found, Ready credential the verdict is exactly that of CredentialMatchesTemplate |
| Collaborators.HasPrefix | internal/webhook/clusterdeployment_webhook.go:254 | s starts with prefix: the prefix is no longer than s and agrees with it character by character (`strings.HasPrefix`, also used at line 286) |
| Admission.RuleCheck | internal/webhook/clusterdeployment_webhook.go:115-139 | the upgrade-path rule fails, with errClusterUpgradeForbidden, exactly when enforcement is on and the new template is not among the old deployment's available upgrades; the cross-namespace and service-template rules fail exactly when the validation package returns a reason, and carry it; only the upgrade-path rule yields errClusterUpgradeForbidden |
| Admission.Rejection | internal/webhook/clusterdeployment_webhook.go:71-126 | a failing rule is always a rejection: the upgrade path returns its error unwrapped with the "can't be upgraded" warning, compatibility wraps its error with the compatibility warning, and every other rule wraps it as an invalid ClusterDeployment with no warnings |
| Admission.RunRules | internal/webhook/clusterdeployment_webhook.go:74-94 | the fail-fast chain: acceptance carries no warnings, and any response carries at most one warning |
| Admission.RunRulesFirstFailure | internal/webhook/clusterdeployment_webhook.go:75-94 | running a rule list accepts iff every rule passes, with no warnings; a rejection is the report of the first failing rule |
| Admission.ChecksRunRules | internal/webhook/clusterdeployment_webhook.go:75-143 | the early-return chains of create, of update with a changed template and of update with an unchanged one run exactly the listed rules in the listed order |
| Admission.CreateDecision | internal/webhook/clusterdeployment_webhook.go:63-95 | a missing template is rejected with its NotFound wrapped as an invalid ClusterDeployment; a found one gives exactly the first failing check of validity, compatibility, credential, cross-namespace references, service templates, in that order; warnings come only with a compatibility failure; create never returns the upgrade error; admitted iff the template exists and all five checks pass |
| Admission.UpdateDecision | internal/webhook/clusterdeployment_webhook.go:98-143 | a missing new template is rejected with its NotFound; a found one gives exactly the first failing check of upgrade path, validity, compatibility (only when the reference changed), then credential, cross-namespace references, service templates; warnings come only with a compatibility failure or a forbidden upgrade; admitted iff every rule run passes |
| Admission.Defaulting | internal/webhook/clusterdeployment_webhook.go:191-220 | a deployment with a config or without a template is left alone; a missing template gives "could not get template" with its NotFound, an invalid one "template is invalid" with its validation error, both leaving the deployment unchanged; a valid template without a config changes nothing; a valid template with a config turns DryRun on and copies that config, everything else kept |
| AdmissionProperties.InvalidTemplateRejectsCreate | internal/webhook/clusterdeployment_webhook.go:74-76 | a found but invalid template makes create reject with its validation error and no warnings, whatever else holds |
| AdmissionProperties.ForbiddenUpgradeRejected | internal/webhook/clusterdeployment_webhook.go:115-119 | a changed template missing from the available upgrades, with enforcement on, is rejected with the upgrade warning and errClusterUpgradeForbidden |
| AdmissionProperties.InvalidTemplateRejectsChangedUpdate | internal/webhook/clusterdeployment_webhook.go:115-124 | an allowed change to an invalid template is rejected with its validation error |
| AdmissionProperties.RunRulesAgree | internal/webhook/clusterdeployment_webhook.go:75-94 | two requests whose rules give the same verdicts one by one reach the same decision |
| AdmissionProperties.UnchangedTemplateSkipsValidityAndCompatibility | internal/webhook/clusterdeployment_webhook.go:115-143 | with an unchanged reference, only the credential and the two service checks run, and the template's validity and version do not affect the decision |
| AdmissionProperties.UnchangedInvalidTemplateAdmitted | internal/webhook/clusterdeployment_webhook.go:115-143 | an update keeping an invalid template is admitted when the remaining checks pass |
| AdmissionProperties.UpgradePathScenario | internal/webhook/clusterdeployment_webhook.go:115-119 | with available upgrades ["t2"], moving to "t3" is forbidden and moving to "t2" is admitted when the other checks pass |
| AdmissionProperties.DisabledServicesNotReadScan | internal/webhook/clusterdeployment_webhook.go:155-158 | the service scan gives the same verdict on two snapshots that agree on the enabled services' templates |
| AdmissionProperties.DisabledServicesNotRead | internal/webhook/clusterdeployment_webhook.go:155-158 | the ServiceTemplate of a disabled service is never read by the compatibility check |
| AdmissionProperties.ConstraintRejectionNamesFirstOffendingService | internal/webhook/clusterdeployment_webhook.go:165-179 | an unsatisfied-constraint error names an enabled service whose template has that non-empty, parsable constraint rejecting the template's version, and every earlier service passed |
| AdmissionProperties.InfraProviders | internal/webhook/clusterdeployment_webhook.go:285-288 | keeps exactly the declared providers carrying the infrastructure prefix, and never lengthens the list |
| AdmissionProperties.InfraProvidersAppend | internal/webhook/clusterdeployment_webhook.go:285-288 | the filter keeps declaration order: filtering a concatenation gives the concatenation of the filtered parts |
| AdmissionProperties.NonInfraProvidersIgnored | internal/webhook/clusterdeployment_webhook.go:285-288 | dropping non-infrastructure providers changes neither the verdict nor the reported error |
| AdmissionProperties.SecretCredentialScenario | internal/webhook/clusterdeployment_webhook.go:290-304 | a Secret credential matches the internal provider and is rejected, naming the provider, by a cloud provider that does not list Secret |
| AdmissionProperties.ProviderChecksPrecedeCredentialRead | internal/webhook/clusterdeployment_webhook.go:248-262 | without an infrastructure provider the credential check fails the same way for every store, so the credential is not read |
| AdmissionProperties.CreateScenario | internal/webhook/clusterdeployment_webhook.go:63-95 | a complete creation is admitted iff the service's constraint accepts the template's version, and is otherwise rejected with the warning and a compatibility error naming the service template |
| AdmissionProperties.DefaultingIdempotent | internal/webhook/clusterdeployment_webhook.go:197-219 | applying the defaulter to its own output gives the same outcome |
| AdmissionProperties.DefaultedDeploymentIsDryRun | internal/webhook/clusterdeployment_webhook.go:212-217 | a changed deployment had no config and a valid template with a config; it is now dry-run with that config, and everything else is kept |
| ClusterDeploymentWebhook.ValidateK8sCompatibility | internal/webhook/clusterdeployment_webhook.go:145-183 | the loop with `continue` and early returns computes K8sCompatibility |
| ClusterDeploymentWebhook.IsCredMatchTemplate | internal/webhook/clusterdeployment_webhook.go:276-308 | the provider loop computes CredentialMatchesTemplate |
| ClusterDeploymentWebhook.ValidateCredential | internal/webhook/clusterdeployment_webhook.go:247-274 | the hasInfra loop with `break`, the credential read and the delegation compute CredentialMatch |
| ClusterDeploymentWebhook.ValidateCreate | internal/webhook/clusterdeployment_webhook.go:63-95 | a non-deployment is a BadRequest naming its kind; otherwise the response is CreateDecision of the object's contents |
| ClusterDeploymentWebhook.ValidateUpdate | internal/webhook/clusterdeployment_webhook.go:98-143 | a non-deployment, old one first, is a BadRequest; otherwise the response is UpdateDecision of the two objects' contents |
| ClusterDeploymentWebhook.ValidateDelete | internal/webhook/clusterdeployment_webhook.go:186-188 | deletion is admitted with no warnings |
| ClusterDeploymentWebhook.Default | internal/webhook/clusterdeployment_webhook.go:191-220 | a non-deployment is a BadRequest; otherwise the error and the object's new contents are Defaulting of its old contents, and only that object is written |

## Left out

- Kubernetes client I/O is left out. The store is a snapshot of maps, and
  the only read failure modelled is NotFound. Other API errors, such as
  timeouts and forbidden reads, are not modelled.
- The semantic-version library is left out. Version parsing, constraint
  parsing and constraint checking are the three parameters of `Semver`.
- `validation.ClusterDeployCrossNamespaceServicesRefs` and
  `validation.ServicesHaveValidTemplates` are not part of this model. They
  are parameters of `Validation`.
  - The second one is given the snapshot's ServiceTemplates, not a client.
- `providersloader` is not part of this model. `InfraPrefix` and
  `GetClusterIdentityKinds` are a `ProviderCatalog` parameter.
- Error and warning texts and their `%w` wrapping are modelled as
  structured `Error` and `Warning` values.
  - The text of the BadRequest names the Go type. Here it carries the
    object's kind.
- nil and empty warning lists are both the empty sequence.
- `SetupWebhookWithManager` is left out. So are the `ctx` argument and the
  registration with the controller manager, because they are wiring, not
  admission logic.
- A deployment's fields other than the namespace, name, template reference, credential, configuration, services,
  dry-run flag and available upgrades are not modelled, because the webhook
  does not read them.
- A `Snapshot` does not tie a stored object's `name` to the key it is
  stored under, as a real store does. The credential errors that name the
  template (`NoProviders`, `NoInfrastructureProviders`) therefore name the
  stored object's `name`, which on a real store is the looked-up name.
- ClusterDeploymentWebhook.Default copies the template's configuration
  bytes by value. The Go code shares the `Raw` byte slice with the
  template object, and that aliasing is not modelled.
