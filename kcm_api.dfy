/**
 * The kcm API objects the ClusterDeployment admission webhook reads: the
 * deployment itself, cluster and service templates, and credentials.
 * Only the fields the webhook looks at are modelled.
 */
module KcmApi {

  datatype Option<+T> = None | Some(value: T)

  /** Identity of a namespaced object (`client.ObjectKey`). */
  datatype ObjectKey = ObjectKey(namespace: string, name: string)

  /** A raw JSON payload (`apiextensionsv1.JSON`), kept as its bytes. */
  datatype Json = Json(raw: seq<bv8>)

  /** One entry of `Spec.ServiceSpec.Services`. */
  datatype Service = Service(template: string, disable: bool, namespace: string)

  datatype ClusterDeploymentSpec = ClusterDeploymentSpec(
    template: string,
    credential: string,
    config: Option<Json>,   // nil when the user supplied no configuration
    services: seq<Service>,
    dryRun: bool)

  datatype ClusterDeploymentStatus = ClusterDeploymentStatus(availableUpgrades: seq<string>)

  datatype ClusterDeployment = ClusterDeployment(
    namespace: string,
    name: string,
    spec: ClusterDeploymentSpec,
    status: ClusterDeploymentStatus)
  {
    function Key(): ObjectKey { ObjectKey(namespace, name) }
  }

  /**
   * The status of a ClusterTemplate: the common template status (validity,
   * validation error, default configuration) together with the Kubernetes
   * version it installs and the providers it needs.
   */
  datatype ClusterTemplateStatus = ClusterTemplateStatus(
    valid: bool,
    validationError: string,
    config: Option<Json>,
    kubernetesVersion: string,
    providers: seq<string>)

  datatype ClusterTemplate = ClusterTemplate(name: string, status: ClusterTemplateStatus)

  /** A ServiceTemplate: its validity and its Kubernetes version constraint. */
  datatype ServiceTemplate = ServiceTemplate(name: string, valid: bool, kubernetesConstraint: string)

  /** A Credential: the kind of its identity reference and its readiness. */
  datatype Credential = Credential(name: string, identityKind: string, ready: bool)

  /**
   * A ClusterDeployment as the in-memory object the webhook receives by
   * pointer. The defaulter writes to its spec in place.
   */
  class ClusterDeploymentObject {
    var namespace: string
    var name: string
    var spec: ClusterDeploymentSpec
    var status: ClusterDeploymentStatus

    constructor (cd: ClusterDeployment)
      ensures View() == cd
    {
      namespace := cd.namespace;
      name := cd.name;
      spec := cd.spec;
      status := cd.status;
    }

    /** The object's current contents as a value. */
    function View(): ClusterDeployment
      reads this
    {
      ClusterDeployment(namespace, name, spec, status)
    }
  }

  /**
   * The `runtime.Object` handed to a webhook entry point, as a closed variant:
   * either a ClusterDeployment or an object of some other kind.
   */
  datatype RuntimeObject = ClusterDeploymentObj(cd: ClusterDeploymentObject) | OtherObject(kind: string)
  {
    function Footprint(): set<object>
    {
      if ClusterDeploymentObj? then {cd} else {}
    }
  }
}
