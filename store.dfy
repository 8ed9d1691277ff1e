/**
 * The object store as seen by one admission call: a snapshot of the cluster
 * templates, service templates and credentials, keyed by namespace and name.
 * A point read either finds the object or fails with NotFound.
 */
module Store {
  import opened KcmApi

  datatype Snapshot = Snapshot(
    clusterTemplates: map<ObjectKey, ClusterTemplate>,
    serviceTemplates: map<ObjectKey, ServiceTemplate>,
    credentials: map<ObjectKey, Credential>)

  datatype Resource = ClusterTemplateResource | ServiceTemplateResource | CredentialResource

  datatype StoreError = NotFound(resource: Resource, key: ObjectKey)

  datatype Fetched<+T> = Found(obj: T) | Missing(error: StoreError)

  function Get<T>(objects: map<ObjectKey, T>, resource: Resource, key: ObjectKey): (r: Fetched<T>)
    ensures r.Found? <==> key in objects
    ensures r.Found? ==> r.obj == objects[key]
    ensures r.Missing? ==> r.error == NotFound(resource, key)
  {
    if key in objects then Found(objects[key]) else Missing(NotFound(resource, key))
  }

  /** The ClusterTemplate a deployment names; it is looked up in the deployment's namespace. */
  function GetClusterDeploymentTemplate(snap: Snapshot, namespace: string, name: string): (r: Fetched<ClusterTemplate>)
    ensures r.Found? <==> ObjectKey(namespace, name) in snap.clusterTemplates
    ensures r.Found? ==> r.obj == snap.clusterTemplates[ObjectKey(namespace, name)]
    ensures r.Missing? ==> r.error == NotFound(ClusterTemplateResource, ObjectKey(namespace, name))
  {
    Get(snap.clusterTemplates, ClusterTemplateResource, ObjectKey(namespace, name))
  }

  /** The Credential a deployment names, in the deployment's namespace. */
  function GetClusterDeploymentCredential(snap: Snapshot, namespace: string, name: string): (r: Fetched<Credential>)
    ensures r.Found? <==> ObjectKey(namespace, name) in snap.credentials
    ensures r.Found? ==> r.obj == snap.credentials[ObjectKey(namespace, name)]
    ensures r.Missing? ==> r.error == NotFound(CredentialResource, ObjectKey(namespace, name))
  {
    Get(snap.credentials, CredentialResource, ObjectKey(namespace, name))
  }

  function GetServiceTemplate(snap: Snapshot, namespace: string, name: string): (r: Fetched<ServiceTemplate>)
    ensures r.Found? <==> ObjectKey(namespace, name) in snap.serviceTemplates
    ensures r.Found? ==> r.obj == snap.serviceTemplates[ObjectKey(namespace, name)]
    ensures r.Missing? ==> r.error == NotFound(ServiceTemplateResource, ObjectKey(namespace, name))
  {
    Get(snap.serviceTemplates, ServiceTemplateResource, ObjectKey(namespace, name))
  }
}
