/** The Kubernetes objects the operator reads and writes, with the fields its decisions depend
    on. Quantities are integers; a missing storage request counts as zero. */
module Kube {
  import opened Text

  type Labels = map<string, string>
  type Files = map<string, string>

  // ---------- the custom resource ----------

  /** The size field, as resource.ParseQuantity sees it. */
  datatype SizeText = Malformed(text: string) | Quantity(amount: int)

  datatype LogPersistence = LogPersistence(size: SizeText, storageClassName: string)

  /** image, probe and connection stand for the parts of the spec that only shape the pod. */
  datatype CrSpec = CrSpec(image: string, replicas: Option<nat>, logPersistence: Option<LogPersistence>,
                           probe: string, connection: string)

  // ---------- claims ----------

  datatype ClaimTemplate = ClaimTemplate(name: string, labels: Option<Labels>, accessModes: Option<seq<string>>,
                                         storageClass: Option<string>, request: Option<int>)

  datatype Claim = Claim(name: string, labels: Labels, storageClass: Option<string>, request: Option<int>,
                         version: nat)

  /** Requests.Storage(): zero when there is no request. */
  function Size(request: Option<int>): int {
    if request.None? then 0 else request.value
  }

  // ---------- the StatefulSet ----------

  datatype LabelSelector = LabelSelector(matchLabels: Labels, matchExpressions: seq<string>)

  datatype ClaimFate = Retain | Delete
  datatype Retention = Retention(whenDeleted: ClaimFate, whenScaled: ClaimFate)

  /** checksum is the configmap-checksum annotation; defaulted marks a template into which the
      API server has filled its defaults. */
  datatype PodTemplate = PodTemplate(labels: Labels, checksum: string, image: string, probe: string,
                                     connection: string, configMapName: string, logMount: bool, defaulted: bool)

  datatype StatefulSet = StatefulSet(
    labels: Labels,
    serviceName: string,
    podManagementPolicy: string,
    selector: LabelSelector,
    templates: seq<ClaimTemplate>,
    replicas: nat,
    template: PodTemplate,
    updateStrategy: Option<string>,
    revisionHistoryLimit: Option<nat>,
    minReadySeconds: nat,
    retention: Option<Retention>)

  datatype StoredSet = StoredSet(body: StatefulSet, deleting: bool, version: nat)

  /** A ConfigMap or Secret. */
  datatype StoredData = StoredData(data: Files, version: nat)

  // ---------- errors ----------

  datatype Error =
    | ApiFailure
    | NotFound
    | Conflict
    | Invalid
    | AlreadyExists
    | NotRendered
    | NoRootCa
    | BadSize(text: string)
    | TemplateClassChange(from: string, to: string)
    | ClaimClassChange(claim: string, to: string)
    | ClaimShrink(claim: string, current: int, desired: int)
}
