/** The desired StatefulSet: StatefulSet and LogVolumeClaimTemplate of pkg/ciscoaciaim, the
    in-place update of a stored one, and the API server's admission of both. */
module Builder {
  import opened Text
  import opened Kube
  import opened Templates
  import Names

  function ExplicitClass(storageClassName: string): Option<string> {
    if storageClassName == "" then None else Some(storageClassName)
  }

  /** LogVolumeClaimTemplate, when persistence is enabled and the size parses. */
  function LogTemplate(name: string, size: int, storageClassName: string): ClaimTemplate {
    ClaimTemplate(Names.LOG_TEMPLATE, Some(map["app" := name]), Some(["ReadWriteOnce"]),
                  ExplicitClass(storageClassName), Some(size))
  }

  /** Log persistence is off, or its size parses. */
  predicate Parses(spec: CrSpec) {
    spec.logPersistence.Some? ==> spec.logPersistence.value.size.Quantity?
  }

  predicate Persists(spec: CrSpec) {
    spec.logPersistence.Some?
  }

  /** Log persistence is on and its size parses. */
  predicate SizedSpec(spec: CrSpec) {
    Persists(spec) && Parses(spec)
  }

  function DesiredSize(spec: CrSpec): int
    requires Persists(spec) && Parses(spec)
  {
    spec.logPersistence.value.size.amount
  }

  function DesiredClass(spec: CrSpec): string
    requires Persists(spec)
  {
    spec.logPersistence.value.storageClassName
  }

  function DesiredTemplates(name: string, spec: CrSpec): seq<ClaimTemplate>
    requires Parses(spec)
  {
    if !Persists(spec) then [] else [LogTemplate(name, DesiredSize(spec), DesiredClass(spec))]
  }

  const RETAIN_ALL := Retention(Retain, Retain)

  /** The object the operator wants for a spec and a configuration checksum. */
  function Desired(name: string, spec: CrSpec, checksum: string): StatefulSet
    requires Parses(spec)
  {
    StatefulSet(
      map["app" := name], name, "OrderedReady", LabelSelector(map["app" := name], []),
      DesiredTemplates(name, spec),
      if spec.replicas.None? then 2 else spec.replicas.value,
      PodTemplate(map["app" := name], checksum, spec.image, spec.probe, spec.connection, name + "-config",
                  Persists(spec), false),
      None, None, 0,
      if Persists(spec) then Some(RETAIN_ALL) else None)
  }

  /** The object has what the spec asks for, and otherwise what the operator fixes. */
  predicate Reaches(name: string, spec: CrSpec, configMapName: string, checksum: string, sts: StatefulSet) {
    && (spec.replicas == Some(sts.replicas) || (spec.replicas == None && sts.replicas == 2))
    && sts.template.image == spec.image && sts.template.probe == spec.probe
    && sts.template.connection == spec.connection && sts.template.checksum == checksum
    && sts.template.configMapName == configMapName && !sts.template.defaulted
    && (sts.template.logMount <==> spec.logPersistence != None)
    && sts.serviceName == name && sts.podManagementPolicy == "OrderedReady"
    && sts.labels == sts.template.labels == sts.selector.matchLabels == map["app" := name]
    && sts.selector.matchExpressions == []
    && sts.updateStrategy == None && sts.revisionHistoryLimit == None && sts.minReadySeconds == 0
    && (spec.logPersistence == None ==> sts.templates == [] && sts.retention == None)
    && (spec.logPersistence != None ==>
          && sts.retention == Some(Retention(Retain, Retain))
          && |sts.templates| == 1 && ClaimReaches(name, spec.logPersistence.value, sts.templates[0]))
  }

  predicate ClassShows(name: string, persistence: LogPersistence, t: ClaimTemplate) {
    && t.name == "aim-logs" && t.labels == Some(map["app" := name]) && t.accessModes == Some(["ReadWriteOnce"])
    && (persistence.storageClassName == "" ==> t.storageClass == None)
    && (persistence.storageClassName != "" ==> t.storageClass == Some(persistence.storageClassName))
  }

  predicate ClaimReaches(name: string, persistence: LogPersistence, t: ClaimTemplate) {
    && ClassShows(name, persistence, t)
    && t.request.Some? && persistence.size == Quantity(t.request.value)
  }

  /** Two replicas stand for an absent count. */
  function Replicated(spec: CrSpec): CrSpec {
    spec.(replicas := if spec.replicas == None then Some(2) else spec.replicas)
  }

  /** Nothing of the spec is lost: equal objects come from equal specs, names and checksums. */
  lemma DesiredInjective(name: string, a: CrSpec, sum: string, other: string, b: CrSpec, otherSum: string)
    requires Parses(a) && Parses(b)
    ensures Desired(name, a, sum) == Desired(other, b, otherSum)
            <==> name == other && Replicated(a) == Replicated(b) && sum == otherSum
  {
    var x, y := Desired(name, a, sum), Desired(other, b, otherSum);
    DesiredReaches(name, a, sum);
    DesiredReaches(other, b, otherSum);
    if x == y && a.logPersistence != None {
      assert ClaimReaches(name, a.logPersistence.value, x.templates[0]);
      assert ClaimReaches(other, b.logPersistence.value, y.templates[0]);
      assert a.logPersistence.value == b.logPersistence.value;
    }
  }

  lemma DesiredReaches(name: string, spec: CrSpec, checksum: string)
    requires Parses(spec)
    ensures Reaches(name, spec, name + "-config", checksum, Desired(name, spec, checksum))
  {
  }

  /** StatefulSet: build the object, then add claim template and retention policy. */
  method BuildStatefulSet(name: string, spec: CrSpec, configMapName: string, checksum: string)
    returns (result: Option<StatefulSet>)
    ensures result.Some? <==> Parses(spec)
    ensures result.Some? && configMapName == name + "-config" ==> result.value == Desired(name, spec, checksum)
    ensures result.Some? ==> Reaches(name, spec, configMapName, checksum, result.value)
  {
    var replicas := 2;
    if spec.replicas.Some? {
      replicas := spec.replicas.value;
    }
    var logMount := spec.logPersistence.Some?;
    var sts := StatefulSet(
      map["app" := name], name, "OrderedReady", LabelSelector(map["app" := name], []), [], replicas,
      PodTemplate(map["app" := name], checksum, spec.image, spec.probe, spec.connection, configMapName,
                  logMount, false),
      None, None, 0, None);
    if spec.logPersistence.Some? {
      var persistence := spec.logPersistence.value;
      if persistence.size.Malformed? {
        return None;
      }
      var claim := ClaimTemplate("aim-logs", Some(map["app" := name]), Some(["ReadWriteOnce"]), None,
                                 Some(persistence.size.amount));
      if persistence.storageClassName != "" {
        claim := claim.(storageClass := Some(persistence.storageClassName));
      }
      sts := sts.(templates := [claim], retention := Some(Retention(Retain, Retain)));
    }
    return Some(sts);
  }

  /** The update branch: the stored object with the mutable fields of the desired one. */
  function Updated(found: StatefulSet, desired: StatefulSet): StatefulSet {
    found.(replicas := desired.replicas, template := desired.template, updateStrategy := desired.updateStrategy,
           revisionHistoryLimit := desired.revisionHistoryLimit, minReadySeconds := desired.minReadySeconds,
           retention := desired.retention, labels := desired.labels)
  }

  // ---------- the API server ----------

  /** Defaults filled in on every write. */
  function Admit(body: StatefulSet): StatefulSet {
    body.(
      template := body.template.(defaulted := true),
      updateStrategy := if body.updateStrategy.None? then Some("RollingUpdate") else body.updateStrategy,
      revisionHistoryLimit := if body.revisionHistoryLimit.None? then Some(10) else body.revisionHistoryLimit,
      retention := if body.retention.None? then Some(RETAIN_ALL) else body.retention)
  }

  /** The fields an update may not change. */
  predicate ImmutableAgree(a: StatefulSet, b: StatefulSet) {
    && a.serviceName == b.serviceName
    && a.podManagementPolicy == b.podManagementPolicy
    && a.selector == b.selector
    && a.templates == b.templates
    && a.revisionHistoryLimit == b.revisionHistoryLimit
  }

  lemma AdmitIdempotent(body: StatefulSet)
    ensures Admit(Admit(body)) == Admit(body)
    ensures body.revisionHistoryLimit.Some? ==> ImmutableAgree(Admit(body), body)
  {
  }

  // ---------- legality and sufficiency of the update ----------

  /** Two objects agree on every field the operator sets, the templates' sizes aside. */
  predicate AgreesButSize(a: StatefulSet, b: StatefulSet) {
    && a.(templates := []) == b.(templates := [])
    && TemplatesEqual(a.templates, b.templates)
  }

  /** Whenever the update branch is reached, the object written is one the server may accept,
      provided the stored one has the revision history limit that the server fills in for the
      desired one; and as stored it agrees with the desired one on everything but template
      sizes; a second update then writes nothing new. Conversely, where recreation is asked for, no in-place
      update could have made them agree. */
  lemma UpdateLegalAndSufficient(found: StatefulSet, desired: StatefulSet)
    ensures ImmutableAgree(Admit(Updated(found, desired)), found)
            <==> found.revisionHistoryLimit == Admit(desired).revisionHistoryLimit
    ensures !RequiresRecreation(found, desired) <==> AgreesButSize(Updated(found, desired), desired)
    ensures !RequiresRecreation(found, desired) <==> AgreesButSize(Admit(Updated(found, desired)), Admit(desired))
    ensures Admit(Updated(Admit(Updated(found, desired)), desired)) == Admit(Updated(found, desired))
  {
  }

  /** The object found has been through the server and the one built has not, so the comparison
      before the Update call always finds a difference: every reconcile that reaches it sends
      one. */
  lemma UpdateAlwaysSent(found: StatefulSet, name: string, spec: CrSpec, checksum: string)
    requires Admit(found) == found && Parses(spec)
    ensures Updated(found, Desired(name, spec, checksum)) != found
  {
    assert found.template.defaulted;
  }

  /** What a user sees of the spec in a stored object. */
  predicate Shows(name: string, spec: CrSpec, checksum: string, sts: StatefulSet) {
    && (spec.replicas == Some(sts.replicas) || (spec.replicas == None && sts.replicas == 2))
    && sts.template.image == spec.image && sts.template.probe == spec.probe
    && sts.template.connection == spec.connection && sts.template.checksum == checksum
    && sts.template.configMapName == name + "-config" && (sts.template.logMount <==> spec.logPersistence != None)
    && sts.serviceName == name && sts.podManagementPolicy == "OrderedReady"
    && sts.selector.matchLabels == map["app" := name]
    && (spec.logPersistence == None ==> sts.templates == [])
    && (spec.logPersistence != None ==>
          |sts.templates| == 1 && ClassShows(name, spec.logPersistence.value, sts.templates[0]))
  }

  /** A stored object that agrees with the built one shows the spec. */
  lemma AgreeingShows(name: string, spec: CrSpec, checksum: string, body: StatefulSet)
    requires Parses(spec) && AgreesButSize(Admit(body), Admit(Desired(name, spec, checksum)))
    ensures Shows(name, spec, checksum, body)
  {
    var desired := Desired(name, spec, checksum);
    DesiredReaches(name, spec, checksum);
    assert Admit(body).(templates := []) == Admit(desired).(templates := []);
    if spec.logPersistence != None {
      var t, u := body.templates[0], desired.templates[0];
      assert body.templates == [t] && desired.templates == [u];
      OneTemplate(t, u);
      assert Sizeless(t) == Sizeless(u);
    }
  }

  // ---------- recreation, for objects the operator built ----------

  /** Both specs enable persistence, with different class fields. */
  predicate ClassDiffers(a: CrSpec, b: CrSpec) {
    Persists(a) && Persists(b) && DesiredClass(a) != DesiredClass(b)
  }

  lemma OneTemplate(t: ClaimTemplate, u: ClaimTemplate)
    ensures TemplatesEqual([t], [u]) <==> Sizeless(t) == Sizeless(u)
  {
    if t.name == u.name && SameButSize(t, u) {
      assert Sizeless(t) == Sizeless(u);
    } else {
      assert Sizeless(t).name == t.name && Sizeless(u).name == u.name;
      assert Sizeless(t).labels == t.labels && Sizeless(u).labels == u.labels;
    }
    assert LastNamed([t][..0], u.name) == None;
    assert LastNamed([t], u.name) == if t.name == u.name then Some(t) else None;
    assert [u][0] == u;
  }

  /** The stored object of one spec against the desired object of another: the operator goes on
      to recreate exactly when one of them enables log persistence and the other does not; a
      class change under the same template is always an error; nothing else, whether size,
      replicas, image, probe or checksum, leads to either. */
  lemma RecreationExact(name: string, before: CrSpec, after: CrSpec, oldSum: string, newSum: string)
    requires Parses(before) && Parses(after)
    ensures var stored := Admit(Desired(name, before, oldSum));
            var desired := Desired(name, after, newSum);
            && (RequiresRecreation(stored, desired) && ValidateClassChange(stored.templates, desired.templates).None?
                <==> Persists(before) != Persists(after))
            && (ValidateClassChange(stored.templates, desired.templates).Some? <==> ClassDiffers(before, after))
            && (!RequiresRecreation(stored, desired)
                <==> Persists(before) == Persists(after) && !ClassDiffers(before, after))
  {
    if Persists(before) && Persists(after) {
      var t := LogTemplate(name, DesiredSize(before), DesiredClass(before));
      var u := LogTemplate(name, DesiredSize(after), DesiredClass(after));
      OneTemplate(t, u);
      assert Sizeless(t) == Sizeless(u) <==> t.storageClass == u.storageClass;
    }
  }
}
