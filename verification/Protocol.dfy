/** The reconcile protocol as a transition system. The operator advances one API call or one
    local decision at a time; between any two of its steps the user edits the custom resource,
    the StatefulSet controller creates claims and finishes deletions, and outsiders may write.
    Every operator call may fail before or after taking effect. */
module Protocol {
  import opened Text
  import opened Kube
  import opened Templates
  import opened Builder
  import Names
  import Checksum

  /** The fixed surroundings of a run: the resource's name and the digest function. */
  datatype Instance = Instance(name: string, sha256: string -> string)

  ghost function ChecksumOf(id: Instance, files: Files): string {
    id.sha256(Checksum.Preimage(files))
  }

  // ---------- state ----------

  /** The cluster. rendered is what generateConfigFiles would yield now from the resource and
      the looked-up connections, None while a lookup or the rendering fails. Every write gets
      its version from clock. The rest is history: the claim, StatefulSet, ConfigMap or CA
      secret written under each version, and all ConfigMap contents ever stored. */
  datatype Store = Store(
    cr: CrSpec,
    rendered: Option<Files>,
    rootCa: Option<Files>,
    sts: Option<StoredSet>,
    claims: map<string, Claim>,
    configMap: Option<StoredData>,
    caSecret: Option<StoredData>,
    clock: nat,
    seen: map<nat, Claim>,
    seenSets: map<nat, StoredSet>,
    seenMaps: map<nat, StoredData>,
    seenSecrets: map<nat, StoredData>,
    held: set<Files>)

  /** What one reconcile read at its start. */
  datatype Job = Job(spec: CrSpec, files: Files)

  /** A job with the root CA it read and the StatefulSet it built. */
  datatype Plan = Plan(job: Job, ca: string, desired: StatefulSet)

  /** Where the reconcile is, with its local variables. */
  datatype Phase =
    | Idle
    | Rendered(job: Job)
    | ConfigMapRead(job: Job, configMap: Option<StoredData>)
    | ConfigMapDone(job: Job)
    | RootCaRead(job: Job, ca: string)
    | CaRead(job: Job, ca: string, secret: Option<StoredData>)
    | CaDone(job: Job, ca: string)
    | Creating(plan: Plan)
    | SetRead(plan: Plan, found: StoredSet)
    | Resizing(plan: Plan, found: StoredSet, size: int, wantedClass: string, pending: seq<Claim>)
    | Deciding(plan: Plan, found: StoredSet)
    | Ready(plan: Plan)
    | Failed(error: Error)

  /** What the reconcile under way works on. */
  function JobOf(op: Phase): Option<Job> {
    match op
    case Rendered(job) => Some(job)
    case ConfigMapRead(job, _) => Some(job)
    case ConfigMapDone(job) => Some(job)
    case RootCaRead(job, _) => Some(job)
    case CaRead(job, _, _) => Some(job)
    case CaDone(job, _) => Some(job)
    case Creating(plan) => Some(plan.job)
    case SetRead(plan, _) => Some(plan.job)
    case Resizing(plan, _, _, _, _) => Some(plan.job)
    case Deciding(plan, _) => Some(plan.job)
    case Ready(plan) => Some(plan.job)
    case _ => None
  }

  datatype World = World(store: Store, op: Phase)

  /** A call may succeed, fail without effect, or take effect and still report failure. */
  datatype Fault = NoFault | Before | After

  /** How Gets of the objects the operator writes are answered: as they are, or from a cache
      that may lag behind. */
  datatype Cache =
    | Fresh
    | Lagging(configMap: Option<StoredData>, caSecret: Option<StoredData>, sts: Option<StoredSet>)

  /** What the reads of one step are answered with. */
  datatype Answers = Answers(listing: seq<Claim>, cache: Cache)

  datatype Action =
    | Operator(fault: Fault, answers: Answers)
    | EditSpec(cr: CrSpec, rendered: Option<Files>)
    | RotateCa(rootCa: Option<Files>)
    | FinishDeletion
    | BornClaim(template: nat, ordinal: nat, defaultClass: Option<string>)
    | ReapClaim(template: nat, ordinal: nat)
    | OutsideClaim(name: string, content: Option<Claim>)
    | OutsideSet(sts: Option<StoredSet>)
    | OutsideData(configMap: Option<Files>, caSecret: Option<Files>)

  // ---------- the API server ----------

  datatype Reply = Reply(store: Store, error: Option<Error>)

  function PutClaim(store: Store, name: string, claim: Claim): Store {
    var stored := claim.(name := name, version := store.clock + 1);
    store.(claims := store.claims[name := stored], clock := store.clock + 1,
           seen := store.seen[store.clock + 1 := stored])
  }

  function UpdateClaim(store: Store, claim: Claim): Reply {
    if claim.name !in store.claims then Reply(store, Some(NotFound))
    else if store.claims[claim.name].version != claim.version then Reply(store, Some(Conflict))
    else Reply(PutClaim(store, claim.name, claim), None)
  }

  function PutSet(store: Store, body: StatefulSet, deleting: bool): Store {
    var stored := StoredSet(body, deleting, store.clock + 1);
    store.(sts := Some(stored), clock := store.clock + 1, seenSets := store.seenSets[store.clock + 1 := stored])
  }

  function CreateSet(store: Store, body: StatefulSet): Reply {
    if store.sts.Some? then Reply(store, Some(AlreadyExists))
    else Reply(PutSet(store, Admit(body), false), None)
  }

  /** A write that changes nothing keeps the stored version. */
  function UpdateSet(store: Store, written: StoredSet): Reply {
    if store.sts.None? then Reply(store, Some(NotFound))
    else if store.sts.value.version != written.version then Reply(store, Some(Conflict))
    else if !ImmutableAgree(Admit(written.body), store.sts.value.body) then Reply(store, Some(Invalid))
    else if Admit(written.body) == store.sts.value.body then Reply(store, None)
    else Reply(PutSet(store, Admit(written.body), store.sts.value.deleting), None)
  }

  lemma UpdateSetReply(store: Store, written: StoredSet)
    requires store.sts.Some? && store.sts.value.version == written.version ==> store.sts.value.deleting == written.deleting
    ensures var reply := UpdateSet(store, written);
            && reply.store in {store, PutSet(store, Admit(written.body), written.deleting)}
            && (reply.error.None? ==>
                  reply.store.sts.Some? && reply.store.sts.value.body == Admit(written.body)
                  && reply.store.sts.value.deleting == written.deleting)
            && (reply.error.Some? ==> reply.store == store)
  {
  }

  /** Deletion has no precondition on the version; the caller ignores NotFound. */
  function DeleteSet(store: Store): Reply {
    if store.sts.None? || store.sts.value.deleting then Reply(store, None)
    else Reply(PutSet(store, store.sts.value.body, true), None)
  }

  function PutConfigMap(store: Store, data: Files): Store {
    var stored := StoredData(data, store.clock + 1);
    store.(configMap := Some(stored), clock := store.clock + 1, seenMaps := store.seenMaps[store.clock + 1 := stored],
           held := store.held + {data})
  }

  function CreateConfigMap(store: Store, data: Files): Reply {
    if store.configMap.Some? then Reply(store, Some(AlreadyExists)) else Reply(PutConfigMap(store, data), None)
  }

  function UpdateConfigMap(store: Store, written: StoredData): Reply {
    if store.configMap.None? then Reply(store, Some(NotFound))
    else if store.configMap.value.version != written.version then Reply(store, Some(Conflict))
    else Reply(PutConfigMap(store, written.data), None)
  }

  function PutCaSecret(store: Store, data: Files): Store {
    var stored := StoredData(data, store.clock + 1);
    store.(caSecret := Some(stored), clock := store.clock + 1,
           seenSecrets := store.seenSecrets[store.clock + 1 := stored])
  }

  function CreateCaSecret(store: Store, data: Files): Reply {
    if store.caSecret.Some? then Reply(store, Some(AlreadyExists)) else Reply(PutCaSecret(store, data), None)
  }

  function UpdateCaSecret(store: Store, written: StoredData): Reply {
    if store.caSecret.None? then Reply(store, Some(NotFound))
    else if store.caSecret.value.version != written.version then Reply(store, Some(Conflict))
    else Reply(PutCaSecret(store, written.data), None)
  }

  // ---------- the operator ----------

  function Bundle(ca: string): Files {
    map["tls-ca-bundle.pem" := ca]
  }

  predicate Labelled(id: Instance, claim: Claim) {
    "app" in claim.labels && claim.labels["app"] == id.name
  }

  predicate SelectedBy(id: Instance, claim: Claim) {
    Names.Selected(id.name, claim.name, claim.labels)
  }

  /** The claim is stored, or once was, exactly like this. */
  predicate Known(store: Store, claim: Claim) {
    claim.version in store.seen && store.seen[claim.version] == claim
  }

  predicate KnownSet(store: Store, found: StoredSet) {
    found.version in store.seenSets && store.seenSets[found.version] == found
  }

  predicate KnownData(history: map<nat, StoredData>, found: StoredData) {
    found.version in history && history[found.version] == found
  }

  /** A Get answers with the object as it is, or as it once was, or does not find it although it
      is there. */
  function SeenSet(store: Store, cache: Cache): Option<StoredSet> {
    if cache.Fresh? || (cache.sts.Some? && !KnownSet(store, cache.sts.value)) then store.sts else cache.sts
  }

  function SeenConfigMap(store: Store, cache: Cache): Option<StoredData> {
    if cache.Fresh? || (cache.configMap.Some? && !KnownData(store.seenMaps, cache.configMap.value)) then store.configMap
    else cache.configMap
  }

  function SeenCaSecret(store: Store, cache: Cache): Option<StoredData> {
    if cache.Fresh? || (cache.caSecret.Some? && !KnownData(store.seenSecrets, cache.caSecret.value)) then store.caSecret
    else cache.caSecret
  }

  /** A list call answers with labelled claims, each as it is or once was. */
  ghost predicate PossibleListing(id: Instance, store: Store, listing: seq<Claim>) {
    forall i :: 0 <= i < |listing| ==> Known(store, listing[i]) && Labelled(id, listing[i])
  }

  /** An up-to-date answer: the labelled claims, once each, as they are now. */
  ghost predicate FreshListing(id: Instance, store: Store, listing: seq<Claim>) {
    && (forall i :: 0 <= i < |listing| ==>
          listing[i].name in store.claims && store.claims[listing[i].name] == listing[i] && Labelled(id, listing[i]))
    && (forall i, j :: 0 <= i < j < |listing| ==> listing[i].name != listing[j].name)
    && (forall name :: name in store.claims && Labelled(id, store.claims[name]) ==> store.claims[name] in listing)
  }

  lemma FreshIsPossible(id: Instance, store: Store, listing: seq<Claim>)
    requires ClaimHistory(store) && FreshListing(id, store, listing)
    ensures PossibleListing(id, store, listing)
  {
  }

  /** A class is named and the claim is not of it. */
  predicate OtherClass(claim: Claim, wantedClass: string) {
    wantedClass != "" && claim.storageClass != Some(wantedClass)
  }

  /** The claim stands in the way of the wanted size and class. */
  predicate Refused(claim: Claim, size: int, wantedClass: string) {
    OtherClass(claim, wantedClass) || Size(claim.request) > size
  }

  /** The class is looked at first. */
  predicate RefusedWith(claim: Claim, size: int, wantedClass: string, error: Error) {
    if OtherClass(claim, wantedClass) then error == ClaimClassChange(claim.name, wantedClass)
    else Size(claim.request) > size && error == ClaimShrink(claim.name, Size(claim.request), size)
  }

  datatype Preparation = Rejected(error: Error) | Unchanged | Resized(claim: Claim)

  /** prepareLogPVCResize */
  function Prepare(claim: Claim, size: int, wantedClass: string): Preparation {
    if wantedClass != "" && claim.storageClass != Some(wantedClass) then
      Rejected(ClaimClassChange(claim.name, wantedClass))
    else if Size(claim.request) > size then Rejected(ClaimShrink(claim.name, Size(claim.request), size))
    else if Size(claim.request) == size then Unchanged
    else Resized(claim.(request := Some(size)))
  }

  /** Another class is refused whatever the size, a larger claim as well; the size decides about
      the others. */
  lemma PrepareExact(claim: Claim, size: int, wantedClass: string, error: Error)
    ensures Prepare(claim, size, wantedClass).Rejected? <==> Refused(claim, size, wantedClass)
    ensures Prepare(claim, size, wantedClass) == Rejected(error) <==> RefusedWith(claim, size, wantedClass, error)
    ensures Prepare(claim, size, wantedClass) == Unchanged
            <==> !OtherClass(claim, wantedClass) && Size(claim.request) == size
    ensures Prepare(claim, size, wantedClass) == Resized(claim.(request := Some(size)))
            <==> !OtherClass(claim, wantedClass) && Size(claim.request) < size
  {
  }

  function Read(w: World, fault: Fault, next: Phase): World {
    w.(op := if fault.NoFault? then next else Failed(ApiFailure))
  }

  function Write(w: World, fault: Fault, reply: Reply, next: Phase): World {
    match fault
    case Before => w.(op := Failed(ApiFailure))
    case After => World(reply.store, Failed(ApiFailure))
    case NoFault => World(reply.store, if reply.error.Some? then Failed(reply.error.value) else next)
  }

  /** ensureConfigMap and ensureRabbitMQCaSecret, after their Get. */
  function WriteConfigMap(w: World, fault: Fault): World
    requires w.op.ConfigMapRead?
  {
    var job, found := w.op.job, w.op.configMap;
    if found.None? then Write(w, fault, CreateConfigMap(w.store, job.files), ConfigMapDone(job))
    else if found.value.data != job.files then
      Write(w, fault, UpdateConfigMap(w.store, found.value.(data := job.files)), ConfigMapDone(job))
    else w.(op := ConfigMapDone(job))
  }

  function ReadRootCa(w: World, fault: Fault): World
    requires w.op.ConfigMapDone?
  {
    Read(w, fault,
      if w.store.rootCa.None? then Failed(NotFound)
      else if "ca.crt" !in w.store.rootCa.value then Failed(NoRootCa)
      else RootCaRead(w.op.job, w.store.rootCa.value["ca.crt"]))
  }

  function WriteCa(w: World, fault: Fault): World
    requires w.op.CaRead?
  {
    var job, ca, found := w.op.job, w.op.ca, w.op.secret;
    if found.None? then Write(w, fault, CreateCaSecret(w.store, Bundle(ca)), CaDone(job, ca))
    else if found.value.data != Bundle(ca) then
      Write(w, fault, UpdateCaSecret(w.store, found.value.(data := Bundle(ca))), CaDone(job, ca))
    else w.(op := CaDone(job, ca))
  }

  /** ensureStatefulSet up to the class check: build, Get, validate. */
  ghost function ReadSet(id: Instance, w: World, fault: Fault, cache: Cache): World
    requires w.op.CaDone?
  {
    var job := w.op.job;
    if !Parses(job.spec) then w.(op := Failed(BadSize(job.spec.logPersistence.value.size.text)))
    else
      var plan := Plan(job, w.op.ca, Desired(id.name, job.spec, ChecksumOf(id, job.files)));
      Read(w, fault,
        if SeenSet(w.store, cache).None? then Creating(plan)
        else
          var found := SeenSet(w.store, cache).value;
          var change := ValidateClassChange(found.body.templates, plan.desired.templates);
          if change.Some? then Failed(change.value) else SetRead(plan, found))
  }

  /** ensureLogPVCStorage up to the list call. */
  ghost function ListClaims(id: Instance, w: World, fault: Fault, listing: seq<Claim>): World
    requires w.op.SetRead?
  {
    var persistence := w.op.plan.job.spec.logPersistence;
    if persistence.None? then w.(op := Deciding(w.op.plan, w.op.found))
    else if persistence.value.size.Malformed? then w.(op := Failed(BadSize(persistence.value.size.text)))
    else if !PossibleListing(id, w.store, listing) then w.(op := Failed(ApiFailure))
    else
      Read(w, fault, Resizing(w.op.plan, w.op.found, persistence.value.size.amount,
                              persistence.value.storageClassName, listing))
  }

  /** The Create call of ensureStatefulSet. */
  function CreateDesired(w: World, fault: Fault): World
    requires w.op.Creating?
  {
    Write(w, fault, CreateSet(w.store, w.op.plan.desired), Ready(w.op.plan))
  }

  /** One round of the resize loop. */
  function ResizeNext(id: Instance, w: World, fault: Fault): World
    requires w.op.Resizing?
  {
    if |w.op.pending| == 0 then w.(op := Deciding(w.op.plan, w.op.found))
    else
      var claim := w.op.pending[0];
      var rest := w.op.(pending := w.op.pending[1..]);
      if !HasPrefix(claim.name, Names.ClaimPrefix(id.name)) then w.(op := rest)
      else
        match Prepare(claim, w.op.size, w.op.wantedClass)
        case Rejected(error) => w.(op := Failed(error))
        case Unchanged => w.(op := rest)
        case Resized(changed) => Write(w, fault, UpdateClaim(w.store, changed), rest)
  }

  /** The rest of ensureStatefulSet: recreate, update, or leave as it is. */
  function Decide(w: World, fault: Fault): World
    requires w.op.Deciding?
  {
    var plan, found := w.op.plan, w.op.found;
    if RequiresRecreation(found.body, plan.desired) then
      if found.deleting then w.(op := Idle) else Write(w, fault, DeleteSet(w.store), Idle)
    else
      var updated := Updated(found.body, plan.desired);
      if updated != found.body then Write(w, fault, UpdateSet(w.store, found.(body := updated)), Ready(plan))
      else w.(op := Ready(plan))
  }

  ghost function Operate(id: Instance, w: World, fault: Fault, answers: Answers): World {
    match w.op
    case Idle =>
      Read(w, fault, if w.store.rendered.None? then Failed(NotRendered)
                     else Rendered(Job(w.store.cr, w.store.rendered.value)))
    case Rendered(job) => Read(w, fault, ConfigMapRead(job, SeenConfigMap(w.store, answers.cache)))
    case ConfigMapRead(_, _) => WriteConfigMap(w, fault)
    case ConfigMapDone(_) => ReadRootCa(w, fault)
    case RootCaRead(job, ca) => Read(w, fault, CaRead(job, ca, SeenCaSecret(w.store, answers.cache)))
    case CaRead(_, _, _) => WriteCa(w, fault)
    case CaDone(_, _) => ReadSet(id, w, fault, answers.cache)
    case Creating(_) => CreateDesired(w, fault)
    case SetRead(_, _) => ListClaims(id, w, fault, answers.listing)
    case Resizing(_, _, _, _, _) => ResizeNext(id, w, fault)
    case Deciding(_, _) => Decide(w, fault)
    case Ready(_) => Read(w, fault, Idle)
    case Failed(_) => w.(op := Idle)
  }

  // ---------- everyone else ----------

  /** The claim the StatefulSet controller creates: the template's labels and the selector's. */
  function NewClaim(id: Instance, body: StatefulSet, t: ClaimTemplate, ordinal: nat,
                    defaultClass: Option<string>): Claim {
    Claim(Names.ClaimName(t.name, id.name, ordinal),
          (if t.labels.None? then map[] else t.labels.value) + body.selector.matchLabels,
          if t.storageClass.None? then defaultClass else t.storageClass, t.request, 0)
  }

  /** A claim the controller still has to create. */
  predicate IsMissing(id: Instance, store: Store, template: nat, ordinal: nat) {
    && store.sts.Some? && !store.sts.value.deleting
    && template < |store.sts.value.body.templates|
    && ordinal < store.sts.value.body.replicas
    && Names.ClaimName(store.sts.value.body.templates[template].name, id.name, ordinal) !in store.claims
  }

  function Bear(id: Instance, store: Store, template: nat, ordinal: nat, defaultClass: Option<string>): Store {
    if !IsMissing(id, store, template, ordinal) then store
    else
      var body := store.sts.value.body;
      var claim := NewClaim(id, body, body.templates[template], ordinal, defaultClass);
      PutClaim(store, claim.name, claim)
  }

  /** Claims are reaped by the stored retention policy: of a deleted set, or beyond its scale. */
  predicate MayReap(store: Store, ordinal: nat) {
    && store.sts.Some? && store.sts.value.body.retention.Some?
    && if store.sts.value.deleting then store.sts.value.body.retention.value.whenDeleted.Delete?
       else store.sts.value.body.retention.value.whenScaled.Delete? && ordinal >= store.sts.value.body.replicas
  }

  function Reap(id: Instance, store: Store, template: nat, ordinal: nat): Store {
    if !MayReap(store, ordinal) || template >= |store.sts.value.body.templates| then store
    else
      store.(claims := store.claims -
        {Names.ClaimName(store.sts.value.body.templates[template].name, id.name, ordinal)})
  }

  function Finish(store: Store): Store {
    if store.sts.Some? && store.sts.value.deleting then store.(sts := None) else store
  }

  function SetData(store: Store, configMap: Option<Files>, caSecret: Option<Files>): Store {
    var first := if configMap.None? then store.(configMap := None) else PutConfigMap(store, configMap.value);
    if caSecret.None? then first.(caSecret := None) else PutCaSecret(first, caSecret.value)
  }

  function Surroundings(id: Instance, store: Store, a: Action): Store
    requires !a.Operator?
  {
    match a
    case EditSpec(cr, rendered) => store.(cr := cr, rendered := rendered)
    case RotateCa(rootCa) => store.(rootCa := rootCa)
    case FinishDeletion => Finish(store)
    case BornClaim(template, ordinal, defaultClass) => Bear(id, store, template, ordinal, defaultClass)
    case ReapClaim(template, ordinal) => Reap(id, store, template, ordinal)
    case OutsideClaim(name, content) =>
      if content.None? then store.(claims := store.claims - {name}) else PutClaim(store, name, content.value)
    case OutsideSet(sts) =>
      if sts.None? then store.(sts := None) else PutSet(store, Admit(sts.value.body), sts.value.deleting)
    case OutsideData(configMap, caSecret) => SetData(store, configMap, caSecret)
  }

  ghost function Next(id: Instance, w: World, a: Action): World {
    if a.Operator? then Operate(id, w, a.fault, a.answers) else w.(store := Surroundings(id, w.store, a))
  }

  // ---------- runs ----------

  ghost predicate IsRun(id: Instance, ws: seq<World>, acts: seq<Action>) {
    |ws| == |acts| + 1 && forall i :: 0 <= i < |acts| ==> ws[i + 1] == Next(id, ws[i], acts[i])
  }

  // ---------- basic invariant: versions identify contents ----------

  /** Every stored claim is in the history under its own name; versions come from the clock. */
  ghost predicate ClaimHistory(store: Store) {
    && (forall name :: name in store.claims ==> store.claims[name].name == name && Known(store, store.claims[name]))
    && (forall v :: v in store.seen ==> v <= store.clock)
  }

  ghost predicate PlanOf(id: Instance, plan: Plan) {
    Parses(plan.job.spec) && plan.desired == Desired(id.name, plan.job.spec, ChecksumOf(id, plan.job.files))
  }

  ghost predicate PhaseInv(id: Instance, store: Store, op: Phase) {
    match op
    case ConfigMapRead(_, found) => found.Some? ==> KnownData(store.seenMaps, found.value)
    case CaRead(_, _, found) => found.Some? ==> KnownData(store.seenSecrets, found.value)
    case Creating(plan) => PlanOf(id, plan)
    case SetRead(plan, found) => PlanOf(id, plan) && KnownSet(store, found)
    case Resizing(plan, found, size, wantedClass, pending) =>
      && PlanOf(id, plan) && KnownSet(store, found)
      && Persists(plan.job.spec) && size == DesiredSize(plan.job.spec) && wantedClass == DesiredClass(plan.job.spec)
      && PossibleListing(id, store, pending)
    case Deciding(plan, found) => PlanOf(id, plan) && KnownSet(store, found)
    case Ready(plan) => PlanOf(id, plan)
    case _ => true
  }

  ghost predicate DataHistory(stored: Option<StoredData>, history: map<nat, StoredData>, clock: nat) {
    && (stored.Some? ==> KnownData(history, stored.value))
    && (forall v :: v in history ==> v <= clock)
  }

  /** The stored StatefulSet is in the history, and the server's defaults are filled in. */
  ghost predicate SetHistory(store: Store) {
    && (store.sts.Some? ==> KnownSet(store, store.sts.value))
    && (forall v :: v in store.seenSets ==> v <= store.clock && Admit(store.seenSets[v].body) == store.seenSets[v].body)
  }

  /** Histories and versions are in order. */
  ghost predicate StoreInv(store: Store) {
    && ClaimHistory(store) && SetHistory(store)
    && DataHistory(store.configMap, store.seenMaps, store.clock)
    && DataHistory(store.caSecret, store.seenSecrets, store.clock)
  }

  ghost predicate Inv(id: Instance, w: World) {
    StoreInv(w.store) && PhaseInv(id, w.store, w.op)
  }

  ghost predicate Extends<T(!new)>(before: map<nat, T>, after: map<nat, T>) {
    forall v :: v in before ==> v in after && after[v] == before[v]
  }

  /** Later stores know every version of earlier ones. */
  ghost predicate Follows(before: Store, after: Store) {
    && before.clock <= after.clock
    && Extends(before.seen, after.seen)
    && Extends(before.seenSets, after.seenSets)
    && Extends(before.seenMaps, after.seenMaps)
    && Extends(before.seenSecrets, after.seenSecrets)
  }

  ghost predicate GoodStep(before: Store, after: Store) {
    StoreInv(after) && Follows(before, after)
  }

  lemma FollowsKeepsPhase(id: Instance, before: Store, after: Store, op: Phase)
    requires Follows(before, after) && PhaseInv(id, before, op)
    ensures PhaseInv(id, after, op)
  {
  }

  lemma PutClaimGood(store: Store, name: string, claim: Claim)
    requires StoreInv(store)
    ensures GoodStep(store, PutClaim(store, name, claim))
  {
    assert store.clock + 1 !in store.seen;
  }

  lemma PutSetGood(store: Store, body: StatefulSet, deleting: bool)
    requires StoreInv(store) && Admit(body) == body
    ensures GoodStep(store, PutSet(store, body, deleting))
  {
  }

  lemma PutConfigMapGood(store: Store, data: Files)
    requires StoreInv(store)
    ensures GoodStep(store, PutConfigMap(store, data))
  {
  }

  lemma PutCaSecretGood(store: Store, data: Files)
    requires StoreInv(store)
    ensures GoodStep(store, PutCaSecret(store, data))
  {
  }

  lemma DropDataGood(store: Store)
    requires StoreInv(store)
    ensures GoodStep(store, store.(configMap := None)) && GoodStep(store, store.(caSecret := None))
  {
  }

  lemma GoodChain(a: Store, b: Store, c: Store)
    requires GoodStep(a, b) && GoodStep(b, c)
    ensures GoodStep(a, c)
  {
  }

  lemma SetDataGood(store: Store, configMap: Option<Files>, caSecret: Option<Files>)
    requires StoreInv(store)
    ensures GoodStep(store, SetData(store, configMap, caSecret))
  {
    var first := if configMap.None? then store.(configMap := None) else PutConfigMap(store, configMap.value);
    DropDataGood(store);
    if configMap.Some? {
      PutConfigMapGood(store, configMap.value);
    }
    DropDataGood(first);
    if caSecret.Some? {
      PutCaSecretGood(first, caSecret.value);
    }
    GoodChain(store, first, SetData(store, configMap, caSecret));
  }

  lemma FinishGood(store: Store)
    requires StoreInv(store)
    ensures GoodStep(store, Finish(store)) && GoodStep(store, store.(sts := None))
  {
    assert GoodStep(store, store.(sts := None));
    assert GoodStep(store, store);
  }

  lemma EditGood(store: Store, cr: CrSpec, rendered: Option<Files>, rootCa: Option<Files>)
    requires StoreInv(store)
    ensures GoodStep(store, store.(cr := cr, rendered := rendered)) && GoodStep(store, store.(rootCa := rootCa))
  {
  }

  lemma SurroundingsGood(id: Instance, store: Store, a: Action)
    requires StoreInv(store) && !a.Operator?
    ensures GoodStep(store, Surroundings(id, store, a))
  {
    match a
    case BornClaim(template, ordinal, defaultClass) =>
      if IsMissing(id, store, template, ordinal) {
        var body := store.sts.value.body;
        var claim := NewClaim(id, body, body.templates[template], ordinal, defaultClass);
        PutClaimGood(store, claim.name, claim);
      } else {
        assert GoodStep(store, store);
      }
    case OutsideClaim(name, content) =>
      if content.Some? {
        PutClaimGood(store, name, content.value);
      } else {
        DropClaimGood(store, name);
      }
    case OutsideSet(sts) =>
      if sts.Some? {
        AdmitIdempotent(sts.value.body);
        PutSetGood(store, Admit(sts.value.body), sts.value.deleting);
      } else {
        FinishGood(store);
      }
    case OutsideData(configMap, caSecret) => SetDataGood(store, configMap, caSecret);
    case ReapClaim(template, ordinal) => ReapGood(id, store, template, ordinal);
    case FinishDeletion => FinishGood(store);
    case EditSpec(cr, rendered) => EditGood(store, cr, rendered, None);
    case RotateCa(rootCa) => EditGood(store, store.cr, None, rootCa);
  }

  lemma ReapGood(id: Instance, store: Store, template: nat, ordinal: nat)
    requires StoreInv(store)
    ensures GoodStep(store, Reap(id, store, template, ordinal))
  {
    if MayReap(store, ordinal) && template < |store.sts.value.body.templates| {
      DropClaimGood(store, Names.ClaimName(store.sts.value.body.templates[template].name, id.name, ordinal));
    }
  }

  lemma DropClaimGood(store: Store, name: string)
    requires StoreInv(store)
    ensures GoodStep(store, store.(claims := store.claims - {name}))
  {
  }

  /** A resize step leaves the store alone, or expands the first listed claim, which is stored
      exactly as listed, selected, of the wanted class and smaller than wanted. */
  ghost predicate Expands(id: Instance, w: World, after: Store)
    requires w.op.Resizing?
  {
    && |w.op.pending| > 0
    && var c := w.op.pending[0];
       && c.name in w.store.claims && w.store.claims[c.name] == c && SelectedBy(id, c)
       && (w.op.wantedClass != "" ==> c.storageClass == Some(w.op.wantedClass))
       && Size(c.request) < w.op.size
       && after == PutClaim(w.store, c.name, c.(request := Some(w.op.size)))
  }

  lemma ResizeEffect(id: Instance, w: World, fault: Fault)
    requires Inv(id, w) && w.op.Resizing?
    ensures ResizeNext(id, w, fault).store == w.store || Expands(id, w, ResizeNext(id, w, fault).store)
  {
    if |w.op.pending| > 0 {
      var c := w.op.pending[0];
      assert Known(w.store, c) && Labelled(id, c);
      if c.name in w.store.claims && w.store.claims[c.name].version == c.version {
        assert Known(w.store, w.store.claims[c.name]);
        assert w.store.claims[c.name] == c;
      }
    }
  }

  lemma ResizeGood(id: Instance, w: World, fault: Fault)
    requires Inv(id, w) && w.op.Resizing?
    ensures GoodStep(w.store, ResizeNext(id, w, fault).store)
  {
    ResizeEffect(id, w, fault);
    if ResizeNext(id, w, fault).store != w.store {
      var c := w.op.pending[0];
      PutClaimGood(w.store, c.name, c.(request := Some(w.op.size)));
    }
  }

  /** The last decision leaves the store alone, marks the StatefulSet as being deleted, or
      replaces it, if it is still the one that was read, by its update. */
  ghost predicate Marks(w: World, after: Store)
    requires w.op.Deciding?
  {
    && RequiresRecreation(w.op.found.body, w.op.plan.desired) && !w.op.found.deleting
    && w.store.sts.Some? && !w.store.sts.value.deleting
    && after == PutSet(w.store, w.store.sts.value.body, true)
  }

  ghost predicate Rewrites(w: World, after: Store)
    requires w.op.Deciding?
  {
    var body := Admit(Updated(w.op.found.body, w.op.plan.desired));
    && !RequiresRecreation(w.op.found.body, w.op.plan.desired)
    && w.store.sts == Some(w.op.found) && body != w.op.found.body
    && after == PutSet(w.store, body, w.op.found.deleting)
  }

  lemma DecideEffect(id: Instance, w: World, fault: Fault)
    requires Inv(id, w) && w.op.Deciding?
    ensures var after := Decide(w, fault).store;
            after == w.store || Marks(w, after) || Rewrites(w, after)
  {
  }

  lemma WriteConfigMapGood(id: Instance, w: World, fault: Fault)
    requires Inv(id, w) && w.op.ConfigMapRead?
    ensures GoodStep(w.store, WriteConfigMap(w, fault).store) && PhaseInv(id, w.store, WriteConfigMap(w, fault).op)
  {
    PutConfigMapGood(w.store, w.op.job.files);
    WriteConfigMapEffect(w, fault);
    assert GoodStep(w.store, w.store);
  }

  lemma WriteCaGood(id: Instance, w: World, fault: Fault)
    requires Inv(id, w) && w.op.CaRead?
    ensures GoodStep(w.store, WriteCa(w, fault).store) && PhaseInv(id, w.store, WriteCa(w, fault).op)
  {
    PutCaSecretGood(w.store, Bundle(w.op.ca));
    WriteCaEffect(w, fault);
    assert GoodStep(w.store, w.store);
  }

  lemma DecideGood(id: Instance, w: World, fault: Fault)
    requires Inv(id, w) && w.op.Deciding?
    ensures GoodStep(w.store, Decide(w, fault).store)
  {
    var after := Decide(w, fault).store;
    DecideEffect(id, w, fault);
    if Marks(w, after) {
      PutSetGood(w.store, w.store.sts.value.body, true);
    } else if Rewrites(w, after) {
      var body := Updated(w.op.found.body, w.op.plan.desired);
      AdmitIdempotent(body);
      PutSetGood(w.store, Admit(body), w.op.found.deleting);
    }
  }

  lemma DecidePhase(id: Instance, w: World, fault: Fault)
    requires PhaseInv(id, w.store, w.op) && w.op.Deciding?
    ensures PhaseInv(id, w.store, Decide(w, fault).op)
  {
    DecideLeads(w, fault);
  }

  lemma CreateGood(id: Instance, w: World, fault: Fault)
    requires Inv(id, w) && w.op.Creating?
    ensures GoodStep(w.store, CreateDesired(w, fault).store) && PhaseInv(id, w.store, CreateDesired(w, fault).op)
  {
    var body := Admit(w.op.plan.desired);
    AdmitIdempotent(w.op.plan.desired);
    PutSetGood(w.store, body, false);
    CreateEffect(w, fault);
    assert GoodStep(w.store, w.store);
  }

  lemma ResizePhase(id: Instance, w: World, fault: Fault)
    requires PhaseInv(id, w.store, w.op) && w.op.Resizing?
    ensures PhaseInv(id, w.store, ResizeNext(id, w, fault).op)
  {
    ResizeLeads(id, w, fault);
  }

  lemma ReadSetPhase(id: Instance, w: World, fault: Fault, cache: Cache)
    requires SetHistory(w.store) && w.op.CaDone?
    ensures ReadSet(id, w, fault, cache).store == w.store && PhaseInv(id, w.store, ReadSet(id, w, fault, cache).op)
  {
  }

  lemma ListPhase(id: Instance, w: World, fault: Fault, listing: seq<Claim>)
    requires PhaseInv(id, w.store, w.op) && w.op.SetRead?
    ensures ListClaims(id, w, fault, listing).store == w.store
    ensures PhaseInv(id, w.store, ListClaims(id, w, fault, listing).op)
  {
  }

  lemma ReadPhase(id: Instance, w: World, fault: Fault, answers: Answers)
    requires Inv(id, w)
    requires w.op.Idle? || w.op.Rendered? || w.op.ConfigMapDone? || w.op.RootCaRead? || w.op.Ready? || w.op.Failed?
    ensures Operate(id, w, fault, answers).store == w.store
    ensures PhaseInv(id, w.store, Operate(id, w, fault, answers).op)
  {
  }

  /** The store after an operator step, and the phase over the store before it. */
  lemma OperateGood(id: Instance, w: World, fault: Fault, answers: Answers)
    requires Inv(id, w)
    ensures GoodStep(w.store, Operate(id, w, fault, answers).store)
    ensures PhaseInv(id, w.store, Operate(id, w, fault, answers).op)
  {
    assert GoodStep(w.store, w.store);
    match w.op
    case ConfigMapRead(_, _) => WriteConfigMapGood(id, w, fault);
    case CaRead(_, _, _) => WriteCaGood(id, w, fault);
    case CaDone(_, _) => ReadSetPhase(id, w, fault, answers.cache);
    case Creating(_) => CreateGood(id, w, fault);
    case SetRead(_, _) => ListPhase(id, w, fault, answers.listing);
    case Resizing(_, _, _, _, _) =>
      ResizeGood(id, w, fault);
      ResizePhase(id, w, fault);
    case Deciding(_, _) =>
      DecideGood(id, w, fault);
      DecidePhase(id, w, fault);
    case _ => ReadPhase(id, w, fault, answers);
  }

  lemma ListLeads(id: Instance, w: World, fault: Fault, listing: seq<Claim>)
    requires w.op.SetRead?
    ensures var after := ListClaims(id, w, fault, listing);
            && after.store == w.store
            && ((after.op.Failed? && (after.op.error.ApiFailure? || after.op.error.BadSize?))
                || after.op == Deciding(w.op.plan, w.op.found)
                || (after.op.Resizing? && after.op.plan == w.op.plan && after.op.found == w.op.found))
  {
  }

  lemma DecideUpdates(id: Instance, w: World, fault: Fault, answers: Answers)
    requires w.op.Deciding? && !RequiresRecreation(w.op.found.body, w.op.plan.desired)
    requires Updated(w.op.found.body, w.op.plan.desired) != w.op.found.body
    ensures Operate(id, w, fault, answers) ==
              Write(w, fault, UpdateSet(w.store, w.op.found.(body := Updated(w.op.found.body, w.op.plan.desired))),
                    Ready(w.op.plan))
  {
  }

  lemma DecideDeletes(id: Instance, w: World, fault: Fault, answers: Answers)
    requires w.op.Deciding? && RequiresRecreation(w.op.found.body, w.op.plan.desired) && !w.op.found.deleting
    ensures Operate(id, w, fault, answers) == Write(w, fault, DeleteSet(w.store), Idle)
  {
  }

  lemma ResizeUpdates(id: Instance, w: World, fault: Fault, answers: Answers)
    requires w.op.Resizing? && |w.op.pending| > 0 && HasPrefix(w.op.pending[0].name, Names.ClaimPrefix(id.name))
    requires Prepare(w.op.pending[0], w.op.size, w.op.wantedClass).Resized?
    ensures Operate(id, w, fault, answers) ==
              Write(w, fault, UpdateClaim(w.store, Prepare(w.op.pending[0], w.op.size, w.op.wantedClass).claim),
                    w.op.(pending := w.op.pending[1..]))
  {
  }

  lemma OperateLists(id: Instance, w: World, fault: Fault, answers: Answers)
    requires w.op.SetRead? && Persists(w.op.plan.job.spec) && Parses(w.op.plan.job.spec)
    requires PossibleListing(id, w.store, answers.listing)
    ensures var spec := w.op.plan.job.spec;
            Operate(id, w, fault, answers) ==
              Read(w, fault, Resizing(w.op.plan, w.op.found, DesiredSize(spec), DesiredClass(spec), answers.listing))
  {
  }

  lemma ReadSetLeads(id: Instance, w: World, fault: Fault, cache: Cache)
    requires w.op.CaDone?
    ensures var next := ReadSet(id, w, fault, cache).op;
            || next.Failed?
            || ((next.Creating? || next.SetRead?) && next.plan.job == w.op.job && next.plan.ca == w.op.ca)
  {
  }

  /** Outsiders who write ConfigMap and CA secret touch nothing else. */
  lemma SetDataFrame(store: Store, configMap: Option<Files>, caSecret: Option<Files>)
    ensures var after := SetData(store, configMap, caSecret);
            && SameInputs(store, after)
            && after.sts == store.sts && after.seenSets == store.seenSets
            && after.claims == store.claims && after.seen == store.seen
  {
  }

  /** What the other writing steps do to the store, and where they lead. */
  lemma CreateEffect(w: World, fault: Fault)
    requires w.op.Creating?
    ensures CreateDesired(w, fault).store in {w.store, PutSet(w.store, Admit(w.op.plan.desired), false)}
    ensures CreateDesired(w, fault).op.Failed? || CreateDesired(w, fault).op == Ready(w.op.plan)
  {
  }

  lemma WriteConfigMapEffect(w: World, fault: Fault)
    requires w.op.ConfigMapRead?
    ensures WriteConfigMap(w, fault).store in {w.store, PutConfigMap(w.store, w.op.job.files)}
    ensures WriteConfigMap(w, fault).op.Failed? || WriteConfigMap(w, fault).op == ConfigMapDone(w.op.job)
  {
  }

  lemma WriteCaEffect(w: World, fault: Fault)
    requires w.op.CaRead?
    ensures WriteCa(w, fault).store in {w.store, PutCaSecret(w.store, Bundle(w.op.ca))}
    ensures WriteCa(w, fault).op.Failed? || WriteCa(w, fault).op == CaDone(w.op.job, w.op.ca)
  {
  }

  lemma DecideLeads(w: World, fault: Fault)
    requires w.op.Deciding?
    ensures Decide(w, fault).op.Failed? || Decide(w, fault).op.Idle? || Decide(w, fault).op == Ready(w.op.plan)
  {
  }

  lemma ResizeLeads(id: Instance, w: World, fault: Fault)
    requires w.op.Resizing?
    ensures var next := ResizeNext(id, w, fault).op;
            || next.Failed?
            || (|w.op.pending| == 0 && next == Deciding(w.op.plan, w.op.found))
            || (|w.op.pending| > 0 && next == w.op.(pending := w.op.pending[1..]))
  {
  }

  /** The parts of the store that nobody but the surroundings changes. */
  predicate SameInputs(a: Store, b: Store) {
    a.cr == b.cr && a.rendered == b.rendered && a.rootCa == b.rootCa
  }

  /** Which phase writes what. */
  predicate Frame(op: Phase, before: Store, after: Store) {
    && SameInputs(before, after)
    && (!op.Resizing? ==> after.claims == before.claims && after.seen == before.seen)
    && (!op.Creating? && !op.Deciding? ==> after.sts == before.sts && after.seenSets == before.seenSets)
    && (!op.ConfigMapRead? ==>
          after.configMap == before.configMap && after.seenMaps == before.seenMaps && after.held == before.held)
    && (!op.CaRead? ==> after.caSecret == before.caSecret && after.seenSecrets == before.seenSecrets)
  }

  lemma ResizeFrame(id: Instance, w: World, fault: Fault)
    requires w.op.Resizing?
    ensures Frame(w.op, w.store, ResizeNext(id, w, fault).store)
  {
  }

  lemma DecideFrame(w: World, fault: Fault)
    requires w.op.Deciding?
    ensures Frame(w.op, w.store, Decide(w, fault).store)
  {
  }

  lemma WriteConfigMapFrame(w: World, fault: Fault)
    requires w.op.ConfigMapRead?
    ensures Frame(w.op, w.store, WriteConfigMap(w, fault).store)
  {
    WriteConfigMapEffect(w, fault);
  }

  lemma WriteCaFrame(w: World, fault: Fault)
    requires w.op.CaRead?
    ensures Frame(w.op, w.store, WriteCa(w, fault).store)
  {
    WriteCaEffect(w, fault);
  }

  lemma ReadsFrame(id: Instance, w: World, fault: Fault, answers: Answers)
    requires !w.op.Resizing? && !w.op.Deciding? && !w.op.ConfigMapRead? && !w.op.CaRead? && !w.op.Creating?
    ensures Operate(id, w, fault, answers).store == w.store
  {
  }

  lemma OperateFrame(id: Instance, w: World, fault: Fault, answers: Answers)
    ensures Frame(w.op, w.store, Operate(id, w, fault, answers).store)
  {
    match w.op
    case ConfigMapRead(_, _) => WriteConfigMapFrame(w, fault);
    case CaRead(_, _, _) => WriteCaFrame(w, fault);
    case Creating(_) =>
    case Resizing(_, _, _, _, _) => ResizeFrame(id, w, fault);
    case Deciding(_, _) => DecideFrame(w, fault);
    case _ => ReadsFrame(id, w, fault, answers);
  }

  lemma OperateInv(id: Instance, w: World, fault: Fault, answers: Answers)
    requires Inv(id, w)
    ensures Inv(id, Operate(id, w, fault, answers))
  {
    OperateGood(id, w, fault, answers);
    var after := Operate(id, w, fault, answers);
    FollowsKeepsPhase(id, w.store, after.store, after.op);
  }

  lemma StepInv(id: Instance, w: World, a: Action)
    requires Inv(id, w)
    ensures Inv(id, Next(id, w, a))
  {
    if a.Operator? {
      OperateInv(id, w, a.fault, a.answers);
    } else {
      SurroundingsGood(id, w.store, a);
      FollowsKeepsPhase(id, w.store, Surroundings(id, w.store, a), w.op);
    }
  }

  lemma {:induction false} RunInv(id: Instance, ws: seq<World>, acts: seq<Action>, i: nat)
    requires IsRun(id, ws, acts) && Inv(id, ws[0]) && i < |ws|
    ensures Inv(id, ws[i])
  {
    if i > 0 {
      RunInv(id, ws, acts, i - 1);
      StepInv(id, ws[i - 1], acts[i - 1]);
    }
  }
}
