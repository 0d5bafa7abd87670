/** For a fixed resource that the cluster's claims can accept, every fair run reaches a state in
    which everything is as desired, and then nothing changes any more. */
module Convergence {
  import opened Text
  import opened Kube
  import opened Builder
  import opened Templates
  import opened Protocol
  import opened Consistency
  import Checksum
  import ClaimSafety
  import Rejection
  import Names

  // ---------- the premises ----------

  /** The resource, its rendering and the root CA stay as the plan has them. */
  predicate InputsAre(store: Store, plan: Plan) {
    && store.cr == plan.job.spec
    && store.rendered == Some(plan.job.files)
    && store.rootCa.Some? && "ca.crt" in store.rootCa.value && store.rootCa.value["ca.crt"] == plan.ca
  }

  /** The claim is of the wanted class, if one is named, and not larger than wanted. */
  predicate Acceptable(plan: Plan, c: Claim) {
    Persists(plan.job.spec) && Parses(plan.job.spec) ==>
      && (DesiredClass(plan.job.spec) != "" ==> c.storageClass == Some(DesiredClass(plan.job.spec)))
      && Size(c.request) <= DesiredSize(plan.job.spec)
  }

  /** Claims beyond the scale may be reaped while the StatefulSet stands, and be born again. */
  predicate ReapsScaled(body: StatefulSet) {
    body.retention.Some? && body.retention.value.whenScaled.Delete?
  }

  /** Claims that may still be born from the stored templates are acceptable as well. */
  ghost predicate BirthsAcceptable(id: Instance, claims: map<string, Claim>, body: StatefulSet, plan: Plan) {
    forall t: nat, n: nat, c ::
      t < |body.templates|
      && (ReapsScaled(body) || Names.ClaimName(body.templates[t].name, id.name, n) !in claims)
      && SelectedBy(id, NewClaim(id, body, body.templates[t], n, c)) ==>
        Acceptable(plan, NewClaim(id, body, body.templates[t], n, c))
  }

  /** The stored object can be brought to the desired form, by recreation or by an update. */
  predicate Changeable(body: StatefulSet, desired: StatefulSet) {
    RequiresRecreation(body, desired) || body.revisionHistoryLimit == Admit(desired).revisionHistoryLimit
  }

  /** The resource is one the stored objects can accept: no selected claim, present or to be
      born, is larger or of another class, the stored template is not of another class, and the
      server will not refuse the update. Of a StatefulSet that is being deleted nothing is asked. */
  ghost predicate Accepted(id: Instance, store: Store, plan: Plan) {
    && (forall name :: name in store.claims && SelectedBy(id, store.claims[name]) ==> Acceptable(plan, store.claims[name]))
    && (store.sts.Some? && !store.sts.value.deleting ==>
          && ValidateClassChange(store.sts.value.body.templates, plan.desired.templates).None?
          && BirthsAcceptable(id, store.claims, store.sts.value.body, plan)
          && Changeable(store.sts.value.body, plan.desired))
  }

  /** Reconciles with any faults, lists and answers to Gets, and what the controllers do: claim
      creations, claims reaped by the stored retention policy, and finished deletions. */
  predicate Allowed(a: Action) {
    a.Operator? || a.FinishDeletion? || a.BornClaim? || a.ReapClaim?
  }

  /** The operator's Gets are answered with what is stored. */
  predicate UpToDate(a: Action) {
    a.Operator? ==> a.answers.cache.Fresh?
  }

  predicate OnPlan(op: Phase, plan: Plan) {
    match op
    case Rendered(job) => job == plan.job
    case ConfigMapRead(job, _) => job == plan.job
    case ConfigMapDone(job) => job == plan.job
    case RootCaRead(job, ca) => job == plan.job && ca == plan.ca
    case CaRead(job, ca, _) => job == plan.job && ca == plan.ca
    case CaDone(job, ca) => job == plan.job && ca == plan.ca
    case Creating(p) => p == plan
    case SetRead(p, _) => p == plan
    case Resizing(p, _, _, _, _) => p == plan
    case Deciding(p, _) => p == plan
    case Ready(p) => p == plan
    case _ => true
  }

  /** What holds of every world of such a run. */
  ghost predicate Tame(id: Instance, w: World, plan: Plan) {
    && PlanOf(id, plan)
    && Inv(id, w)
    && InputsAre(w.store, plan)
    && OnPlan(w.op, plan)
    && Accepted(id, w.store, plan)
  }

  /** And what holds once Gets are up to date. */
  ghost predicate Steady(id: Instance, w: World, plan: Plan) {
    Tame(id, w, plan) && Established(w.store, w.op)
  }

  // ---------- the goal ----------

  /** Everything the operator and the controller are responsible for is in place. */
  ghost predicate Converged(id: Instance, store: Store, plan: Plan) {
    && store.sts.Some? && !store.sts.value.deleting
    && AgreesButSize(store.sts.value.body, Admit(plan.desired))
    && (forall t: nat, n: nat :: t < |store.sts.value.body.templates| && n < store.sts.value.body.replicas ==>
          Names.ClaimName(store.sts.value.body.templates[t].name, id.name, n) in store.claims)
    && (Persists(plan.job.spec) && Parses(plan.job.spec) ==>
          forall name :: name in store.claims && SelectedBy(id, store.claims[name]) ==>
            && Size(store.claims[name].request) == DesiredSize(plan.job.spec)
            && (DesiredClass(plan.job.spec) != "" ==>
                  store.claims[name].storageClass == Some(DesiredClass(plan.job.spec))))
    && HoldsFiles(store, plan.job.files) && HoldsCa(store, plan.ca)
  }

  // ---------- the measure ----------

  predicate Stale(body: StatefulSet, desired: StatefulSet) {
    Admit(Updated(body, desired)) != body
  }

  /** How far the StatefulSet is from its final form: to be deleted, being deleted, absent, out
      of date, in place. */
  function Rank(store: Store, desired: StatefulSet): nat {
    if store.sts.None? then 2
    else
      var found := store.sts.value;
      var recreate := RequiresRecreation(found.body, desired);
      if found.deleting then (if !recreate && Stale(found.body, desired) then 4 else 3)
      else if recreate then 5
      else if Stale(found.body, desired) then 1 else 0
  }

  /** Template and ordinal of every claim the controller still has to create. */
  function Missing(id: Instance, store: Store): set<(nat, nat)> {
    if store.sts.None? then {}
    else
      set t: nat, n: nat | t < |store.sts.value.body.templates| && n < store.sts.value.body.replicas
                           && IsMissing(id, store, t, n) :: (t, n)
  }

  predicate IsBelow(id: Instance, c: Claim, plan: Plan) {
    Persists(plan.job.spec) && Parses(plan.job.spec) && SelectedBy(id, c) && Size(c.request) < DesiredSize(plan.job.spec)
  }

  /** The selected claims below the desired size. */
  function Below(id: Instance, store: Store, plan: Plan): set<string> {
    set name | name in store.claims && IsBelow(id, store.claims[name], plan)
  }

  function ConfigDebt(store: Store, plan: Plan): nat {
    (if HoldsFiles(store, plan.job.files) then 0 else 1) + (if HoldsCa(store, plan.ca) then 0 else 1)
  }

  datatype Measure = Measure(rank: nat, missing: nat, claims: nat, below: nat, config: nat)

  predicate Smaller(a: Measure, b: Measure) {
    || a.rank < b.rank
    || (a.rank == b.rank &&
        (a.missing < b.missing ||
         (a.missing == b.missing &&
          (a.claims < b.claims ||
           (a.claims == b.claims &&
            (a.below < b.below ||
             (a.below == b.below && a.config < b.config)))))))
  }

  function MeasureOf(id: Instance, store: Store, plan: Plan): Measure {
    Measure(Rank(store, plan.desired), |Missing(id, store)|, |store.claims.Keys|, |Below(id, store, plan)|,
            ConfigDebt(store, plan))
  }

  /** The objects the users of the cluster see. */
  datatype View = View(sts: Option<StoredSet>, claims: map<string, Claim>, configMap: Option<StoredData>,
                       caSecret: Option<StoredData>)

  function ViewOf(store: Store): View {
    View(store.sts, store.claims, store.configMap, store.caSecret)
  }

  /** A step either changes nothing visible or makes progress. */
  ghost predicate Progresses(id: Instance, before: Store, after: Store, plan: Plan) {
    ViewOf(after) == ViewOf(before) || Smaller(MeasureOf(id, after, plan), MeasureOf(id, before, plan))
  }

  // ---------- every step progresses ----------

  lemma ConfigMapProgress(id: Instance, w: World, fault: Fault, plan: Plan)
    requires Steady(id, w, plan) && w.op.ConfigMapRead?
    ensures Progresses(id, w.store, WriteConfigMap(w, fault).store, plan)
  {
    var after := WriteConfigMap(w, fault).store;
    WriteConfigMapFrame(w, fault);
    SameSetAndClaims(id, w.store, after, plan);
  }

  lemma CaProgress(id: Instance, w: World, fault: Fault, plan: Plan)
    requires Steady(id, w, plan) && w.op.CaRead?
    ensures Progresses(id, w.store, WriteCa(w, fault).store, plan)
  {
    var after := WriteCa(w, fault).store;
    WriteCaFrame(w, fault);
    SameSetAndClaims(id, w.store, after, plan);
  }

  lemma SameSetAndClaims(id: Instance, before: Store, after: Store, plan: Plan)
    requires after.sts == before.sts && after.claims == before.claims
    ensures Rank(after, plan.desired) == Rank(before, plan.desired)
    ensures Missing(id, after) == Missing(id, before)
    ensures Below(id, after, plan) == Below(id, before, plan)
  {
  }

  /** What is built matches itself and needs no update. */
  lemma DesiredInPlace(id: Instance, plan: Plan)
    requires PlanOf(id, plan)
    ensures !RequiresRecreation(Admit(plan.desired), plan.desired) && !Stale(Admit(plan.desired), plan.desired)
    ensures Changeable(Admit(plan.desired), plan.desired)
    ensures ValidateClassChange(Admit(plan.desired).templates, plan.desired.templates).None?
  {
    DesiredAgreesWithItself(id, plan);
  }

  lemma CreateProgress(id: Instance, w: World, fault: Fault, plan: Plan)
    requires Steady(id, w, plan) && w.op.Creating?
    ensures Progresses(id, w.store, CreateDesired(w, fault).store, plan)
  {
    DesiredInPlace(id, plan);
    assert Rank(PutSet(w.store, Admit(plan.desired), false), plan.desired) == 0;
    assert CreateDesired(w, fault).store == w.store ||
           CreateDesired(w, fault).store == PutSet(w.store, Admit(plan.desired), false);
  }

  lemma DecideProgress(id: Instance, w: World, fault: Fault, plan: Plan)
    requires Steady(id, w, plan) && w.op.Deciding?
    ensures Progresses(id, w.store, Decide(w, fault).store, plan)
  {
    var after := Decide(w, fault).store;
    DecideEffect(id, w, fault);
    if Rewrites(w, after) {
      RewriteProgress(id, w, after, plan);
    }
  }

  lemma RewriteProgress(id: Instance, w: World, after: Store, plan: Plan)
    requires Steady(id, w, plan) && w.op.Deciding? && Rewrites(w, after)
    ensures Rank(after, plan.desired) < Rank(w.store, plan.desired)
  {
    UpdateLegalAndSufficient(w.op.found.body, plan.desired);
  }

  lemma ResizeProgress(id: Instance, w: World, fault: Fault, plan: Plan)
    requires Steady(id, w, plan) && w.op.Resizing?
    ensures Progresses(id, w.store, ResizeNext(id, w, fault).store, plan)
  {
    var after := ResizeNext(id, w, fault).store;
    ResizeEffect(id, w, fault);
    if after != w.store {
      ExpandProgress(id, w, after, plan);
    }
  }

  lemma ExpandProgress(id: Instance, w: World, after: Store, plan: Plan)
    requires Steady(id, w, plan) && w.op.Resizing? && Expands(id, w, after)
    ensures Progresses(id, w.store, after, plan)
  {
    var c := w.op.pending[0];
    assert after.claims.Keys == w.store.claims.Keys;
    assert Missing(id, after) == Missing(id, w.store);
    assert IsBelow(id, c, plan) && c.name in Below(id, w.store, plan);
    assert c.name !in Below(id, after, plan);
    assert Below(id, after, plan) <= Below(id, w.store, plan);
    StrictSubsetSmaller(Below(id, after, plan), Below(id, w.store, plan), c.name);
  }

  lemma BornProgress(id: Instance, store: Store, template: nat, ordinal: nat, c: Option<string>, plan: Plan)
    ensures Progresses(id, store, Bear(id, store, template, ordinal, c), plan)
    ensures IsMissing(id, store, template, ordinal) ==> ViewOf(Bear(id, store, template, ordinal, c)) != ViewOf(store)
  {
    if IsMissing(id, store, template, ordinal) {
      var after := Bear(id, store, template, ordinal, c);
      var name := Names.ClaimName(store.sts.value.body.templates[template].name, id.name, ordinal);
      assert name in after.claims && name !in store.claims;
      assert (template, ordinal) in Missing(id, store);
      assert (template, ordinal) !in Missing(id, after);
      assert Missing(id, after) <= Missing(id, store);
      StrictSubsetSmaller(Missing(id, after), Missing(id, store), (template, ordinal));
    }
  }

  /** A claim that is reaped was not to be created again: the set is being deleted, or the claim
      is beyond its scale. */
  lemma ReapKeepsMissing(id: Instance, store: Store, template: nat, ordinal: nat)
    ensures Missing(id, Reap(id, store, template, ordinal)) == Missing(id, store)
  {
    if MayReap(store, ordinal) && template < |store.sts.value.body.templates| && !store.sts.value.deleting {
      var body := store.sts.value.body;
      forall t: nat, n: nat | t < |body.templates| && n < body.replicas
        ensures Names.ClaimName(body.templates[t].name, id.name, n)
                != Names.ClaimName(body.templates[template].name, id.name, ordinal)
      {
        if Names.ClaimName(body.templates[t].name, id.name, n)
           == Names.ClaimName(body.templates[template].name, id.name, ordinal)
        {
          Names.ClaimNameOrdinal(body.templates[t].name, body.templates[template].name, id.name, n, ordinal);
        }
      }
    }
  }

  lemma ReapProgress(id: Instance, store: Store, template: nat, ordinal: nat, plan: Plan)
    ensures Progresses(id, store, Reap(id, store, template, ordinal), plan)
  {
    var after := Reap(id, store, template, ordinal);
    ReapKeepsMissing(id, store, template, ordinal);
    if MayReap(store, ordinal) && template < |store.sts.value.body.templates| {
      var name := Names.ClaimName(store.sts.value.body.templates[template].name, id.name, ordinal);
      if name in store.claims {
        assert name in store.claims.Keys && after.claims.Keys == store.claims.Keys - {name};
        StrictSubsetSmaller(after.claims.Keys, store.claims.Keys, name);
      } else {
        assert after.claims == store.claims;
      }
    }
  }

  /** Each visible change, by whoever, decreases the measure. */
  lemma StepProgress(id: Instance, w: World, a: Action, plan: Plan)
    requires Steady(id, w, plan) && Allowed(a) && UpToDate(a)
    ensures Progresses(id, w.store, Next(id, w, a).store, plan)
  {
    match a
    case Operator(fault, answers) =>
      match w.op {
        case ConfigMapRead(_, _) => ConfigMapProgress(id, w, fault, plan);
        case CaRead(_, _, _) => CaProgress(id, w, fault, plan);
        case Creating(_) => CreateProgress(id, w, fault, plan);
        case Resizing(_, _, _, _, _) => ResizeProgress(id, w, fault, plan);
        case Deciding(_, _) => DecideProgress(id, w, fault, plan);
        case _ => ReadsFrame(id, w, fault, answers);
      }
    case BornClaim(template, ordinal, c) => BornProgress(id, w.store, template, ordinal, c, plan);
    case ReapClaim(template, ordinal) => ReapProgress(id, w.store, template, ordinal, plan);
    case FinishDeletion =>
  }

  // ---------- the premises persist ----------

  /** Acceptance depends on the claims and the set only, and is kept when claims are resized or
      born and the set keeps its templates, is rebuilt, or goes away. */
  lemma DecideAccepted(id: Instance, w: World, fault: Fault, plan: Plan)
    requires Tame(id, w, plan) && w.op.Deciding?
    ensures Accepted(id, Decide(w, fault).store, plan)
  {
    var after := Decide(w, fault).store;
    DecideEffect(id, w, fault);
    if Rewrites(w, after) {
      var body := Admit(Updated(w.op.found.body, plan.desired));
      UpdateLegalAndSufficient(w.op.found.body, plan.desired);
      SetAccepted(id, w.store, after, body, plan);
    }
  }

  /** Acceptance is kept by a StatefulSet with the same templates and selector that can be
      changed and does not reap claims. */
  lemma SetAccepted(id: Instance, before: Store, after: Store, body: StatefulSet, plan: Plan)
    requires Accepted(id, before, plan) && before.sts.Some? && after.claims == before.claims
    requires after.sts.Some? && after.sts.value.body == body && after.sts.value.deleting == before.sts.value.deleting
    requires body.templates == before.sts.value.body.templates && body.selector == before.sts.value.body.selector
    requires Changeable(body, plan.desired) && !ReapsScaled(body)
    ensures Accepted(id, after, plan)
  {
    if !before.sts.value.deleting {
      SameBirths(id, before.claims, before.sts.value.body, body, plan);
    }
  }

  lemma SameBirths(id: Instance, claims: map<string, Claim>, a: StatefulSet, b: StatefulSet, plan: Plan)
    requires a.templates == b.templates && a.selector == b.selector && BirthsAcceptable(id, claims, a, plan)
    requires !ReapsScaled(b)
    ensures BirthsAcceptable(id, claims, b, plan)
  {
    forall t: nat, n: nat, c | t < |b.templates|
      ensures NewClaim(id, b, b.templates[t], n, c) == NewClaim(id, a, a.templates[t], n, c)
    {
    }
  }

  lemma FewerBirths(id: Instance, claims: map<string, Claim>, more: map<string, Claim>, body: StatefulSet, plan: Plan)
    requires claims.Keys <= more.Keys || ReapsScaled(body)
    requires BirthsAcceptable(id, claims, body, plan)
    ensures BirthsAcceptable(id, more, body, plan)
  {
  }

  lemma CreateAccepted(id: Instance, w: World, fault: Fault, plan: Plan)
    requires Tame(id, w, plan) && w.op.Creating?
    ensures Accepted(id, CreateDesired(w, fault).store, plan)
  {
    DesiredInPlace(id, plan);
    var body := Admit(plan.desired);
    forall t: nat, n: nat, c | t < |body.templates|
      ensures Acceptable(plan, NewClaim(id, body, body.templates[t], n, c))
    {
      assert body.templates == DesiredTemplates(id.name, plan.job.spec);
    }
  }

  lemma ResizeAccepted(id: Instance, w: World, fault: Fault, plan: Plan)
    requires Tame(id, w, plan) && w.op.Resizing?
    ensures Accepted(id, ResizeNext(id, w, fault).store, plan)
  {
    var after := ResizeNext(id, w, fault).store;
    ResizeEffect(id, w, fault);
    if w.store.sts.Some? && !w.store.sts.value.deleting {
      FewerBirths(id, w.store.claims, after.claims, w.store.sts.value.body, plan);
    }
  }

  lemma BornAccepted(id: Instance, store: Store, template: nat, ordinal: nat, c: Option<string>, plan: Plan)
    requires Accepted(id, store, plan)
    ensures Accepted(id, Bear(id, store, template, ordinal, c), plan)
  {
    if IsMissing(id, store, template, ordinal) {
      var after := Bear(id, store, template, ordinal, c);
      var body := store.sts.value.body;
      var claim := NewClaim(id, body, body.templates[template], ordinal, c);
      assert SelectedBy(id, claim) ==> Acceptable(plan, claim);
      FewerBirths(id, store.claims, after.claims, body, plan);
    }
  }

  lemma ReapAccepted(id: Instance, store: Store, template: nat, ordinal: nat, plan: Plan)
    requires Accepted(id, store, plan)
    ensures Accepted(id, Reap(id, store, template, ordinal), plan)
  {
    if MayReap(store, ordinal) && !store.sts.value.deleting {
      FewerBirths(id, store.claims, Reap(id, store, template, ordinal).claims, store.sts.value.body, plan);
    }
  }

  lemma TameAccepted(id: Instance, w: World, a: Action, plan: Plan)
    requires Tame(id, w, plan) && Allowed(a)
    ensures Accepted(id, Next(id, w, a).store, plan)
  {
    match a
    case Operator(fault, answers) =>
      match w.op {
        case Creating(_) => CreateAccepted(id, w, fault, plan);
        case Resizing(_, _, _, _, _) => ResizeAccepted(id, w, fault, plan);
        case Deciding(_, _) => DecideAccepted(id, w, fault, plan);
        case _ => OperateFrame(id, w, fault, answers);
      }
    case BornClaim(template, ordinal, c) => BornAccepted(id, w.store, template, ordinal, c, plan);
    case ReapClaim(template, ordinal) => ReapAccepted(id, w.store, template, ordinal, plan);
    case FinishDeletion =>
  }

  lemma ResizeOnPlan(id: Instance, w: World, fault: Fault, plan: Plan)
    requires OnPlan(w.op, plan) && w.op.Resizing?
    ensures OnPlan(ResizeNext(id, w, fault).op, plan)
  {
  }

  lemma WritesOnPlan(w: World, fault: Fault, plan: Plan)
    requires OnPlan(w.op, plan)
    ensures w.op.ConfigMapRead? ==> OnPlan(WriteConfigMap(w, fault).op, plan)
    ensures w.op.CaRead? ==> OnPlan(WriteCa(w, fault).op, plan)
    ensures w.op.Creating? ==> OnPlan(CreateDesired(w, fault).op, plan)
    ensures w.op.Deciding? ==> OnPlan(Decide(w, fault).op, plan)
  {
  }

  lemma ReadsOnPlan(id: Instance, w: World, fault: Fault, answers: Answers, plan: Plan)
    requires PlanOf(id, plan) && InputsAre(w.store, plan) && OnPlan(w.op, plan)
    requires !w.op.Resizing? && !w.op.Deciding? && !w.op.ConfigMapRead? && !w.op.CaRead? && !w.op.Creating?
    ensures OnPlan(Operate(id, w, fault, answers).op, plan)
  {
  }

  lemma StaysOnPlan(id: Instance, w: World, fault: Fault, answers: Answers, plan: Plan)
    requires Tame(id, w, plan)
    ensures OnPlan(Operate(id, w, fault, answers).op, plan)
  {
    match w.op
    case ConfigMapRead(_, _) => WritesOnPlan(w, fault, plan);
    case CaRead(_, _, _) => WritesOnPlan(w, fault, plan);
    case Creating(_) => WritesOnPlan(w, fault, plan);
    case Deciding(_, _) => WritesOnPlan(w, fault, plan);
    case Resizing(_, _, _, _, _) => ResizeOnPlan(id, w, fault, plan);
    case _ => ReadsOnPlan(id, w, fault, answers, plan);
  }

  lemma TameStep(id: Instance, w: World, a: Action, plan: Plan)
    requires Tame(id, w, plan) && Allowed(a)
    ensures Tame(id, Next(id, w, a), plan)
  {
    StepInv(id, w, a);
    TameAccepted(id, w, a, plan);
    if a.Operator? {
      OperateFrame(id, w, a.fault, a.answers);
      StaysOnPlan(id, w, a.fault, a.answers, plan);
    }
  }

  lemma SteadyStep(id: Instance, w: World, a: Action, plan: Plan)
    requires Steady(id, w, plan) && Allowed(a) && UpToDate(a)
    ensures Steady(id, Next(id, w, a), plan)
  {
    TameStep(id, w, a, plan);
    StepConsistent(id, w, a);
  }

  // ---------- one undisturbed reconcile ----------

  /** The call succeeds, and lists and Gets are up to date. */
  ghost predicate Sound(id: Instance, w: World, a: Action) {
    UpToDate(a) && (a.Operator? ==> a.fault.NoFault? && (w.op.SetRead? ==> FreshListing(id, w.store, a.answers.listing)))
  }

  /** What the phases of a reconcile have checked, while nothing visible changes. */
  ghost predicate Certified(id: Instance, w: World, plan: Plan) {
    match w.op
    case SetRead(_, found) => w.store.sts == Some(found)
    case Resizing(_, found, _, _, pending) =>
      && w.store.sts == Some(found)
      && (forall i :: 0 <= i < |pending| ==>
            pending[i].name in w.store.claims && w.store.claims[pending[i].name] == pending[i])
      && (forall name :: name in Below(id, w.store, plan) ==> w.store.claims[name] in pending)
    case Deciding(_, found) => w.store.sts == Some(found) && Below(id, w.store, plan) == {}
    case Ready(_) =>
      && w.store.sts.Some? && Below(id, w.store, plan) == {}
      && AgreesButSize(w.store.sts.value.body, Admit(plan.desired))
      && HoldsFiles(w.store, plan.job.files) && HoldsCa(w.store, plan.ca)
    case _ => true
  }

  /** Phases and list entries left before Ready; a failure is one step from the start. */
  function Distance(op: Phase): (nat, nat) {
    match op
    case Failed(_) => (13, 0)
    case Idle => (12, 0)
    case Rendered(_) => (11, 0)
    case ConfigMapRead(_, _) => (10, 0)
    case ConfigMapDone(_) => (9, 0)
    case RootCaRead(_, _) => (8, 0)
    case CaRead(_, _, _) => (7, 0)
    case CaDone(_, _) => (6, 0)
    case Creating(_) => (5, 0)
    case SetRead(_, _) => (4, 0)
    case Resizing(_, _, _, _, pending) => (3, |pending|)
    case Deciding(_, _) => (2, 0)
    case Ready(_) => (1, 0)
  }

  predicate Nearer(a: Phase, b: Phase) {
    Distance(a).0 < Distance(b).0 || (Distance(a).0 == Distance(b).0 && Distance(a).1 < Distance(b).1)
  }

  /** The step brings the reconcile nearer to Ready, certified, unless it changes something. */
  ghost predicate Advances(id: Instance, w: World, after: World, plan: Plan) {
    ViewOf(after.store) == ViewOf(w.store) ==> Certified(id, after, plan) && Nearer(after.op, w.op)
  }

  lemma ListAdvances(id: Instance, w: World, listing: seq<Claim>, plan: Plan)
    requires Steady(id, w, plan) && Certified(id, w, plan) && w.op.SetRead? && FreshListing(id, w.store, listing)
    ensures Advances(id, w, ListClaims(id, w, NoFault, listing), plan)
  {
    assert forall i :: 0 <= i < |listing| ==> Known(w.store, listing[i]);
  }

  lemma ResizeAdvances(id: Instance, w: World, plan: Plan)
    requires Steady(id, w, plan) && Certified(id, w, plan) && w.op.Resizing?
    ensures Advances(id, w, ResizeNext(id, w, NoFault), plan)
  {
    var pending := w.op.pending;
    if |pending| == 0 {
      assert Below(id, w.store, plan) == {};
    } else {
      var c := pending[0];
      assert Known(w.store, c) && Labelled(id, c);
      assert pending == [c] + pending[1..];
      if HasPrefix(c.name, Names.ClaimPrefix(id.name)) {
        assert Acceptable(plan, w.store.claims[c.name]);
        if Size(c.request) < w.op.size {
          assert ResizeNext(id, w, NoFault).store.claims[c.name].version == w.store.clock + 1;
        }
      }
    }
  }

  lemma DecideAdvances(id: Instance, w: World, plan: Plan)
    requires Steady(id, w, plan) && Certified(id, w, plan) && w.op.Deciding? && !w.op.found.deleting
    ensures Advances(id, w, Decide(w, NoFault), plan)
  {
    UpdateLegalAndSufficient(w.op.found.body, plan.desired);
  }

  lemma WritesAdvance(id: Instance, w: World, plan: Plan)
    requires Steady(id, w, plan)
    ensures w.op.ConfigMapRead? ==> Advances(id, w, WriteConfigMap(w, NoFault), plan)
    ensures w.op.CaRead? ==> Advances(id, w, WriteCa(w, NoFault), plan)
    ensures w.op.Creating? ==> Advances(id, w, CreateDesired(w, NoFault), plan)
  {
  }

  lemma ReadsAdvance(id: Instance, w: World, answers: Answers, plan: Plan)
    requires Steady(id, w, plan) && answers.cache.Fresh? && (w.store.sts.Some? ==> !w.store.sts.value.deleting)
    requires w.op.Idle? || w.op.Rendered? || w.op.ConfigMapDone? || w.op.RootCaRead? || w.op.CaDone?
    ensures Advances(id, w, Operate(id, w, NoFault, answers), plan)
  {
  }

  lemma OperatorAdvances(id: Instance, w: World, a: Action, plan: Plan)
    requires Steady(id, w, plan) && Certified(id, w, plan) && a.Operator? && Allowed(a) && Sound(id, w, a)
    requires !w.op.Ready? && !w.op.Failed? && (w.store.sts.Some? ==> !w.store.sts.value.deleting)
    ensures Advances(id, w, Next(id, w, a), plan)
  {
    if w.op.Idle? || w.op.Rendered? || w.op.ConfigMapDone? || w.op.RootCaRead? || w.op.CaDone? {
      ReadsAdvance(id, w, a.answers, plan);
      return;
    }
    match w.op
    case SetRead(_, _) => ListAdvances(id, w, a.answers.listing, plan);
    case Resizing(_, _, _, _, _) => ResizeAdvances(id, w, plan);
    case Deciding(_, _) => DecideAdvances(id, w, plan);
    case ConfigMapRead(_, _) => WritesAdvance(id, w, plan);
    case CaRead(_, _, _) => WritesAdvance(id, w, plan);
    case Creating(_) => WritesAdvance(id, w, plan);
    case _ =>
  }

  /** The step ends the reconcile, fails it, or brings it nearer to its end. */
  predicate Drains(op: Phase, after: Phase) {
    after.Idle? || (after.Failed? && !op.Failed?) || (!after.Failed? && Nearer(after, op))
  }

  lemma WritesDrain(w: World, fault: Fault)
    ensures w.op.ConfigMapRead? ==> Drains(w.op, WriteConfigMap(w, fault).op)
    ensures w.op.CaRead? ==> Drains(w.op, WriteCa(w, fault).op)
    ensures w.op.Creating? ==> Drains(w.op, CreateDesired(w, fault).op)
    ensures w.op.Deciding? ==> Drains(w.op, Decide(w, fault).op)
  {
  }

  lemma ResizeDrains(id: Instance, w: World, fault: Fault)
    requires w.op.Resizing?
    ensures Drains(w.op, ResizeNext(id, w, fault).op)
  {
  }

  lemma ReadsDrain(id: Instance, w: World, fault: Fault, answers: Answers)
    requires !w.op.Idle?
    requires !w.op.Resizing? && !w.op.Deciding? && !w.op.ConfigMapRead? && !w.op.CaRead? && !w.op.Creating?
    ensures Drains(w.op, Operate(id, w, fault, answers).op)
  {
  }

  /** This holds from any phase, certified or not. */
  lemma OperatorDrains(id: Instance, w: World, fault: Fault, answers: Answers)
    requires !w.op.Idle?
    ensures Drains(w.op, Operate(id, w, fault, answers).op)
  {
    match w.op
    case ConfigMapRead(_, _) => WritesDrain(w, fault);
    case CaRead(_, _, _) => WritesDrain(w, fault);
    case Creating(_) => WritesDrain(w, fault);
    case Deciding(_, _) => WritesDrain(w, fault);
    case Resizing(_, _, _, _, _) => ResizeDrains(id, w, fault);
    case _ => ReadsDrain(id, w, fault, answers);
  }

  // ---------- infinite runs ----------

  ghost predicate StepAt(id: Instance, run: nat -> World, sched: nat -> Action, i: nat) {
    Allowed(sched(i)) && run(i + 1) == Next(id, run(i), sched(i))
  }

  ghost predicate IsExecution(id: Instance, run: nat -> World, sched: nat -> Action) {
    forall i: nat :: StepAt(id, run, sched, i)
  }

  ghost predicate OperatorAfter(sched: nat -> Action, i: nat) {
    exists j: nat :: i <= j && sched(j).Operator?
  }

  ghost predicate FinishAfter(sched: nat -> Action, i: nat) {
    exists j: nat :: i <= j && sched(j).FinishDeletion?
  }

  ghost predicate BornAfter(sched: nat -> Action, i: nat, t: nat, n: nat) {
    exists j: nat :: i <= j && sched(j).BornClaim? && sched(j).template == t && sched(j).ordinal == n
  }

  /** The operator, the finishing of deletions and the creation of each claim all get their turn
      again and again; a turn with nothing to do does nothing. */
  ghost predicate Fair(sched: nat -> Action) {
    && (forall i: nat :: OperatorAfter(sched, i))
    && (forall i: nat :: FinishAfter(sched, i))
    && (forall i: nat, t: nat, n: nat :: BornAfter(sched, i, t, n))
  }

  ghost predicate SoundFrom(id: Instance, run: nat -> World, sched: nat -> Action, calm: nat) {
    forall i: nat :: calm <= i ==> Sound(id, run(i), sched(i))
  }

  ghost predicate Settled(run: nat -> World, n: nat) {
    forall m: nat :: n <= m ==> ViewOf(run(m).store) == ViewOf(run(n).store)
  }

  lemma {:induction false} TameAt(id: Instance, run: nat -> World, sched: nat -> Action, plan: Plan, i: nat)
    requires IsExecution(id, run, sched) && Tame(id, run(0), plan)
    ensures Tame(id, run(i), plan)
  {
    if i > 0 {
      TameAt(id, run, sched, plan, i - 1);
      assert StepAt(id, run, sched, i - 1);
      TameStep(id, run(i - 1), sched(i - 1), plan);
    }
  }

  /** From base on, a steady world, Gets are up to date. */
  ghost predicate SteadyFrom(id: Instance, run: nat -> World, sched: nat -> Action, plan: Plan, base: nat) {
    && IsExecution(id, run, sched) && Steady(id, run(base), plan)
    && forall i: nat :: base <= i ==> UpToDate(sched(i))
  }

  lemma {:induction false} SteadyAt(id: Instance, run: nat -> World, sched: nat -> Action, plan: Plan, base: nat, i: nat)
    requires SteadyFrom(id, run, sched, plan, base) && base <= i
    ensures Steady(id, run(i), plan)
    decreases i
  {
    if i > base {
      SteadyAt(id, run, sched, plan, base, i - 1);
      assert StepAt(id, run, sched, i - 1);
      SteadyStep(id, run(i - 1), sched(i - 1), plan);
    }
  }

  lemma MeasureByView(id: Instance, a: Store, b: Store, plan: Plan)
    requires ViewOf(a) == ViewOf(b)
    ensures MeasureOf(id, a, plan) == MeasureOf(id, b, plan)
    ensures Converged(id, a, plan) <==> Converged(id, b, plan)
  {
    SameSetAndClaims(id, a, b, plan);
  }

  lemma CertifiedByView(id: Instance, a: World, b: World, plan: Plan)
    requires ViewOf(a.store) == ViewOf(b.store) && a.op == b.op
    ensures Certified(id, a, plan) <==> Certified(id, b, plan)
  {
    SameSetAndClaims(id, a.store, b.store, plan);
  }

  lemma ProgressChain(id: Instance, a: Store, b: Store, c: Store, plan: Plan)
    requires Progresses(id, a, b, plan) && Progresses(id, b, c, plan)
    ensures Progresses(id, a, c, plan)
  {
    if ViewOf(a) == ViewOf(b) {
      MeasureByView(id, a, b, plan);
    }
    if ViewOf(b) == ViewOf(c) {
      MeasureByView(id, b, c, plan);
    }
    SmallerTransitive(MeasureOf(id, c, plan), MeasureOf(id, b, plan), MeasureOf(id, a, plan));
  }

  lemma SmallerTransitive(a: Measure, b: Measure, c: Measure)
    ensures Smaller(a, b) && Smaller(b, c) ==> Smaller(a, c)
  {
  }

  ghost predicate StepProgresses(id: Instance, run: nat -> World, plan: Plan, i: nat) {
    Progresses(id, run(i).store, run(i + 1).store, plan)
  }

  lemma RunProgresses(id: Instance, run: nat -> World, sched: nat -> Action, plan: Plan, base: nat)
    requires SteadyFrom(id, run, sched, plan, base)
    ensures forall i: nat :: base <= i ==> StepProgresses(id, run, plan, i)
  {
    forall i: nat | base <= i ensures StepProgresses(id, run, plan, i) {
      SteadyAt(id, run, sched, plan, base, i);
      assert StepAt(id, run, sched, i);
      StepProgress(id, run(i), sched(i), plan);
    }
  }

  lemma {:induction false} ProgressBetween(id: Instance, run: nat -> World, plan: Plan, base: nat, i: nat, j: nat)
    requires base <= i <= j && forall k: nat :: base <= k ==> StepProgresses(id, run, plan, k)
    ensures Progresses(id, run(i).store, run(j).store, plan)
    decreases j - i
  {
    if i < j {
      ProgressBetween(id, run, plan, base, i, j - 1);
      assert StepProgresses(id, run, plan, j - 1);
      ProgressChain(id, run(i).store, run(j - 1).store, run(j).store, plan);
    }
  }

  /** The measure cannot decrease for ever: from some point on nothing visible changes. */
  lemma {:induction false} Settles(id: Instance, run: nat -> World, sched: nat -> Action, plan: Plan, base: nat, i: nat)
    returns (n: nat)
    requires SteadyFrom(id, run, sched, plan, base) && base <= i
    ensures i <= n && Settled(run, n)
    decreases Rank(run(i).store, plan.desired), |Missing(id, run(i).store)|, |run(i).store.claims.Keys|,
              |Below(id, run(i).store, plan)|, ConfigDebt(run(i).store, plan)
  {
    if Settled(run, i) {
      n := i;
    } else {
      var m: nat :| i <= m && ViewOf(run(m).store) != ViewOf(run(i).store);
      RunProgresses(id, run, sched, plan, base);
      ProgressBetween(id, run, plan, base, i, m);
      n := Settles(id, run, sched, plan, base, m);
    }
  }

  lemma SettledLater(run: nat -> World, n: nat, m: nat)
    requires Settled(run, n) && n <= m
    ensures Settled(run, m)
  {
  }

  // ---------- a settled run is a converged one ----------

  lemma NotDeleting(id: Instance, run: nat -> World, sched: nat -> Action, n: nat)
    requires IsExecution(id, run, sched) && Fair(sched) && Settled(run, n)
    ensures run(n).store.sts.Some? ==> !run(n).store.sts.value.deleting
  {
    assert FinishAfter(sched, n);
    var j: nat :| n <= j && sched(j).FinishDeletion?;
    assert StepAt(id, run, sched, j);
    assert ViewOf(run(j + 1).store) == ViewOf(run(n).store) == ViewOf(run(j).store);
  }

  lemma NoneMissing(id: Instance, run: nat -> World, sched: nat -> Action, plan: Plan, n: nat, template: nat, ordinal: nat)
    requires IsExecution(id, run, sched) && Fair(sched) && Settled(run, n)
    ensures !IsMissing(id, run(n).store, template, ordinal)
  {
    assert BornAfter(sched, n, template, ordinal);
    var j: nat :| n <= j && sched(j).BornClaim? && sched(j).template == template && sched(j).ordinal == ordinal;
    assert StepAt(id, run, sched, j);
    assert ViewOf(run(j + 1).store) == ViewOf(run(n).store) == ViewOf(run(j).store);
    BornProgress(id, run(j).store, template, ordinal, sched(j).defaultClass, plan);
  }

  /** The operator's next turn; until then its phase stands. */
  lemma {:induction false} NextTurn(id: Instance, run: nat -> World, sched: nat -> Action, i: nat, bound: nat)
    returns (j: nat)
    requires IsExecution(id, run, sched) && i <= bound && sched(bound).Operator?
    ensures i <= j && sched(j).Operator? && run(j).op == run(i).op
    decreases bound - i
  {
    if sched(i).Operator? {
      j := i;
    } else {
      assert StepAt(id, run, sched, i);
      j := NextTurn(id, run, sched, i + 1, bound);
    }
  }

  lemma Turn(id: Instance, run: nat -> World, sched: nat -> Action, i: nat) returns (j: nat)
    requires IsExecution(id, run, sched) && Fair(sched)
    ensures i <= j && sched(j).Operator? && run(j).op == run(i).op
    ensures run(j + 1) == Next(id, run(j), sched(j))
  {
    assert OperatorAfter(sched, i);
    var bound: nat :| i <= bound && sched(bound).Operator?;
    j := NextTurn(id, run, sched, i, bound);
    assert StepAt(id, run, sched, j);
  }

  function ToIdle(op: Phase): (nat, nat) {
    if op.Idle? then (0, 0) else if op.Failed? then (1, 0) else (Distance(op).0 + 2, Distance(op).1)
  }

  lemma {:induction false} ReachIdle(id: Instance, run: nat -> World, sched: nat -> Action, i: nat) returns (j: nat)
    requires IsExecution(id, run, sched) && Fair(sched)
    ensures i <= j && run(j).op.Idle?
    decreases ToIdle(run(i).op).0, ToIdle(run(i).op).1
  {
    if run(i).op.Idle? {
      j := i;
    } else {
      var k := Turn(id, run, sched, i);
      OperatorDrains(id, run(k), sched(k).fault, sched(k).answers);
      j := ReachIdle(id, run, sched, k + 1);
    }
  }

  lemma WorldAdvances(id: Instance, earlier: World, w: World, a: Action, plan: Plan)
    requires Steady(id, w, plan) && a.Operator? && Allowed(a) && Sound(id, w, a)
    requires Certified(id, earlier, plan) && w.op == earlier.op && ViewOf(w.store) == ViewOf(earlier.store)
    requires ViewOf(Next(id, w, a).store) == ViewOf(w.store)
    requires !w.op.Ready? && !w.op.Failed? && (earlier.store.sts.Some? ==> !earlier.store.sts.value.deleting)
    ensures Certified(id, Next(id, w, a), plan) && Nearer(Next(id, w, a).op, earlier.op)
  {
    CertifiedByView(id, earlier, w, plan);
    OperatorAdvances(id, w, a, plan);
  }

  /** In a settled run, the operator's turn brings the reconcile nearer to Ready. */
  lemma TurnAdvances(id: Instance, run: nat -> World, sched: nat -> Action, plan: Plan, base: nat, i: nat, k: nat)
    requires SteadyFrom(id, run, sched, plan, base) && base <= i <= k && Fair(sched)
    requires Settled(run, i) && SoundFrom(id, run, sched, i) && sched(k).Operator? && run(k).op == run(i).op
    requires !run(i).op.Failed? && !run(i).op.Ready? && Certified(id, run(i), plan)
    ensures !run(k + 1).op.Failed? && Certified(id, run(k + 1), plan) && Nearer(run(k + 1).op, run(i).op)
  {
    SteadyAt(id, run, sched, plan, base, k);
    NotDeleting(id, run, sched, i);
    assert StepAt(id, run, sched, k) && Sound(id, run(k), sched(k));
    assert ViewOf(run(k + 1).store) == ViewOf(run(i).store) == ViewOf(run(k).store);
    WorldAdvances(id, run(i), run(k), sched(k), plan);
  }

  lemma {:induction false} ReachReady(id: Instance, run: nat -> World, sched: nat -> Action, plan: Plan, base: nat, i: nat)
    returns (j: nat)
    requires SteadyFrom(id, run, sched, plan, base) && base <= i && Fair(sched)
    requires Settled(run, i) && SoundFrom(id, run, sched, i)
    requires !run(i).op.Failed? && Certified(id, run(i), plan)
    ensures i <= j && run(j).op.Ready? && Certified(id, run(j), plan)
    decreases Distance(run(i).op).0, Distance(run(i).op).1
  {
    if run(i).op.Ready? {
      j := i;
    } else {
      var k := Turn(id, run, sched, i);
      TurnAdvances(id, run, sched, plan, base, i, k);
      SettledLater(run, i, k + 1);
      j := ReachReady(id, run, sched, plan, base, k + 1);
    }
  }

  lemma CertifiedReadyConverged(id: Instance, w: World, plan: Plan)
    requires Steady(id, w, plan) && Certified(id, w, plan) && w.op.Ready?
    requires !w.store.sts.value.deleting
    requires forall t: nat, n: nat :: !IsMissing(id, w.store, t, n)
    ensures Converged(id, w.store, plan)
  {
    var store := w.store;
    forall name | name in store.claims && SelectedBy(id, store.claims[name])
      ensures Persists(plan.job.spec) && Parses(plan.job.spec) ==>
                Size(store.claims[name].request) == DesiredSize(plan.job.spec)
    {
      assert Acceptable(plan, store.claims[name]);
      assert name !in Below(id, store, plan);
    }
    assert forall name :: name in store.claims && SelectedBy(id, store.claims[name]) ==>
      Acceptable(plan, store.claims[name]);
    forall t: nat, n: nat | t < |store.sts.value.body.templates| && n < store.sts.value.body.replicas
      ensures Names.ClaimName(store.sts.value.body.templates[t].name, id.name, n) in store.claims
    {
      assert !IsMissing(id, store, t, n);
    }
  }

  ghost predicate ReadyAfter(run: nat -> World, m: nat) {
    exists j: nat :: m <= j && run(j).op.Ready?
  }

  /** Once the run has settled and calls succeed, the operator passes Ready again and again. */
  lemma ReadyAgain(id: Instance, run: nat -> World, sched: nat -> Action, plan: Plan, base: nat, i: nat)
    returns (j: nat)
    requires SteadyFrom(id, run, sched, plan, base) && base <= i && Fair(sched)
    requires Settled(run, i) && SoundFrom(id, run, sched, i)
    ensures i <= j && run(j).op.Ready? && Certified(id, run(j), plan)
  {
    var idle := ReachIdle(id, run, sched, i);
    SettledLater(run, i, idle);
    j := ReachReady(id, run, sched, plan, base, idle);
  }

  lemma SettledConverged(id: Instance, run: nat -> World, sched: nat -> Action, plan: Plan, base: nat, i: nat)
    requires SteadyFrom(id, run, sched, plan, base) && base <= i && Fair(sched)
    requires Settled(run, i) && SoundFrom(id, run, sched, i)
    ensures Converged(id, run(i).store, plan)
  {
    var ready := ReadyAgain(id, run, sched, plan, base, i);
    SettledLater(run, i, ready);
    NotDeleting(id, run, sched, ready);
    forall t: nat, k: nat ensures !IsMissing(id, run(ready).store, t, k) {
      NoneMissing(id, run, sched, plan, ready, t, k);
    }
    SteadyAt(id, run, sched, plan, base, ready);
    CertifiedReadyConverged(id, run(ready), plan);
    MeasureByView(id, run(i).store, run(ready).store, plan);
  }

  /** Once Gets are up to date, the reconcile in hand drains, and from then on the run is steady. */
  lemma BecomesSteady(id: Instance, run: nat -> World, sched: nat -> Action, plan: Plan, calm: nat) returns (base: nat)
    requires IsExecution(id, run, sched) && Fair(sched) && SoundFrom(id, run, sched, calm) && Tame(id, run(0), plan)
    ensures calm <= base && SteadyFrom(id, run, sched, plan, base)
  {
    base := ReachIdle(id, run, sched, calm);
    TameAt(id, run, sched, plan, base);
    forall i: nat | base <= i ensures UpToDate(sched(i)) {
      assert Sound(id, run(i), sched(i));
    }
  }

  /** Convergence. Start from any StatefulSet, absent, legacy, out of date or being deleted, in
      any phase of a reconcile, with a resource that the stored objects can accept. In every fair
      run in which calls stop failing, and lists and Gets stop lagging behind, at some point,
      everything is in place from some point on, further reconciles leave every object unchanged,
      and AimReady is reported again and again. */
  lemma Converges(id: Instance, run: nat -> World, sched: nat -> Action, plan: Plan, calm: nat) returns (n: nat)
    requires IsExecution(id, run, sched) && Fair(sched) && SoundFrom(id, run, sched, calm)
    requires Inv(id, run(0)) && OnPlan(run(0).op, plan)
    requires PlanOf(id, plan) && InputsAre(run(0).store, plan) && Accepted(id, run(0).store, plan)
    ensures forall m: nat :: n <= m ==>
              Converged(id, run(m).store, plan) && ViewOf(run(m).store) == ViewOf(run(n).store)
    ensures forall m: nat :: ReadyAfter(run, m)
  {
    var base := BecomesSteady(id, run, sched, plan, calm);
    n := Settles(id, run, sched, plan, base, base);
    SettledConverged(id, run, sched, plan, base, n);
    forall m: nat | n <= m
      ensures Converged(id, run(m).store, plan) && ViewOf(run(m).store) == ViewOf(run(n).store)
    {
      MeasureByView(id, run(m).store, run(n).store, plan);
    }
    forall m: nat ensures ReadyAfter(run, m) {
      var from := if n <= m then m else n;
      SettledLater(run, n, from);
      var j := ReadyAgain(id, run, sched, plan, base, from);
      assert m <= j && run(j).op.Ready?;
    }
  }

  /** What that means for the user: the StatefulSet shows the resource, with the checksum of the
      files in the ConfigMap, and the CA secret holds the root CA. */
  lemma ConvergedShows(id: Instance, store: Store, plan: Plan)
    requires PlanOf(id, plan) && Converged(id, store, plan)
    requires Admit(store.sts.value.body) == store.sts.value.body
    ensures Shows(id.name, plan.job.spec, id.sha256(Checksum.Preimage(store.configMap.value.data)), store.sts.value.body)
    ensures store.caSecret.value.data == map["tls-ca-bundle.pem" := plan.ca]
  {
    AgreeingShows(id.name, plan.job.spec, ChecksumOf(id, plan.job.files), store.sts.value.body);
  }

  /** The premise on the claims is needed: once a selected claim is larger than wanted or of
      another class than the one named, no run without outside edits to claims and StatefulSets
      ever converges to that resource. */
  lemma UnacceptableNeverConverges(id: Instance, ws: seq<World>, acts: seq<Action>, i: nat, plan: Plan, name: string)
    requires IsRun(id, ws, acts) && Inv(id, ws[0]) && ClaimSafety.Retains(ws[0].store) && i < |ws|
    requires forall k :: 0 <= k < |acts| ==> ClaimSafety.NoOutsider(acts[k])
    requires name in ws[0].store.claims && SelectedBy(id, ws[0].store.claims[name])
    requires !Acceptable(plan, ws[0].store.claims[name])
    ensures !Converged(id, ws[i].store, plan)
  {
    ClaimSafety.RunKeepsClaims(id, ws, acts, 0, i);
    RunInv(id, ws, acts, i);
    assert SelectedBy(id, ws[i].store.claims[name]);
  }

  /** So is the premise on the StatefulSet: while one stands that the server will not update, no
      run without outside edits to it converges. */
  lemma UnchangeableNeverConverges(id: Instance, ws: seq<World>, acts: seq<Action>, i: nat, plan: Plan)
    requires IsRun(id, ws, acts) && Inv(id, ws[0]) && ws[0].op.Idle? && i < |ws|
    requires PlanOf(id, plan) && ws[0].store.cr == plan.job.spec
    requires ws[0].store.sts.Some? && !ws[0].store.sts.value.deleting
    requires !Changeable(ws[0].store.sts.value.body, plan.desired)
    requires forall k :: 0 <= k < |acts| ==> !acts[k].EditSpec? && !acts[k].OutsideSet? && UpToDate(acts[k])
    ensures !Converged(id, ws[i].store, plan)
  {
    var found := ws[0].store.sts.value;
    assert Rejection.LimitBlocked(id, ws[0], found, plan.job.spec);
    Rejection.StaysLimitBlocked(id, ws, acts, found, plan.job.spec, i);
  }
}
