/** A user who never lowers the log size and never changes its storage class is never told that
    the storage cannot be reduced or that its class cannot be changed, even though claims may be
    born late, from a StatefulSet whose template still has an older, smaller size. */
module NoFalseRejection {
  import opened Text
  import opened Kube
  import opened Builder
  import opened Templates
  import opened Protocol
  import Names

  /** Largest size the resource has asked for so far, None before it asked for any. */
  type Peak = Option<int>

  predicate Within(size: int, peak: Peak) {
    peak.Some? && size <= peak.value
  }

  function PeakAfter(peak: Peak, a: Action): Peak {
    if a.EditSpec? && SizedSpec(a.cr) then Some(DesiredSize(a.cr)) else peak
  }

  /** One action of a user and an environment that play by these rules: the size does not fall
      below the peak, the class stays; persistence, replicas and everything else may change.
      Outsiders leave the StatefulSet and the instance's own claims alone. */
  predicate Admissible(id: Instance, a: Action, peak: Peak, storageClass: string) {
    match a
    case EditSpec(cr, _) =>
      (Persists(cr) ==> DesiredClass(cr) == storageClass) &&
      (SizedSpec(cr) && peak.Some? ==> DesiredSize(cr) >= peak.value)
    case OutsideClaim(name, content) => content.Some? ==> !SelectedBy(id, content.value.(name := name))
    case OutsideSet(_) => false
    case _ => true
  }

  predicate GrowOnly(id: Instance, acts: seq<Action>, peak: Peak, storageClass: string) {
    |acts| == 0 ||
    (Admissible(id, acts[0], peak, storageClass) && GrowOnly(id, acts[1..], PeakAfter(peak, acts[0]), storageClass))
  }

  // ---------- the invariant ----------

  predicate ClaimFits(id: Instance, c: Claim, limit: Peak, storageClass: string) {
    SelectedBy(id, c) ==>
      Within(Size(c.request), limit) && (storageClass != "" ==> c.storageClass == Some(storageClass))
  }

  ghost predicate TemplatesFit(templates: seq<ClaimTemplate>, limit: Peak, storageClass: string) {
    forall i :: 0 <= i < |templates| ==>
      && templates[i].name == Names.LOG_TEMPLATE
      && Within(Size(templates[i].request), limit)
      && templates[i].storageClass == ExplicitClass(storageClass)
  }

  predicate SpecFits(spec: CrSpec, peak: Peak, storageClass: string) {
    && (Persists(spec) ==> DesiredClass(spec) == storageClass)
    && (SizedSpec(spec) ==> Within(DesiredSize(spec), peak))
  }

  /** While a reconcile with a size is under way, nothing exceeds that size, even if the
      resource has meanwhile grown further. */
  function Limit(op: Phase, peak: Peak): Peak {
    if JobOf(op).Some? && SizedSpec(JobOf(op).value.spec) then Some(DesiredSize(JobOf(op).value.spec)) else peak
  }

  predicate FalseRejection(op: Phase) {
    op.Failed? && (op.error.ClaimShrink? || op.error.ClaimClassChange? || op.error.TemplateClassChange?)
  }

  ghost predicate StoreFits(id: Instance, store: Store, limit: Peak, storageClass: string) {
    && (forall v :: v in store.seen ==> ClaimFits(id, store.seen[v], limit, storageClass))
    && (store.sts.Some? ==> TemplatesFit(store.sts.value.body.templates, limit, storageClass))
    && (forall v :: v in store.seenSets ==> TemplatesFit(store.seenSets[v].body.templates, limit, storageClass))
  }

  ghost predicate PhaseFits(op: Phase, peak: Peak, storageClass: string) {
    && (JobOf(op).Some? ==> SpecFits(JobOf(op).value.spec, peak, storageClass))
    && (op.SetRead? || op.Resizing? || op.Deciding? ==>
          TemplatesFit(op.found.body.templates, Limit(op, peak), storageClass))
    && !FalseRejection(op)
  }

  ghost predicate CrAtPeak(cr: CrSpec, peak: Peak, storageClass: string) {
    && (Persists(cr) ==> DesiredClass(cr) == storageClass)
    && (SizedSpec(cr) ==> peak == Some(DesiredSize(cr)))
  }

  /** Template sizes and claim sizes are at most the size asked for, and classes match. */
  ghost predicate Bounded(id: Instance, w: World, peak: Peak, storageClass: string) {
    && CrAtPeak(w.store.cr, peak, storageClass)
    && StoreFits(id, w.store, Limit(w.op, peak), storageClass)
    && PhaseFits(w.op, peak, storageClass)
  }

  // ---------- it is inductive ----------

  ghost predicate AtLeast(higher: Peak, lower: Peak) {
    lower.None? || (higher.Some? && lower.value <= higher.value)
  }

  lemma StoreFitsWeaken(id: Instance, store: Store, limit: Peak, higher: Peak, storageClass: string)
    requires StoreFits(id, store, limit, storageClass) && AtLeast(higher, limit)
    ensures StoreFits(id, store, higher, storageClass)
  {
  }

  lemma EditBounded(id: Instance, w: World, a: Action, peak: Peak, storageClass: string)
    requires Bounded(id, w, peak, storageClass) && a.EditSpec? && Admissible(id, a, peak, storageClass)
    ensures Bounded(id, Next(id, w, a), PeakAfter(peak, a), storageClass)
  {
    var peak' := PeakAfter(peak, a);
    assert AtLeast(peak', peak);
    StoreFitsWeaken(id, w.store, Limit(w.op, peak), Limit(w.op, peak'), storageClass);
  }

  lemma SurroundingsBounded(id: Instance, w: World, a: Action, peak: Peak, storageClass: string)
    requires Inv(id, w) && Bounded(id, w, peak, storageClass)
    requires !a.Operator? && Admissible(id, a, peak, storageClass)
    ensures Bounded(id, Next(id, w, a), PeakAfter(peak, a), storageClass)
  {
    match a
    case EditSpec(cr, rendered) => EditBounded(id, w, a, peak, storageClass);
    case BornClaim(template, ordinal, defaultClass) =>
      BornFits(id, w.store, template, ordinal, defaultClass, Limit(w.op, peak), storageClass);
    case OutsideClaim(name, content) =>
      if content.Some? {
        OutsideFits(id, w.store, name, content.value, Limit(w.op, peak), storageClass);
      }
    case _ => LessFits(id, w.store, a, Limit(w.op, peak), storageClass);
  }

  lemma OutsideFits(id: Instance, store: Store, name: string, claim: Claim, limit: Peak, storageClass: string)
    requires StoreFits(id, store, limit, storageClass) && !SelectedBy(id, claim.(name := name))
    ensures StoreFits(id, PutClaim(store, name, claim), limit, storageClass)
  {
  }

  lemma LessFits(id: Instance, store: Store, a: Action, limit: Peak, storageClass: string)
    requires StoreFits(id, store, limit, storageClass)
    requires a.RotateCa? || a.FinishDeletion? || a.ReapClaim? || a.OutsideData?
    ensures StoreFits(id, Surroundings(id, store, a), limit, storageClass)
    ensures Surroundings(id, store, a).cr == store.cr
  {
    if a.OutsideData? {
      SetDataFrame(store, a.configMap, a.caSecret);
    } else {
      var after := Surroundings(id, store, a);
      assert after.seen == store.seen && after.seenSets == store.seenSets;
      assert after.sts == store.sts || after.sts.None?;
    }
  }

  lemma BornFits(id: Instance, store: Store, template: nat, ordinal: nat, defaultClass: Option<string>,
                 limit: Peak, storageClass: string)
    requires StoreFits(id, store, limit, storageClass)
    ensures StoreFits(id, Bear(id, store, template, ordinal, defaultClass), limit, storageClass)
  {
    if IsMissing(id, store, template, ordinal) {
      var body := store.sts.value.body;
      var claim := NewClaim(id, body, body.templates[template], ordinal, defaultClass);
      assert ClaimFits(id, claim, limit, storageClass);
    }
  }

  /** A claim of the history that passes the loop's prefix test is never rejected. */
  lemma PrepareAccepts(id: Instance, w: World, peak: Peak, storageClass: string)
    requires PhaseInv(id, w.store, w.op) && StoreFits(id, w.store, Limit(w.op, peak), storageClass)
    requires PhaseFits(w.op, peak, storageClass)
    requires w.op.Resizing? && |w.op.pending| > 0
    requires HasPrefix(w.op.pending[0].name, Names.ClaimPrefix(id.name))
    ensures !Refused(w.op.pending[0], w.op.size, w.op.wantedClass)
  {
    var c := w.op.pending[0];
    assert Known(w.store, c) && Labelled(id, c);
    assert ClaimFits(id, w.store.seen[c.version], Limit(w.op, peak), storageClass);
  }

  lemma ResizeBounded(id: Instance, w: World, fault: Fault, peak: Peak, storageClass: string)
    requires Inv(id, w) && Bounded(id, w, peak, storageClass) && w.op.Resizing?
    ensures Bounded(id, ResizeNext(id, w, fault), peak, storageClass)
  {
    var after := ResizeNext(id, w, fault);
    var limit := Limit(w.op, peak);
    ResizeEffect(id, w, fault);
    ResizeFrame(id, w, fault);
    assert StoreFits(id, after.store, limit, storageClass);
    ResizePhaseFits(id, w, fault, peak, storageClass);
    BoundedAfter(id, w, after, peak, storageClass);
  }

  /** A round that rejects nothing goes on with the same plan, or fails in an API call. */
  lemma ResizeGoesOn(id: Instance, w: World, fault: Fault)
    requires w.op.Resizing?
    requires |w.op.pending| > 0 && HasPrefix(w.op.pending[0].name, Names.ClaimPrefix(id.name)) ==>
               !Refused(w.op.pending[0], w.op.size, w.op.wantedClass)
    ensures var next := ResizeNext(id, w, fault).op;
            || (next.Failed? && !FalseRejection(next))
            || ((next.Resizing? || next.Deciding?) && next.plan == w.op.plan && next.found == w.op.found)
  {
  }

  /** A phase that goes on with the plan and the StatefulSet of one that fits, fits as well. */
  lemma GoesOnFits(op: Phase, next: Phase, peak: Peak, storageClass: string)
    requires op.SetRead? || op.Resizing?
    requires next.Resizing? || next.Deciding?
    requires next.plan == op.plan && next.found == op.found && PhaseFits(op, peak, storageClass)
    ensures PhaseFits(next, peak, storageClass) && Limit(next, peak) == Limit(op, peak)
  {
  }

  lemma ResizePhaseFits(id: Instance, w: World, fault: Fault, peak: Peak, storageClass: string)
    requires PhaseInv(id, w.store, w.op) && StoreFits(id, w.store, Limit(w.op, peak), storageClass)
    requires PhaseFits(w.op, peak, storageClass) && w.op.Resizing?
    ensures PhaseFits(ResizeNext(id, w, fault).op, peak, storageClass)
    ensures AtLeast(Limit(ResizeNext(id, w, fault).op, peak), Limit(w.op, peak))
  {
    if |w.op.pending| > 0 && HasPrefix(w.op.pending[0].name, Names.ClaimPrefix(id.name)) {
      PrepareAccepts(id, w, peak, storageClass);
    }
    ResizeGoesOn(id, w, fault);
    var next := ResizeNext(id, w, fault).op;
    if next.Failed? {
      EndFits(w.op, next, peak, storageClass);
    } else {
      GoesOnFits(w.op, next, peak, storageClass);
    }
  }

  /** Bounded holds after a step if the store still fits the old limit, the phase fits, and the
      limit has not gone down. */
  lemma BoundedAfter(id: Instance, w: World, after: World, peak: Peak, storageClass: string)
    requires Bounded(id, w, peak, storageClass) && after.store.cr == w.store.cr
    requires StoreFits(id, after.store, Limit(w.op, peak), storageClass)
    requires PhaseFits(after.op, peak, storageClass) && AtLeast(Limit(after.op, peak), Limit(w.op, peak))
    ensures Bounded(id, after, peak, storageClass)
  {
    StoreFitsWeaken(id, after.store, Limit(w.op, peak), Limit(after.op, peak), storageClass);
  }

  lemma PutSetFits(id: Instance, store: Store, body: StatefulSet, deleting: bool, limit: Peak, storageClass: string)
    requires StoreFits(id, store, limit, storageClass) && TemplatesFit(body.templates, limit, storageClass)
    ensures StoreFits(id, PutSet(store, body, deleting), limit, storageClass)
  {
  }

  /** A phase of the same job, or without one, that holds no StatefulSet and no rejection. */
  lemma EndFits(op: Phase, next: Phase, peak: Peak, storageClass: string)
    requires PhaseFits(op, peak, storageClass)
    requires JobOf(next).None? || JobOf(next) == JobOf(op)
    requires !next.SetRead? && !next.Resizing? && !next.Deciding? && !FalseRejection(next)
    ensures PhaseFits(next, peak, storageClass) && AtLeast(Limit(next, peak), Limit(op, peak))
  {
  }

  lemma CreateBounded(id: Instance, w: World, fault: Fault, peak: Peak, storageClass: string)
    requires Inv(id, w) && Bounded(id, w, peak, storageClass) && w.op.Creating?
    ensures Bounded(id, CreateDesired(w, fault), peak, storageClass)
  {
    var after := CreateDesired(w, fault);
    var body := Admit(w.op.plan.desired);
    assert TemplatesFit(body.templates, Limit(w.op, peak), storageClass) by {
      assert PlanOf(id, w.op.plan);
    }
    PutSetFits(id, w.store, body, false, Limit(w.op, peak), storageClass);
    EndFits(w.op, after.op, peak, storageClass);
    BoundedAfter(id, w, after, peak, storageClass);
  }

  lemma DecideBounded(id: Instance, w: World, fault: Fault, peak: Peak, storageClass: string)
    requires Inv(id, w) && Bounded(id, w, peak, storageClass) && w.op.Deciding?
    ensures Bounded(id, Decide(w, fault), peak, storageClass)
  {
    var after := Decide(w, fault);
    var limit := Limit(w.op, peak);
    DecideEffect(id, w, fault);
    if Marks(w, after.store) {
      PutSetFits(id, w.store, w.store.sts.value.body, true, limit, storageClass);
    } else if Rewrites(w, after.store) {
      PutSetFits(id, w.store, Admit(Updated(w.op.found.body, w.op.plan.desired)), w.op.found.deleting, limit,
                 storageClass);
    }
    DecideEnds(id, w, fault, peak, storageClass);
    BoundedAfter(id, w, after, peak, storageClass);
  }

  lemma DecideEnds(id: Instance, w: World, fault: Fault, peak: Peak, storageClass: string)
    requires PhaseFits(w.op, peak, storageClass) && w.op.Deciding?
    ensures PhaseFits(Decide(w, fault).op, peak, storageClass)
    ensures AtLeast(Limit(Decide(w, fault).op, peak), Limit(w.op, peak))
  {
    EndFits(w.op, Decide(w, fault).op, peak, storageClass);
  }

  lemma WriteConfigMapBounded(id: Instance, w: World, fault: Fault, peak: Peak, storageClass: string)
    requires Inv(id, w) && Bounded(id, w, peak, storageClass) && w.op.ConfigMapRead?
    ensures Bounded(id, WriteConfigMap(w, fault), peak, storageClass)
  {
    var after := WriteConfigMap(w, fault);
    WriteConfigMapFrame(w, fault);
    EndFits(w.op, after.op, peak, storageClass);
    BoundedAfter(id, w, after, peak, storageClass);
  }

  lemma WriteCaBounded(id: Instance, w: World, fault: Fault, peak: Peak, storageClass: string)
    requires Inv(id, w) && Bounded(id, w, peak, storageClass) && w.op.CaRead?
    ensures Bounded(id, WriteCa(w, fault), peak, storageClass)
  {
    var after := WriteCa(w, fault);
    WriteCaFrame(w, fault);
    EndFits(w.op, after.op, peak, storageClass);
    BoundedAfter(id, w, after, peak, storageClass);
  }

  lemma SeenSetFits(id: Instance, store: Store, cache: Cache, limit: Peak, storageClass: string)
    requires StoreFits(id, store, limit, storageClass)
    ensures SeenSet(store, cache).Some? ==>
              TemplatesFit(SeenSet(store, cache).value.body.templates, limit, storageClass)
  {
  }

  /** Comparing templates of one class never reports a class change. */
  lemma ReadSetBounded(id: Instance, w: World, fault: Fault, cache: Cache, peak: Peak, storageClass: string)
    requires Bounded(id, w, peak, storageClass) && w.op.CaDone?
    ensures Bounded(id, ReadSet(id, w, fault, cache), peak, storageClass)
  {
    var after := ReadSet(id, w, fault, cache);
    SeenSetFits(id, w.store, cache, Limit(w.op, peak), storageClass);
    assert after.store == w.store;
    StoreFitsWeaken(id, w.store, Limit(w.op, peak), Limit(after.op, peak), storageClass);
  }

  lemma ListBounded(id: Instance, w: World, fault: Fault, listing: seq<Claim>, peak: Peak, storageClass: string)
    requires Bounded(id, w, peak, storageClass) && w.op.SetRead?
    ensures Bounded(id, ListClaims(id, w, fault, listing), peak, storageClass)
  {
    var after := ListClaims(id, w, fault, listing);
    ListLeads(id, w, fault, listing);
    if after.op.Failed? {
      EndFits(w.op, after.op, peak, storageClass);
    } else {
      GoesOnFits(w.op, after.op, peak, storageClass);
    }
    BoundedAfter(id, w, after, peak, storageClass);
  }

  lemma ReadBounded(id: Instance, w: World, fault: Fault, answers: Answers, peak: Peak, storageClass: string)
    requires Bounded(id, w, peak, storageClass)
    requires w.op.Idle? || w.op.Rendered? || w.op.ConfigMapDone? || w.op.RootCaRead? || w.op.Ready? || w.op.Failed?
    ensures Bounded(id, Operate(id, w, fault, answers), peak, storageClass)
  {
    var after := Operate(id, w, fault, answers);
    ReadsFrame(id, w, fault, answers);
    assert PhaseFits(after.op, peak, storageClass);
    BoundedAfter(id, w, after, peak, storageClass);
  }

  lemma OperateBounded(id: Instance, w: World, fault: Fault, answers: Answers, peak: Peak, storageClass: string)
    requires Inv(id, w) && Bounded(id, w, peak, storageClass)
    ensures Bounded(id, Operate(id, w, fault, answers), peak, storageClass)
  {
    match w.op
    case ConfigMapRead(_, _) => WriteConfigMapBounded(id, w, fault, peak, storageClass);
    case CaRead(_, _, _) => WriteCaBounded(id, w, fault, peak, storageClass);
    case CaDone(_, _) => ReadSetBounded(id, w, fault, answers.cache, peak, storageClass);
    case SetRead(_, _) => ListBounded(id, w, fault, answers.listing, peak, storageClass);
    case Creating(_) => CreateBounded(id, w, fault, peak, storageClass);
    case Resizing(_, _, _, _, _) => ResizeBounded(id, w, fault, peak, storageClass);
    case Deciding(_, _) => DecideBounded(id, w, fault, peak, storageClass);
    case _ => ReadBounded(id, w, fault, answers, peak, storageClass);
  }

  // ---------- whole runs ----------

  function PeakAt(acts: seq<Action>, peak: Peak, i: nat): Peak
    requires i <= |acts|
  {
    if i == 0 then peak else PeakAfter(PeakAt(acts, peak, i - 1), acts[i - 1])
  }

  lemma {:induction false} PeakAtTail(acts: seq<Action>, peak: Peak, i: nat)
    requires i < |acts|
    ensures PeakAt(acts, peak, i + 1) == PeakAt(acts[1..], PeakAfter(peak, acts[0]), i)
  {
    if i > 0 {
      PeakAtTail(acts, peak, i - 1);
      assert acts[1..][i - 1] == acts[i];
    } else {
      assert PeakAt(acts, peak, 0) == peak;
    }
  }

  lemma {:induction false} AdmissibleAt(id: Instance, acts: seq<Action>, peak: Peak, storageClass: string, i: nat)
    requires GrowOnly(id, acts, peak, storageClass) && i < |acts|
    ensures Admissible(id, acts[i], PeakAt(acts, peak, i), storageClass)
  {
    if i > 0 {
      AdmissibleAt(id, acts[1..], PeakAfter(peak, acts[0]), storageClass, i - 1);
      PeakAtTail(acts, peak, i - 1);
    }
  }

  lemma {:induction false} RunBounded(id: Instance, ws: seq<World>, acts: seq<Action>, peak: Peak,
                                      storageClass: string, i: nat)
    requires IsRun(id, ws, acts) && Inv(id, ws[0]) && Bounded(id, ws[0], peak, storageClass)
    requires GrowOnly(id, acts, peak, storageClass) && i < |ws|
    ensures Bounded(id, ws[i], PeakAt(acts, peak, i), storageClass)
  {
    if i > 0 {
      RunBounded(id, ws, acts, peak, storageClass, i - 1);
      RunInv(id, ws, acts, i - 1);
      AdmissibleAt(id, acts, peak, storageClass, i - 1);
      var w, a, p := ws[i - 1], acts[i - 1], PeakAt(acts, peak, i - 1);
      if a.Operator? {
        OperateBounded(id, w, a.fault, a.answers, p, storageClass);
      } else {
        SurroundingsBounded(id, w, a, p, storageClass);
      }
    }
  }

  /** A cluster in which the instance has no per-pod claims yet: no StatefulSet with claim
      templates and no selected claim was ever stored. */
  ghost predicate NoClaimsYet(id: Instance, w: World) {
    && w.op.Idle?
    && (forall v :: v in w.store.seenSets ==> w.store.seenSets[v].body.templates == [])
    && (forall v :: v in w.store.seen ==> !SelectedBy(id, w.store.seen[v]))
  }

  /** The size the resource asks for at the start, if any. */
  function InitialPeak(spec: CrSpec): Peak {
    if SizedSpec(spec) then Some(DesiredSize(spec)) else None
  }

  /** From such a cluster, no run in which the size never decreases and the class is fixed ever
      fails with a shrink or class error, and at every point no claim or template exceeds the
      largest size asked for so far. */
  lemma NeverRejected(id: Instance, ws: seq<World>, acts: seq<Action>, storageClass: string, i: nat)
    requires IsRun(id, ws, acts) && Inv(id, ws[0]) && NoClaimsYet(id, ws[0])
    requires Persists(ws[0].store.cr) ==> DesiredClass(ws[0].store.cr) == storageClass
    requires GrowOnly(id, acts, InitialPeak(ws[0].store.cr), storageClass)
    requires i < |ws|
    ensures !FalseRejection(ws[i].op)
    ensures StoreFits(id, ws[i].store, PeakAt(acts, InitialPeak(ws[0].store.cr), i), storageClass)
  {
    var peak := InitialPeak(ws[0].store.cr);
    RunBounded(id, ws, acts, peak, storageClass, i);
    StoreFitsWeaken(id, ws[i].store, Limit(ws[i].op, PeakAt(acts, peak, i)), PeakAt(acts, peak, i), storageClass);
  }
}
