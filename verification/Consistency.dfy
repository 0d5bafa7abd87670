/** The ConfigMap, the CA secret and the StatefulSet are written by separate calls, any of which
    may fail. What holds between them over whole runs in which nobody else writes them. */
module Consistency {
  import opened Text
  import opened Kube
  import opened Builder
  import opened Templates
  import opened Protocol

  /** Nobody else writes the StatefulSet, the ConfigMap and the CA secret, and the operator's
      Gets of them are answered with what is stored. */
  predicate Orderly(a: Action) {
    !a.OutsideSet? && !a.OutsideData? && (a.Operator? ==> a.answers.cache.Fresh?)
  }

  predicate HoldsFiles(store: Store, files: Files) {
    store.configMap.Some? && store.configMap.value.data == files
  }

  predicate HoldsCa(store: Store, ca: string) {
    store.caSecret.Some? && store.caSecret.value.data == map["tls-ca-bundle.pem" := ca]
  }

  /** The stored StatefulSet is the desired one, sizes of claim templates aside. */
  predicate StoredAgrees(store: Store, desired: StatefulSet) {
    store.sts.Some? ==> AgreesButSize(Admit(store.sts.value.body), Admit(desired))
  }

  /** The object read is still there, or it was being deleted and is gone. */
  predicate FoundStands(store: Store, found: StoredSet) {
    store.sts == Some(found) || (found.deleting && store.sts.None?)
  }

  /** What the current phase has established. */
  predicate Established(store: Store, op: Phase) {
    match op
    case ConfigMapRead(_, found) => found == store.configMap
    case ConfigMapDone(job) => HoldsFiles(store, job.files)
    case RootCaRead(job, _) => HoldsFiles(store, job.files)
    case CaRead(job, _, secret) => HoldsFiles(store, job.files) && secret == store.caSecret
    case CaDone(job, ca) => HoldsFiles(store, job.files) && HoldsCa(store, ca)
    case Creating(plan) => HoldsFiles(store, plan.job.files) && HoldsCa(store, plan.ca) && store.sts.None?
    case SetRead(plan, found) =>
      HoldsFiles(store, plan.job.files) && HoldsCa(store, plan.ca) && FoundStands(store, found)
    case Resizing(plan, found, _, _, _) =>
      HoldsFiles(store, plan.job.files) && HoldsCa(store, plan.ca) && FoundStands(store, found)
    case Deciding(plan, found) =>
      HoldsFiles(store, plan.job.files) && HoldsCa(store, plan.ca) && FoundStands(store, found)
    case Ready(plan) =>
      HoldsFiles(store, plan.job.files) && HoldsCa(store, plan.ca) && StoredAgrees(store, plan.desired)
    case _ => true
  }

  ghost predicate Consistent(w: World) {
    Established(w.store, w.op)
  }

  // ---------- it is inductive ----------

  lemma DesiredAgreesWithItself(id: Instance, plan: Plan)
    requires PlanOf(id, plan)
    ensures AgreesButSize(Admit(Admit(plan.desired)), Admit(plan.desired))
  {
    var t := plan.desired.templates;
    if |t| == 1 {
      OneTemplate(t[0], t[0]);
      assert t == [t[0]];
    }
  }

  lemma RewriteAgrees(w: World, after: Store)
    requires w.op.Deciding? && Rewrites(w, after)
    ensures StoredAgrees(after, w.op.plan.desired)
  {
    UpdateLegalAndSufficient(w.op.found.body, w.op.plan.desired);
    AdmitIdempotent(Updated(w.op.found.body, w.op.plan.desired));
  }

  /** The step reports Ready only when its update was accepted, or there was nothing to update. */
  lemma DecideReady(id: Instance, w: World, fault: Fault)
    requires Inv(id, w) && w.op.Deciding? && Decide(w, fault).op.Ready?
    ensures var updated := Updated(w.op.found.body, w.op.plan.desired);
            && Decide(w, fault).op == Ready(w.op.plan)
            && !RequiresRecreation(w.op.found.body, w.op.plan.desired)
            && (Rewrites(w, Decide(w, fault).store) ||
                (Decide(w, fault).store == w.store && Admit(updated) == w.op.found.body) ||
                (Decide(w, fault).store == w.store && updated == w.op.found.body))
  {
  }

  lemma DecideConsistent(id: Instance, w: World, fault: Fault)
    requires Inv(id, w) && Established(w.store, w.op) && w.op.Deciding?
    ensures Consistent(Decide(w, fault))
  {
    var plan, found := w.op.plan, w.op.found;
    var after := Decide(w, fault);
    if after.op.Ready? {
      DecideFrame(w, fault);
      DecideReady(id, w, fault);
      if Rewrites(w, after.store) {
        RewriteAgrees(w, after.store);
      } else {
        UpdateLegalAndSufficient(found.body, plan.desired);
        AdmitIdempotent(Updated(found.body, plan.desired));
      }
    } else {
      DecideLeads(w, fault);
    }
  }

  lemma CreateConsistent(id: Instance, w: World, fault: Fault)
    requires Inv(id, w) && Established(w.store, w.op) && w.op.Creating?
    ensures Consistent(CreateDesired(w, fault))
  {
    var plan := w.op.plan;
    DesiredAgreesWithItself(id, plan);
  }

  lemma WriteConfigMapConsistent(id: Instance, w: World, fault: Fault)
    requires Established(w.store, w.op) && w.op.ConfigMapRead?
    ensures Consistent(WriteConfigMap(w, fault))
  {
  }

  lemma WriteCaConsistent(id: Instance, w: World, fault: Fault)
    requires Established(w.store, w.op) && w.op.CaRead?
    ensures Consistent(WriteCa(w, fault))
  {
  }

  lemma ResizeConsistent(id: Instance, w: World, fault: Fault)
    requires Established(w.store, w.op) && w.op.Resizing?
    ensures Consistent(ResizeNext(id, w, fault))
  {
    ResizeFrame(id, w, fault);
  }

  lemma ReadSetConsistent(id: Instance, w: World, fault: Fault)
    requires Established(w.store, w.op) && w.op.CaDone?
    ensures Consistent(ReadSet(id, w, fault, Fresh))
  {
  }

  lemma ReadConsistent(id: Instance, w: World, fault: Fault, answers: Answers)
    requires Established(w.store, w.op) && answers.cache.Fresh?
    requires !w.op.Resizing? && !w.op.Deciding? && !w.op.ConfigMapRead? && !w.op.CaRead? && !w.op.Creating? && !w.op.CaDone?
    ensures Consistent(Operate(id, w, fault, answers))
  {
    ReadsFrame(id, w, fault, answers);
  }

  lemma StepConsistent(id: Instance, w: World, a: Action)
    requires Inv(id, w) && Established(w.store, w.op) && Orderly(a)
    ensures Consistent(Next(id, w, a))
  {
    if a.Operator? {
      match w.op
      case ConfigMapRead(_, _) => WriteConfigMapConsistent(id, w, a.fault);
      case CaRead(_, _, _) => WriteCaConsistent(id, w, a.fault);
      case CaDone(_, _) => ReadSetConsistent(id, w, a.fault);
      case Creating(_) => CreateConsistent(id, w, a.fault);
      case Resizing(_, _, _, _, _) => ResizeConsistent(id, w, a.fault);
      case Deciding(_, _) => DecideConsistent(id, w, a.fault);
      case _ => ReadConsistent(id, w, a.fault, a.answers);
    } else {
      SurroundingsConsistent(id, w, a);
    }
  }

  lemma SurroundingsConsistent(id: Instance, w: World, a: Action)
    requires Established(w.store, w.op) && Orderly(a) && !a.Operator?
    ensures Consistent(Next(id, w, a))
  {
    var after := Next(id, w, a).store;
    assert after.configMap == w.store.configMap && after.caSecret == w.store.caSecret;
    assert after.sts == w.store.sts || (w.store.sts.value.deleting && after.sts.None?);
  }

  lemma {:induction false} RunConsistent(id: Instance, ws: seq<World>, acts: seq<Action>, i: nat)
    requires IsRun(id, ws, acts) && Inv(id, ws[0]) && Consistent(ws[0]) && i < |ws|
    requires forall k :: 0 <= k < |acts| ==> Orderly(acts[k])
    ensures Inv(id, ws[i]) && Consistent(ws[i])
  {
    if i > 0 {
      RunConsistent(id, ws, acts, i - 1);
      StepInv(id, ws[i - 1], acts[i - 1]);
      StepConsistent(id, ws[i - 1], acts[i - 1]);
    }
  }

  // ---------- the annotation, whatever the Gets are answered with ----------

  /** The ConfigMap never held anything that is not in the history, and the annotation is the
      checksum of some data in it. */
  ghost predicate AnnotationHeld(id: Instance, store: Store) {
    && (forall v :: v in store.seenMaps ==> store.seenMaps[v].data in store.held)
    && (store.sts.Some? ==>
          exists data :: data in store.held && ChecksumOf(id, data) == store.sts.value.body.template.checksum)
  }

  /** The files of a reconcile that has dealt with the ConfigMap. */
  function FilesWritten(op: Phase): Option<Files> {
    match op
    case ConfigMapDone(job) => Some(job.files)
    case RootCaRead(job, _) => Some(job.files)
    case CaRead(job, _, _) => Some(job.files)
    case CaDone(job, _) => Some(job.files)
    case Creating(plan) => Some(plan.job.files)
    case SetRead(plan, _) => Some(plan.job.files)
    case Resizing(plan, _, _, _, _) => Some(plan.job.files)
    case Deciding(plan, _) => Some(plan.job.files)
    case Ready(plan) => Some(plan.job.files)
    case _ => None
  }

  /** Such files have been in the ConfigMap. */
  ghost predicate FilesHeld(w: World) {
    FilesWritten(w.op).Some? ==> FilesWritten(w.op).value in w.store.held
  }

  ghost predicate Behind(id: Instance, w: World) {
    AnnotationHeld(id, w.store) && FilesHeld(w)
  }

  lemma PutConfigMapBehind(id: Instance, store: Store, files: Files)
    requires AnnotationHeld(id, store)
    ensures AnnotationHeld(id, PutConfigMap(store, files)) && files in PutConfigMap(store, files).held
  {
    var after := PutConfigMap(store, files);
    assert forall data :: data in store.held ==> data in after.held;
  }

  lemma WriteConfigMapBehind(id: Instance, w: World, fault: Fault)
    requires Inv(id, w) && Behind(id, w) && w.op.ConfigMapRead?
    ensures Behind(id, WriteConfigMap(w, fault))
  {
    var after := WriteConfigMap(w, fault);
    PutConfigMapBehind(id, w.store, w.op.job.files);
    WriteConfigMapEffect(w, fault);
  }

  lemma PutSetBehind(id: Instance, store: Store, body: StatefulSet, deleting: bool, files: Files)
    requires AnnotationHeld(id, store) && files in store.held && body.template.checksum == ChecksumOf(id, files)
    ensures AnnotationHeld(id, PutSet(store, body, deleting)) && PutSet(store, body, deleting).held == store.held
  {
  }

  lemma MarkBehind(id: Instance, store: Store)
    requires AnnotationHeld(id, store) && store.sts.Some?
    ensures var after := PutSet(store, store.sts.value.body, true); AnnotationHeld(id, after) && after.held == store.held
  {
    var data :| data in store.held && ChecksumOf(id, data) == store.sts.value.body.template.checksum;
    PutSetBehind(id, store, store.sts.value.body, true, data);
  }

  lemma CreateBehind(id: Instance, w: World, fault: Fault)
    requires w.op.Creating? && PlanOf(id, w.op.plan) && Behind(id, w)
    ensures Behind(id, CreateDesired(w, fault))
  {
    PutSetBehind(id, w.store, Admit(w.op.plan.desired), false, w.op.plan.job.files);
    CreateEffect(w, fault);
  }

  lemma DecideAnnotates(id: Instance, w: World, after: Store)
    requires w.op.Deciding? && PlanOf(id, w.op.plan) && Behind(id, w)
    requires after == w.store || Marks(w, after) || Rewrites(w, after)
    ensures AnnotationHeld(id, after) && after.held == w.store.held
  {
    if Marks(w, after) {
      MarkBehind(id, w.store);
    } else if Rewrites(w, after) {
      PutSetBehind(id, w.store, Admit(Updated(w.op.found.body, w.op.plan.desired)), w.op.found.deleting,
                   w.op.plan.job.files);
    }
  }

  lemma DecideBehind(id: Instance, w: World, fault: Fault)
    requires Inv(id, w) && Behind(id, w) && w.op.Deciding?
    ensures Behind(id, Decide(w, fault))
  {
    DecideEffect(id, w, fault);
    DecideLeads(w, fault);
    DecideAnnotates(id, w, Decide(w, fault).store);
  }

  lemma OthersKeepFiles(id: Instance, w: World, fault: Fault, answers: Answers)
    requires FilesHeld(w) && !w.op.ConfigMapRead? && !w.op.Creating? && !w.op.Deciding?
    ensures FilesWritten(Operate(id, w, fault, answers).op).Some? ==>
              FilesWritten(Operate(id, w, fault, answers).op) == FilesWritten(w.op)
  {
    if w.op.Resizing? {
      ResizeLeads(id, w, fault);
    } else if w.op.CaRead? {
      WriteCaEffect(w, fault);
    } else {
      ReadsKeepFiles(id, w, fault, answers);
    }
  }

  lemma ReadsKeepFiles(id: Instance, w: World, fault: Fault, answers: Answers)
    requires !w.op.Resizing? && !w.op.Deciding? && !w.op.ConfigMapRead? && !w.op.CaRead? && !w.op.Creating?
    ensures FilesWritten(Operate(id, w, fault, answers).op).Some? ==>
              FilesWritten(Operate(id, w, fault, answers).op) == FilesWritten(w.op)
  {
    if w.op.SetRead? {
      ListLeads(id, w, fault, answers.listing);
    } else if w.op.CaDone? {
      ReadSetLeads(id, w, fault, answers.cache);
    }
  }

  lemma OperateBehind(id: Instance, w: World, fault: Fault, answers: Answers)
    requires Inv(id, w) && Behind(id, w)
    ensures Behind(id, Operate(id, w, fault, answers))
  {
    match w.op
    case ConfigMapRead(_, _) => WriteConfigMapBehind(id, w, fault);
    case Creating(plan) =>
      assert PlanOf(id, plan);
      CreateBehind(id, w, fault);
    case Deciding(_, _) => DecideBehind(id, w, fault);
    case _ =>
      OperateFrame(id, w, fault, answers);
      OthersKeepFiles(id, w, fault, answers);
  }

  lemma OutsideDataBehind(id: Instance, store: Store, configMap: Option<Files>, caSecret: Option<Files>)
    requires AnnotationHeld(id, store)
    ensures AnnotationHeld(id, SetData(store, configMap, caSecret))
    ensures store.held <= SetData(store, configMap, caSecret).held
  {
    if configMap.Some? {
      PutConfigMapBehind(id, store, configMap.value);
    }
    SetDataFrame(store, configMap, caSecret);
  }

  lemma SurroundingsBehind(id: Instance, w: World, a: Action)
    requires Behind(id, w) && !a.Operator? && !a.OutsideSet?
    ensures Behind(id, Next(id, w, a))
  {
    if a.OutsideData? {
      OutsideDataBehind(id, w.store, a.configMap, a.caSecret);
    } else {
      var after := Surroundings(id, w.store, a);
      assert after.held == w.store.held && after.seenMaps == w.store.seenMaps;
      assert after.sts == w.store.sts || after.sts.None?;
    }
  }

  /** At every point, whatever calls failed on the way, however old the answers to Gets were, and
      whatever others put into the ConfigMap, the StatefulSet's checksum annotation is that of
      data the ConfigMap holds or held earlier. */
  lemma {:induction false} AnnotationNeverAhead(id: Instance, ws: seq<World>, acts: seq<Action>, i: nat)
    requires IsRun(id, ws, acts) && Inv(id, ws[0]) && ws[0].op.Idle? && AnnotationHeld(id, ws[0].store) && i < |ws|
    requires forall k :: 0 <= k < |acts| ==> !acts[k].OutsideSet?
    ensures Behind(id, ws[i])
  {
    if i > 0 {
      AnnotationNeverAhead(id, ws, acts, i - 1);
      RunInv(id, ws, acts, i - 1);
      var w, a := ws[i - 1], acts[i - 1];
      if a.Operator? {
        OperateBehind(id, w, a.fault, a.answers);
      } else {
        SurroundingsBehind(id, w, a);
      }
    }
  }

  // ---------- when AimReady is reported ----------

  /** Whenever the operator is about to report AimReady, the ConfigMap holds the files it
      generated, the CA secret holds the root CA it read, and the StatefulSet, unless it has just
      been deleted, is the desired one, annotated with the checksum of the stored ConfigMap. */
  lemma ReadyMeansConsistent(id: Instance, ws: seq<World>, acts: seq<Action>, i: nat)
    requires IsRun(id, ws, acts) && Inv(id, ws[0]) && ws[0].op.Idle? && i < |ws|
    requires forall k :: 0 <= k < |acts| ==> Orderly(acts[k])
    requires ws[i].op.Ready?
    ensures HoldsFiles(ws[i].store, ws[i].op.plan.job.files) && HoldsCa(ws[i].store, ws[i].op.plan.ca)
    ensures StoredAgrees(ws[i].store, ws[i].op.plan.desired)
    ensures ws[i].store.sts.Some? ==>
              ws[i].store.sts.value.body.template.checksum == ChecksumOf(id, ws[i].store.configMap.value.data)
  {
    RunConsistent(id, ws, acts, i);
  }

  function CaInHand(op: Phase): Option<string> {
    match op
    case RootCaRead(_, ca) => Some(ca)
    case CaRead(_, ca, _) => Some(ca)
    case CaDone(_, ca) => Some(ca)
    case Creating(plan) => Some(plan.ca)
    case SetRead(plan, _) => Some(plan.ca)
    case Resizing(plan, _, _, _, _) => Some(plan.ca)
    case Deciding(plan, _) => Some(plan.ca)
    case Ready(plan) => Some(plan.ca)
    case _ => None
  }

  /** The root CA in hand is the current one. */
  predicate CaCurrent(w: World) {
    CaInHand(w.op).Some? ==>
      w.store.rootCa.Some? && "ca.crt" in w.store.rootCa.value && w.store.rootCa.value["ca.crt"] == CaInHand(w.op).value
  }

  predicate SameCaOrNone(before: Phase, after: Phase) {
    CaInHand(after).None? || CaInHand(after) == CaInHand(before)
  }

  lemma WritesKeepCa(id: Instance, w: World, fault: Fault)
    ensures w.op.ConfigMapRead? ==> SameCaOrNone(w.op, WriteConfigMap(w, fault).op)
    ensures w.op.CaRead? ==> SameCaOrNone(w.op, WriteCa(w, fault).op)
    ensures w.op.Creating? ==> SameCaOrNone(w.op, CreateDesired(w, fault).op)
    ensures w.op.Deciding? ==> SameCaOrNone(w.op, Decide(w, fault).op)
    ensures w.op.Resizing? ==> SameCaOrNone(w.op, ResizeNext(id, w, fault).op)
  {
    match w.op
    case ConfigMapRead(_, _) => WriteConfigMapEffect(w, fault);
    case CaRead(_, _, _) => WriteCaEffect(w, fault);
    case Creating(_) => CreateEffect(w, fault);
    case Deciding(_, _) => DecideLeads(w, fault);
    case Resizing(_, _, _, _, _) => ResizeLeads(id, w, fault);
    case _ =>
  }

  lemma CaKept(id: Instance, w: World, fault: Fault, answers: Answers)
    ensures SameCaOrNone(w.op, Operate(id, w, fault, answers).op) || w.op.ConfigMapDone?
  {
    WritesKeepCa(id, w, fault);
  }

  lemma StepCaCurrent(id: Instance, w: World, a: Action)
    requires CaCurrent(w) && !a.RotateCa?
    ensures CaCurrent(Next(id, w, a))
  {
    if a.Operator? {
      CaKept(id, w, a.fault, a.answers);
      OperateFrame(id, w, a.fault, a.answers);
    }
  }

  lemma {:induction false} RunCaCurrent(id: Instance, ws: seq<World>, acts: seq<Action>, i: nat)
    requires IsRun(id, ws, acts) && ws[0].op.Idle? && i < |ws|
    requires forall k :: 0 <= k < |acts| ==> !acts[k].RotateCa?
    ensures CaCurrent(ws[i])
  {
    if i > 0 {
      RunCaCurrent(id, ws, acts, i - 1);
      StepCaCurrent(id, ws[i - 1], acts[i - 1]);
    }
  }

  /** If moreover the root CA was not rotated, the CA secret equals the root CA at that moment. */
  lemma ReadyCaCurrent(id: Instance, ws: seq<World>, acts: seq<Action>, i: nat)
    requires IsRun(id, ws, acts) && Inv(id, ws[0]) && ws[0].op.Idle? && i < |ws|
    requires forall k :: 0 <= k < |acts| ==> Orderly(acts[k]) && !acts[k].RotateCa?
    requires ws[i].op.Ready?
    ensures ws[i].store.rootCa.Some? && "ca.crt" in ws[i].store.rootCa.value
    ensures HoldsCa(ws[i].store, ws[i].store.rootCa.value["ca.crt"])
  {
    RunConsistent(id, ws, acts, i);
    RunCaCurrent(id, ws, acts, i);
  }

  // ---------- what a lagging Get of the ConfigMap does to AimReady ----------

  /** The Get of the ConfigMap was answered with just these files. */
  predicate SeenAsWanted(seen: Option<StoredData>, files: Files) {
    seen.Some? && seen.value.data == files
  }

  /** From the Get on until the reconcile ends: before the write the ConfigMap is as it was; after
      it, it holds the files unless the answer made the operator think that it did already. */
  ghost predicate AfterGet(w: World, start: Store, job: Job, seen: Option<StoredData>) {
    || (w.op == ConfigMapRead(job, seen) && w.store.configMap == start.configMap)
    || (FilesWritten(w.op) == Some(job.files)
        && (HoldsFiles(w.store, job.files) <==> HoldsFiles(start, job.files) || !SeenAsWanted(seen, job.files)))
  }

  lemma WriteAfterGet(w: World, fault: Fault, start: Store, job: Job, seen: Option<StoredData>)
    requires w.op == ConfigMapRead(job, seen) && w.store.configMap == start.configMap
    ensures WriteConfigMap(w, fault).op.Failed? || AfterGet(WriteConfigMap(w, fault), start, job, seen)
  {
  }

  lemma StepAfterGet(id: Instance, w: World, a: Action, start: Store, job: Job, seen: Option<StoredData>)
    requires AfterGet(w, start, job, seen) && !a.OutsideData?
    ensures AfterGet(Next(id, w, a), start, job, seen) || Next(id, w, a).op.Failed? || Next(id, w, a).op.Idle?
  {
    if a.Operator? {
      if w.op.ConfigMapRead? {
        WriteAfterGet(w, a.fault, start, job, seen);
      } else {
        OperateFrame(id, w, a.fault, a.answers);
        StaysWritten(id, w, a.fault, a.answers);
      }
    }
  }

  lemma StaysWritten(id: Instance, w: World, fault: Fault, answers: Answers)
    requires FilesWritten(w.op).Some?
    ensures var next := Operate(id, w, fault, answers).op;
            FilesWritten(next) == FilesWritten(w.op) || next.Failed? || next.Idle?
  {
    match w.op {
      case CaRead(_, _, _) => WriteCaEffect(w, fault);
      case CaDone(_, _) => ReadSetLeads(id, w, fault, answers.cache);
      case Creating(_) => CreateEffect(w, fault);
      case SetRead(_, _) => ListLeads(id, w, fault, answers.listing);
      case Resizing(_, _, _, _, _) => ResizeLeads(id, w, fault);
      case Deciding(_, _) => DecideLeads(w, fault);
      case _ =>
    }
  }

  lemma {:induction false} RunAfterGet(id: Instance, ws: seq<World>, acts: seq<Action>, g: nat, r: nat)
    requires IsRun(id, ws, acts) && g < r < |ws| && ws[g].op.Rendered? && acts[g].Operator?
    requires forall k :: 0 <= k < |acts| ==> !acts[k].OutsideData?
    requires forall k :: g < k <= r ==> !ws[k].op.Failed? && !ws[k].op.Idle?
    ensures AfterGet(ws[r], ws[g].store, ws[g].op.job, SeenConfigMap(ws[g].store, acts[g].answers.cache))
  {
    var start, job, seen := ws[g].store, ws[g].op.job, SeenConfigMap(ws[g].store, acts[g].answers.cache);
    if r == g + 1 {
      assert ws[r] == Next(id, ws[g], acts[g]);
    } else {
      RunAfterGet(id, ws, acts, g, r - 1);
      assert ws[r] == Next(id, ws[r - 1], acts[r - 1]);
      StepAfterGet(id, ws[r - 1], acts[r - 1], start, job, seen);
    }
  }

  /** When a reconcile is about to report AimReady, the ConfigMap holds the files it generated
      exactly if it held them when the reconcile asked for it, or the answer did not show them.
      All other answers may lag as well, and every call before may have failed. */
  lemma ReadyHoldsFilesExact(id: Instance, ws: seq<World>, acts: seq<Action>, g: nat, r: nat)
    requires IsRun(id, ws, acts) && g < r < |ws| && ws[g].op.Rendered? && acts[g].Operator?
    requires forall k :: 0 <= k < |acts| ==> !acts[k].OutsideData?
    requires forall k :: g < k <= r ==> !ws[k].op.Failed? && !ws[k].op.Idle?
    requires ws[r].op.Ready?
    ensures ws[r].op.plan.job.files == ws[g].op.job.files
    ensures HoldsFiles(ws[r].store, ws[r].op.plan.job.files)
            <==> HoldsFiles(ws[g].store, ws[g].op.job.files)
                 || !SeenAsWanted(SeenConfigMap(ws[g].store, acts[g].answers.cache), ws[g].op.job.files)
  {
    RunAfterGet(id, ws, acts, g, r);
  }

  // ---------- two facts about the last decision ----------

  /** With or without outside writers, an update the operator sends is refused for an immutable
      field exactly when the object read is still stored and somebody gave it another revision
      history limit than the server's default of ten; it is accepted exactly when the object is
      still stored and has that limit. */
  lemma UpdateInvalidExact(id: Instance, w: World)
    requires Inv(id, w) && w.op.Deciding? && !RequiresRecreation(w.op.found.body, w.op.plan.desired)
    ensures var reply := UpdateSet(w.store, w.op.found.(body := Updated(w.op.found.body, w.op.plan.desired)));
            && (reply.error == Some(Invalid) <==>
                  w.store.sts == Some(w.op.found) && w.op.found.body.revisionHistoryLimit != Some(10))
            && (reply.error.None? <==>
                  w.store.sts == Some(w.op.found) && w.op.found.body.revisionHistoryLimit == Some(10))
            && (reply.error.None? ==>
                  reply.store.sts.value.body == Admit(Updated(w.op.found.body, w.op.plan.desired))
                  && reply.store.sts.value.deleting == w.op.found.deleting)
  {
    UpdateLegalAndSufficient(w.op.found.body, w.op.plan.desired);
    assert KnownSet(w.store, w.op.found);
    assert PlanOf(id, w.op.plan);
  }

  /** A StatefulSet that is being deleted but matches the resource again is updated, not waited
      for: the reconcile goes on to report AimReady for an object that is about to vanish. */
  lemma ReadyWhileDeleting(id: Instance, w: World)
    requires Inv(id, w) && w.op.Deciding? && w.store.sts == Some(w.op.found)
    ensures Decide(w, NoFault).op.Ready?
            <==> !RequiresRecreation(w.op.found.body, w.op.plan.desired)
                 && w.op.found.body.revisionHistoryLimit == Some(10)
    ensures Decide(w, NoFault).op.Ready? ==> Decide(w, NoFault).store.sts.value.deleting == w.op.found.deleting
  {
    assert Admit(w.op.found.body) == w.op.found.body;
    if !RequiresRecreation(w.op.found.body, w.op.plan.desired) {
      UpdateInvalidExact(id, w);
      assert PlanOf(id, w.op.plan);
      UpdateAlwaysSent(w.op.found.body, id.name, w.op.plan.job.spec, ChecksumOf(id, w.op.plan.job.files));
    }
  }
}
