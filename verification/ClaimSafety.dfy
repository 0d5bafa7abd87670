/** Log storage is never shrunk, moved to another class or lost by the operator, whatever the
    interleaving. */
module ClaimSafety {
  import opened Text
  import opened Kube
  import opened Builder
  import opened Protocol

  /** No claim is removed, reclassed, relabelled or made smaller. */
  ghost predicate Keeps(before: map<string, Claim>, after: map<string, Claim>) {
    forall name :: name in before ==>
      && name in after
      && after[name].storageClass == before[name].storageClass
      && after[name].labels == before[name].labels
      && Size(after[name].request) >= Size(before[name].request)
  }

  /** The operator creates no claim, and one it changes is a selected one brought to the size
      of its plan. */
  ghost predicate OnlyExpands(id: Instance, before: map<string, Claim>, after: map<string, Claim>, op: Phase) {
    && after.Keys == before.Keys
    && forall name :: name in before && after[name] != before[name] ==>
         op.Resizing? && SelectedBy(id, before[name]) && Size(before[name].request) < op.size
         && after[name] == before[name].(request := Some(op.size), version := after[name].version)
  }

  lemma ResizeStepSafe(id: Instance, w: World, fault: Fault)
    requires Inv(id, w) && w.op.Resizing?
    ensures Keeps(w.store.claims, ResizeNext(id, w, fault).store.claims)
    ensures OnlyExpands(id, w.store.claims, ResizeNext(id, w, fault).store.claims, w.op)
  {
    ResizeEffect(id, w, fault);
  }

  /** One operator step, from any reachable state: with stale lists, with faults, after any
      outside edits. */
  lemma OperatorStepSafe(id: Instance, w: World, fault: Fault, answers: Answers)
    requires Inv(id, w)
    ensures Keeps(w.store.claims, Operate(id, w, fault, answers).store.claims)
    ensures OnlyExpands(id, w.store.claims, Operate(id, w, fault, answers).store.claims, w.op)
  {
    if w.op.Resizing? {
      ResizeStepSafe(id, w, fault);
    } else {
      OperateFrame(id, w, fault, answers);
    }
  }

  /** Over whole runs: every operator step in every run of arbitrary actions is safe. */
  lemma RunSafe(id: Instance, ws: seq<World>, acts: seq<Action>, i: nat)
    requires IsRun(id, ws, acts) && Inv(id, ws[0])
    requires i < |acts| && acts[i].Operator?
    ensures Keeps(ws[i].store.claims, ws[i + 1].store.claims)
    ensures OnlyExpands(id, ws[i].store.claims, ws[i + 1].store.claims, ws[i].op)
  {
    RunInv(id, ws, acts, i);
    OperatorStepSafe(id, ws[i], acts[i].fault, acts[i].answers);
  }

  // ---------- nothing is lost either when nobody else writes ----------

  /** The stored StatefulSet's retention policy does not delete claims. */
  predicate Retains(store: Store) {
    store.sts.Some? && store.sts.value.body.retention.Some? ==> store.sts.value.body.retention == Some(RETAIN_ALL)
  }

  predicate NoOutsider(a: Action) {
    !a.OutsideClaim? && !a.OutsideSet?
  }

  lemma DecideRetains(id: Instance, w: World, fault: Fault)
    requires Inv(id, w) && Retains(w.store) && w.op.Deciding?
    ensures Retains(Decide(w, fault).store)
  {
    assert PlanOf(id, w.op.plan);
  }

  lemma CreateRetains(id: Instance, w: World, fault: Fault)
    requires Inv(id, w) && Retains(w.store) && w.op.Creating?
    ensures Retains(CreateDesired(w, fault).store)
  {
    assert PlanOf(id, w.op.plan);
  }

  /** Every StatefulSet the operator writes retains its claims. */
  lemma RetainsStep(id: Instance, w: World, a: Action)
    requires Inv(id, w) && Retains(w.store) && NoOutsider(a)
    ensures Retains(Next(id, w, a).store)
  {
    if a.Operator? {
      if w.op.Deciding? {
        DecideRetains(id, w, a.fault);
      } else if w.op.Creating? {
        CreateRetains(id, w, a.fault);
      } else {
        OperateFrame(id, w, a.fault, a.answers);
      }
    }
  }

  lemma QuietStepSafe(id: Instance, w: World, a: Action)
    requires Inv(id, w) && Retains(w.store) && NoOutsider(a)
    ensures Keeps(w.store.claims, Next(id, w, a).store.claims)
  {
    if a.Operator? {
      OperatorStepSafe(id, w, a.fault, a.answers);
    }
  }

  /** Between any two points of a run without outside edits to claims or StatefulSets, across
      CR edits, persistence toggles, delete-and-recreate and API faults, every claim is still
      there, in its class and at least as large. */
  lemma {:induction false} RunKeepsClaims(id: Instance, ws: seq<World>, acts: seq<Action>, i: nat, j: nat)
    requires IsRun(id, ws, acts) && Inv(id, ws[0]) && Retains(ws[0].store)
    requires forall k :: 0 <= k < |acts| ==> NoOutsider(acts[k])
    requires i <= j < |ws|
    ensures Keeps(ws[i].store.claims, ws[j].store.claims) && Retains(ws[j].store)
    decreases j
  {
    if j > 0 {
      RunKeepsClaims(id, ws, acts, if i < j then i else j - 1, j - 1);
      RunInv(id, ws, acts, j - 1);
      QuietStepSafe(id, ws[j - 1], acts[j - 1]);
      RetainsStep(id, ws[j - 1], acts[j - 1]);
      if i < j {
        KeepsTransitive(ws[i].store.claims, ws[j - 1].store.claims, ws[j].store.claims);
      }
    }
  }

  lemma KeepsTransitive(a: map<string, Claim>, b: map<string, Claim>, c: map<string, Claim>)
    requires Keeps(a, b) && Keeps(b, c)
    ensures Keeps(a, c)
  {
  }
}
