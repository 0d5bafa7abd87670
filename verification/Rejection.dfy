/** What happens while something stored stands in the way of the resource: a claim that is larger
    than wanted or of another class, or a StatefulSet whose template is of another class. */
module Rejection {
  import opened Text
  import opened Kube
  import opened Builder
  import opened Templates
  import opened Protocol
  import opened ClaimSafety
  import Names

  // ---------- a claim in the way ----------

  /** The claim is stored as it is, selected, and refused. */
  predicate Culprit(id: Instance, store: Store, culprit: Claim, spec: CrSpec) {
    && SizedSpec(spec)
    && culprit.name in store.claims && store.claims[culprit.name] == culprit && SelectedBy(id, culprit)
    && Refused(culprit, DesiredSize(spec), DesiredClass(spec))
  }

  /** Claims still to be looked at are stored as they were listed, once each. */
  ghost predicate Current(store: Store, pending: seq<Claim>) {
    && (forall i :: 0 <= i < |pending| ==> pending[i].name in store.claims && store.claims[pending[i].name] == pending[i])
    && (forall i, j :: 0 <= i < j < |pending| ==> pending[i].name != pending[j].name)
  }

  /** A culprit is stored, and no reconcile that found a StatefulSet is past it. The Create branch
      does not look at claims: without a StatefulSet a reconcile goes on to Ready. */
  ghost predicate Blocked(id: Instance, w: World, culprit: Claim, spec: CrSpec) {
    && w.store.cr == spec && Retains(w.store) && Culprit(id, w.store, culprit, spec)
    && (JobOf(w.op).Some? ==> JobOf(w.op).value.spec == spec)
    && (w.op.Resizing? ==> Current(w.store, w.op.pending) && culprit in w.op.pending)
    && !w.op.Deciding?
  }

  /** The resource is not edited, nobody else touches claims and StatefulSet, and lists are up to
      date. Calls may fail, and Gets may lag behind. */
  ghost predicate Undisturbed(id: Instance, w: World, a: Action) {
    && NoOutsider(a) && !a.EditSpec?
    && (a.Operator? && w.op.SetRead? ==> FreshListing(id, w.store, a.answers.listing))
  }

  lemma TailCurrent(store: Store, pending: seq<Claim>)
    requires |pending| > 0 && Current(store, pending)
    ensures Current(store, pending[1..]) && pending[0].name !in (set i | 1 <= i < |pending| :: pending[i].name)
  {
  }

  /** Expanding the first claim leaves the others current. */
  lemma ExpandedCurrent(store: Store, pending: seq<Claim>, c: Claim)
    requires |pending| > 0 && Current(store, pending) && c.name == pending[0].name
    ensures Current(PutClaim(store, c.name, c), pending[1..])
  {
    TailCurrent(store, pending);
    forall i | 0 <= i < |pending[1..]| ensures pending[1..][i].name != c.name {
      assert pending[1..][i] == pending[i + 1];
    }
  }

  /** What is left to look at after the first claim, when that was not the culprit. */
  lemma TailWaits(store: Store, after: Store, pending: seq<Claim>, culprit: Claim, size: int)
    requires |pending| > 0 && Current(store, pending) && culprit in pending && pending[0] != culprit
    requires after.claims == store.claims
             || after == PutClaim(store, pending[0].name, pending[0].(request := Some(size)))
    ensures Current(after, pending[1..]) && culprit in pending[1..]
    ensures culprit.name in after.claims && after.claims[culprit.name] == culprit
  {
    assert pending == [pending[0]] + pending[1..];
    var k :| 1 <= k < |pending| && pending[k] == culprit;
    assert pending[0].name != culprit.name;
    TailCurrent(store, pending);
    if after.claims != store.claims {
      ExpandedCurrent(store, pending, pending[0].(request := Some(size)));
    }
  }

  /** The culprit itself is refused; another claim is refused, skipped or expanded. */
  lemma CulpritRefused(id: Instance, w: World, fault: Fault, culprit: Claim)
    requires w.op.Resizing? && |w.op.pending| > 0 && w.op.pending[0] == culprit && SelectedBy(id, culprit)
    requires Refused(culprit, w.op.size, w.op.wantedClass)
    ensures ResizeNext(id, w, fault).op.Failed? && ResizeNext(id, w, fault).store == w.store
  {
  }

  lemma RoundBlocked(id: Instance, w: World, after: World, culprit: Claim, spec: CrSpec)
    requires Blocked(id, w, culprit, spec) && w.op.Resizing? && w.op.pending[0] != culprit
    requires after.store == w.store || Expands(id, w, after.store)
    requires after.op.Failed? || after.op == w.op.(pending := w.op.pending[1..])
    ensures Blocked(id, after, culprit, spec)
  {
    TailWaits(w.store, after.store, w.op.pending, culprit, w.op.size);
  }

  lemma ResizeBlocked(id: Instance, w: World, fault: Fault, culprit: Claim, spec: CrSpec)
    requires Inv(id, w) && Blocked(id, w, culprit, spec) && w.op.Resizing?
    ensures Blocked(id, ResizeNext(id, w, fault), culprit, spec)
  {
    if w.op.pending[0] == culprit {
      CulpritRefused(id, w, fault, culprit);
    } else {
      ResizeEffect(id, w, fault);
      ResizeLeads(id, w, fault);
      RoundBlocked(id, w, ResizeNext(id, w, fault), culprit, spec);
    }
  }

  lemma ListStarts(id: Instance, w: World, fault: Fault, listing: seq<Claim>)
    requires w.op.SetRead? && SizedSpec(w.op.plan.job.spec)
    ensures var after := ListClaims(id, w, fault, listing);
            && after.store == w.store
            && (after.op.Failed? || (after.op.Resizing? && after.op.plan == w.op.plan && after.op.pending == listing))
    ensures fault.NoFault? && PossibleListing(id, w.store, listing) ==> ListClaims(id, w, fault, listing).op.Resizing?
  {
  }

  lemma ListBlocked(id: Instance, w: World, fault: Fault, listing: seq<Claim>, culprit: Claim, spec: CrSpec)
    requires Blocked(id, w, culprit, spec) && w.op.SetRead? && FreshListing(id, w.store, listing)
    ensures Blocked(id, ListClaims(id, w, fault, listing), culprit, spec)
  {
    assert w.op.plan.job.spec == spec;
    assert Labelled(id, culprit) && culprit in listing;
    ListStarts(id, w, fault, listing);
  }

  lemma OtherLeads(id: Instance, w: World, fault: Fault, answers: Answers)
    requires !w.op.SetRead? && !w.op.Resizing? && !w.op.Deciding?
    ensures var next := Operate(id, w, fault, answers).op;
            && !next.Resizing? && !next.Deciding?
            && (JobOf(next).Some? ==>
                  JobOf(next) == JobOf(w.op) || (w.op.Idle? && JobOf(next).value.spec == w.store.cr))
  {
    match w.op {
      case ConfigMapRead(_, _) => WriteConfigMapEffect(w, fault);
      case CaRead(_, _, _) => WriteCaEffect(w, fault);
      case Creating(_) => CreateEffect(w, fault);
      case _ =>
    }
  }

  /** The other steps of the operator do not touch claims and keep to the resource. */
  lemma OtherBlocked(id: Instance, w: World, fault: Fault, answers: Answers, culprit: Claim, spec: CrSpec)
    requires Inv(id, w) && Blocked(id, w, culprit, spec) && !w.op.SetRead? && !w.op.Resizing?
    ensures Blocked(id, Operate(id, w, fault, answers), culprit, spec)
  {
    OperateFrame(id, w, fault, answers);
    OtherLeads(id, w, fault, answers);
    RetainsStep(id, w, Operator(fault, answers));
  }

  /** A claim that is born takes no name in use. */
  lemma SurroundingsBlocked(id: Instance, w: World, a: Action, culprit: Claim, spec: CrSpec)
    requires Inv(id, w) && Blocked(id, w, culprit, spec) && Undisturbed(id, w, a) && !a.Operator?
    ensures Blocked(id, Next(id, w, a), culprit, spec)
  {
    RetainsStep(id, w, a);
    if a.OutsideData? {
      SetDataFrame(w.store, a.configMap, a.caSecret);
    }
    var after := Surroundings(id, w.store, a);
    assert forall name :: name in w.store.claims ==> name in after.claims && after.claims[name] == w.store.claims[name];
  }

  lemma BlockedStep(id: Instance, w: World, a: Action, culprit: Claim, spec: CrSpec)
    requires Inv(id, w) && Blocked(id, w, culprit, spec) && Undisturbed(id, w, a)
    ensures Blocked(id, Next(id, w, a), culprit, spec)
  {
    if !a.Operator? {
      SurroundingsBlocked(id, w, a, culprit, spec);
    } else if w.op.Resizing? {
      ResizeBlocked(id, w, a.fault, culprit, spec);
    } else if w.op.SetRead? {
      ListBlocked(id, w, a.fault, a.answers.listing, culprit, spec);
    } else {
      OtherBlocked(id, w, a.fault, a.answers, culprit, spec);
    }
  }

  /** As long as the resource stands and nobody removes the claim, no reconcile that finds a
      StatefulSet ever gets past it: the StatefulSet is neither updated nor recreated. */
  lemma {:induction false} StaysBlocked(id: Instance, ws: seq<World>, acts: seq<Action>, culprit: Claim, spec: CrSpec, i: nat)
    requires IsRun(id, ws, acts) && Inv(id, ws[0]) && Blocked(id, ws[0], culprit, spec) && i < |ws|
    requires forall k :: 0 <= k < |acts| ==> Undisturbed(id, ws[k], acts[k])
    ensures Inv(id, ws[i]) && Blocked(id, ws[i], culprit, spec)
  {
    if i > 0 {
      StaysBlocked(id, ws, acts, culprit, spec, i - 1);
      StepInv(id, ws[i - 1], acts[i - 1]);
      BlockedStep(id, ws[i - 1], acts[i - 1], culprit, spec);
    }
  }

  /** So the Create branch is the only way to AimReady. */
  lemma ReadyOnlyByCreate(id: Instance, ws: seq<World>, acts: seq<Action>, culprit: Claim, spec: CrSpec, i: nat)
    requires IsRun(id, ws, acts) && Inv(id, ws[0]) && Blocked(id, ws[0], culprit, spec) && i < |acts|
    requires forall k :: 0 <= k < |acts| ==> Undisturbed(id, ws[k], acts[k])
    ensures ws[i + 1].op.Ready? ==> ws[i].op.Ready? || ws[i].op.Creating?
  {
    StaysBlocked(id, ws, acts, culprit, spec, i);
    if acts[i].Operator? {
      OnlyDecisionsReady(id, ws[i], acts[i].fault, acts[i].answers);
    }
  }

  lemma OnlyDecisionsReady(id: Instance, w: World, fault: Fault, answers: Answers)
    ensures Operate(id, w, fault, answers).op.Ready? ==> w.op.Creating? || w.op.Deciding?
  {
    match w.op {
      case ConfigMapRead(_, _) => WriteConfigMapEffect(w, fault);
      case CaRead(_, _, _) => WriteCaEffect(w, fault);
      case SetRead(_, _) => ListLeads(id, w, fault, answers.listing);
      case CaDone(_, _) => ReadSetLeads(id, w, fault, answers.cache);
      case Resizing(_, _, _, _, _) => ResizeLeads(id, w, fault);
      case _ =>
    }
  }

  /** The error is the refusal of a stored, selected claim. */
  ghost predicate Refusal(id: Instance, store: Store, spec: CrSpec, error: Error)
    requires SizedSpec(spec)
  {
    exists name :: name in store.claims && SelectedBy(id, store.claims[name])
                   && RefusedWith(store.claims[name], DesiredSize(spec), DesiredClass(spec), error)
  }

  /** The selected claims are of the class that is named, if one is. */
  ghost predicate ClassesFit(id: Instance, claims: map<string, Claim>, spec: CrSpec)
    requires Persists(spec)
  {
    forall name :: name in claims && SelectedBy(id, claims[name]) ==>
      DesiredClass(spec) == "" || claims[name].storageClass == Some(DesiredClass(spec))
  }

  lemma RefusalKind(id: Instance, store: Store, spec: CrSpec, error: Error)
    requires SizedSpec(spec) && Refusal(id, store, spec, error)
    ensures error.ClaimShrink? || error.ClaimClassChange?
    ensures ClassesFit(id, store.claims, spec) ==> error.ClaimShrink?
  {
  }

  /** A round whose call does not fail goes on with fewer claims, or ends in a refusal. */
  lemma RoundRefuses(id: Instance, w: World, culprit: Claim, spec: CrSpec)
    requires Inv(id, w) && Blocked(id, w, culprit, spec) && w.op.Resizing?
    ensures var next := ResizeNext(id, w, NoFault).op;
            || (next.Resizing? && |next.pending| < |w.op.pending|)
            || (next.Failed? && Refusal(id, w.store, spec, next.error))
  {
    var c := w.op.pending[0];
    assert w.store.claims[c.name] == c && Known(w.store, c) && Labelled(id, c);
    if HasPrefix(c.name, Names.ClaimPrefix(id.name)) && Refused(c, w.op.size, w.op.wantedClass) {
      assert SelectedBy(id, w.store.claims[c.name]);
    }
  }

  /** How often the operator has its turn in acts[i..j]. */
  function Turns(acts: seq<Action>, i: nat, j: nat): nat
    requires i <= j <= |acts|
  {
    if i == j then 0 else Turns(acts, i, j - 1) + (if acts[j - 1].Operator? then 1 else 0)
  }

  lemma ListingOpens(id: Instance, w: World, a: Action, culprit: Claim, spec: CrSpec)
    requires Inv(id, w) && Blocked(id, w, culprit, spec) && w.op.SetRead? && Undisturbed(id, w, a)
    requires a.Operator? && a.fault.NoFault?
    ensures Next(id, w, a).op.Resizing? && Next(id, w, a).op.pending == a.answers.listing
  {
    FreshIsPossible(id, w.store, a.answers.listing);
    ListStarts(id, w, NoFault, a.answers.listing);
  }

  lemma TurnCounts(id: Instance, w: World, a: Action, culprit: Claim, spec: CrSpec)
    requires Inv(id, w) && Blocked(id, w, culprit, spec) && w.op.Resizing?
    requires a.Operator? ==> a.fault.NoFault?
    ensures var after := Next(id, w, a);
            || (after.op.Resizing? && |after.op.pending| + (if a.Operator? then 1 else 0) <= |w.op.pending|)
            || (after.op.Failed? && Refusal(id, after.store, spec, after.op.error))
  {
    if a.Operator? {
      RoundRefuses(id, w, culprit, spec);
      if ResizeNext(id, w, NoFault).op.Failed? {
        RefusalLeavesStore(id, w);
      }
    }
  }

  /** What one step makes of a reconcile at its claims, by TurnCounts. */
  ghost predicate Counts(id: Instance, ws: seq<World>, acts: seq<Action>, spec: CrSpec, k: nat)
    requires k < |acts| < |ws| && SizedSpec(spec)
  {
    ws[k].op.Resizing? ==>
      || (ws[k + 1].op.Resizing?
          && |ws[k + 1].op.pending| + (if acts[k].Operator? then 1 else 0) <= |ws[k].op.pending|)
      || (ws[k + 1].op.Failed? && Refusal(id, ws[k + 1].store, spec, ws[k + 1].op.error))
  }

  /** The list call of step i has succeeded and every later step counts. */
  ghost predicate Counting(id: Instance, ws: seq<World>, acts: seq<Action>, spec: CrSpec, i: nat, j: nat)
    requires i < j <= |acts| < |ws| && SizedSpec(spec)
  {
    && acts[i].Operator? && ws[i + 1].op.Resizing? && |ws[i + 1].op.pending| <= |acts[i].answers.listing|
    && forall k :: i < k < j ==> Counts(id, ws, acts, spec, k)
  }

  lemma BlockedCounts(id: Instance, ws: seq<World>, acts: seq<Action>, culprit: Claim, spec: CrSpec, i: nat, j: nat)
    requires IsRun(id, ws, acts) && Inv(id, ws[0]) && Blocked(id, ws[0], culprit, spec) && i < j < |ws|
    requires forall k :: 0 <= k < |acts| ==> Undisturbed(id, ws[k], acts[k])
    requires forall k :: i <= k < j && acts[k].Operator? ==> acts[k].fault.NoFault?
    requires ws[i].op.SetRead? && acts[i].Operator?
    ensures Counting(id, ws, acts, spec, i, j)
  {
    StaysBlocked(id, ws, acts, culprit, spec, i);
    ListingOpens(id, ws[i], acts[i], culprit, spec);
    forall k | i < k < j ensures Counts(id, ws, acts, spec, k) {
      if ws[k].op.Resizing? {
        StaysBlocked(id, ws, acts, culprit, spec, k);
        TurnCounts(id, ws[k], acts[k], culprit, spec);
      }
    }
  }

  /** From the list call on the reconcile is at its claims, with as many left at most as it has
      not had turns for, or it has ended in a refusal. */
  lemma {:induction false} RefusedOrWaiting(id: Instance, ws: seq<World>, acts: seq<Action>, spec: CrSpec,
                                            i: nat, j: nat) returns (refused: Option<nat>)
    requires i < j <= |acts| < |ws| && SizedSpec(spec) && Counting(id, ws, acts, spec, i, j)
    ensures refused.None? ==>
              && ws[j].op.Resizing? && |ws[j].op.pending| + Turns(acts, i, j) <= |acts[i].answers.listing| + 1
              && forall k :: i < k <= j ==> ws[k].op.Resizing?
    ensures refused.Some? ==>
              && i < refused.value <= j && ws[refused.value].op.Failed?
              && Refusal(id, ws[refused.value].store, spec, ws[refused.value].op.error)
              && forall k :: i < k < refused.value ==> ws[k].op.Resizing?
    decreases j
  {
    refused := None;
    if i == j - 1 {
      assert Turns(acts, i, i) == 0;
    } else {
      refused := RefusedOrWaiting(id, ws, acts, spec, i, j - 1);
      assert Counts(id, ws, acts, spec, j - 1);
      if refused.None? && ws[j].op.Failed? {
        refused := Some(j);
      }
    }
  }

  /** The list call and as many turns as there are claims in the list: by then the reconcile has
      ended in a refusal, and it was at its claims all the time before. */
  lemma EndsInRefusal(id: Instance, ws: seq<World>, acts: seq<Action>, culprit: Claim, spec: CrSpec, i: nat, j: nat)
      returns (k: nat)
    requires IsRun(id, ws, acts) && Inv(id, ws[0]) && Blocked(id, ws[0], culprit, spec) && i < j < |ws|
    requires forall k :: 0 <= k < |acts| ==> Undisturbed(id, ws[k], acts[k])
    requires forall k :: i <= k < j && acts[k].Operator? ==> acts[k].fault.NoFault?
    requires ws[i].op.SetRead? && acts[i].Operator? && Turns(acts, i, j) > |acts[i].answers.listing|
    ensures i < k <= j && ws[k].op.Failed? && Refusal(id, ws[k].store, spec, ws[k].op.error)
    ensures forall m :: i < m < k ==> ws[m].op.Resizing?
  {
    BlockedCounts(id, ws, acts, culprit, spec, i, j);
    var refused := RefusedOrWaiting(id, ws, acts, spec, i, j);
    StaysBlocked(id, ws, acts, culprit, spec, j);
    assert ws[j].op.Resizing? ==> |ws[j].op.pending| > 0;
    k := refused.value;
  }

  lemma RefusalLeavesStore(id: Instance, w: World)
    requires w.op.Resizing? && ResizeNext(id, w, NoFault).op.Failed?
    ensures ResizeNext(id, w, NoFault).store == w.store
  {
  }

  // ---------- a size lowered too early ----------

  /** A StatefulSet whose claim template still has a larger size: the resource's size was lowered
      after it was written, and updates keep the template. */
  predicate KeepsLarger(id: Instance, body: StatefulSet, spec: CrSpec, size: int) {
    && SizedSpec(spec) && size > DesiredSize(spec)
    && body.templates == [LogTemplate(id.name, size, DesiredClass(spec))]
    && body.selector.matchLabels == map["app" := id.name]
  }

  /** How it comes about: a size lowered before any claim exists is not noticed, neither as a
      class change nor as a reason to recreate, and the update keeps the larger template; the
      first claim born from it is then too large. */
  lemma LoweredSizeSurfacesLate(id: Instance, before: CrSpec, after: CrSpec, oldSum: string, newSum: string,
                                ordinal: nat, defaultClass: Option<string>)
    requires SizedSpec(before) && SizedSpec(after) && DesiredClass(before) == DesiredClass(after)
    requires DesiredSize(after) < DesiredSize(before)
    ensures var stored := Admit(Desired(id.name, before, oldSum));
            var desired := Desired(id.name, after, newSum);
            var kept := Admit(Updated(stored, desired));
            var born := NewClaim(id, kept, kept.templates[0], ordinal, defaultClass);
            && ValidateClassChange(stored.templates, desired.templates).None?
            && !RequiresRecreation(stored, desired)
            && KeepsLarger(id, kept, after, DesiredSize(before))
            && SelectedBy(id, born)
            && RefusedWith(born, DesiredSize(after), DesiredClass(after),
                           ClaimShrink(born.name, DesiredSize(before), DesiredSize(after)))
  {
    RecreationExact(id.name, before, after, oldSum, newSum);
    Names.SelectionExact(id.name, ordinal, "", map["app" := id.name]);
    var stored := Admit(Desired(id.name, before, oldSum));
    var kept := Admit(Updated(stored, Desired(id.name, after, newSum)));
    assert kept.templates[0] == LogTemplate(id.name, DesiredSize(before), DesiredClass(before));
    var born := NewClaim(id, kept, kept.templates[0], ordinal, defaultClass);
    assert born.labels == map["app" := id.name];
  }

  lemma BornBlocks(id: Instance, w: World, ordinal: nat, defaultClass: Option<string>, size: int)
    requires Inv(id, w) && w.op.Idle? && Retains(w.store) && IsMissing(id, w.store, 0, ordinal)
    requires KeepsLarger(id, w.store.sts.value.body, w.store.cr, size)
    ensures var after := Next(id, w, BornClaim(0, ordinal, defaultClass));
            var name := Names.ClaimName(Names.LOG_TEMPLATE, id.name, ordinal);
            name in after.store.claims && Blocked(id, after, after.store.claims[name], w.store.cr)
  {
    Names.SelectionExact(id.name, ordinal, "", map["app" := id.name]);
    var body := w.store.sts.value.body;
    var born := NewClaim(id, body, body.templates[0], ordinal, defaultClass);
    assert born.labels == map["app" := id.name];
  }

  /** The first claim born from such a template blocks every later reconcile: as long as the
      resource stands, none that finds a StatefulSet gets past its claims. */
  lemma LoweredSizeBlocks(id: Instance, ws: seq<World>, acts: seq<Action>, ordinal: nat,
                          defaultClass: Option<string>, size: int, i: nat) returns (culprit: Claim)
    requires IsRun(id, ws, acts) && Inv(id, ws[0]) && ws[0].op.Idle? && Retains(ws[0].store)
    requires IsMissing(id, ws[0].store, 0, ordinal)
    requires KeepsLarger(id, ws[0].store.sts.value.body, ws[0].store.cr, size)
    requires |acts| > 0 && acts[0] == BornClaim(0, ordinal, defaultClass)
    requires forall k :: 1 <= k < |acts| ==> Undisturbed(id, ws[k], acts[k])
    requires 1 <= i < |ws|
    ensures IsRun(id, ws[1..], acts[1..]) && Inv(id, ws[1]) && Blocked(id, ws[1], culprit, ws[0].store.cr)
    ensures Blocked(id, ws[i], culprit, ws[0].store.cr)
  {
    StepInv(id, ws[0], acts[0]);
    BornBlocks(id, ws[0], ordinal, defaultClass, size);
    assert ws[1] == Next(id, ws[0], acts[0]);
    culprit := ws[1].store.claims[Names.ClaimName(Names.LOG_TEMPLATE, id.name, ordinal)];
    var later, laterActs := ws[1..], acts[1..];
    assert IsRun(id, later, laterActs);
    StaysBlocked(id, later, laterActs, culprit, ws[0].store.cr, i - 1);
  }

  lemma {:induction false} TurnsShift(acts: seq<Action>, i: nat, j: nat)
    requires 1 <= i <= j <= |acts|
    ensures Turns(acts[1..], i - 1, j - 1) == Turns(acts, i, j)
  {
    if i < j {
      TurnsShift(acts, i, j - 1);
    }
  }

  /** The same of a run whose first action came before. */
  lemma EndsInRefusalLater(id: Instance, ws: seq<World>, acts: seq<Action>, culprit: Claim, spec: CrSpec, i: nat, j: nat)
      returns (k: nat)
    requires |acts| > 0 && |ws| == |acts| + 1 && IsRun(id, ws[1..], acts[1..])
    requires Inv(id, ws[1]) && Blocked(id, ws[1], culprit, spec) && 1 <= i < j < |ws|
    requires forall k :: 1 <= k < |acts| ==> Undisturbed(id, ws[k], acts[k])
    requires forall k :: i <= k < j && acts[k].Operator? ==> acts[k].fault.NoFault?
    requires ws[i].op.SetRead? && acts[i].Operator? && Turns(acts, i, j) > |acts[i].answers.listing|
    ensures i < k <= j && ws[k].op.Failed? && Refusal(id, ws[k].store, spec, ws[k].op.error)
  {
    TurnsShift(acts, i, j);
    var before := EndsInRefusal(id, ws[1..], acts[1..], culprit, spec, i - 1, j - 1);
    k := before + 1;
  }

  /** And each of them whose list is up to date and whose calls succeed ends in a refusal within as
      many turns as there are claims in the list; if no claim is of another class, it says that
      the storage cannot be reduced. */
  lemma LoweredSizeRefused(id: Instance, ws: seq<World>, acts: seq<Action>, ordinal: nat,
                           defaultClass: Option<string>, size: int, i: nat, j: nat) returns (k: nat)
    requires IsRun(id, ws, acts) && Inv(id, ws[0]) && ws[0].op.Idle? && Retains(ws[0].store)
    requires IsMissing(id, ws[0].store, 0, ordinal)
    requires KeepsLarger(id, ws[0].store.sts.value.body, ws[0].store.cr, size)
    requires |acts| > 0 && acts[0] == BornClaim(0, ordinal, defaultClass)
    requires forall k :: 1 <= k < |acts| ==> Undisturbed(id, ws[k], acts[k])
    requires 1 <= i < j < |ws| && ws[i].op.SetRead? && acts[i].Operator?
    requires forall k :: i <= k < j && acts[k].Operator? ==> acts[k].fault.NoFault?
    requires Turns(acts, i, j) > |acts[i].answers.listing|
    ensures i < k <= j && ws[k].op.Failed? && Refusal(id, ws[k].store, ws[0].store.cr, ws[k].op.error)
    ensures ClassesFit(id, ws[k].store.claims, ws[0].store.cr) ==> ws[k].op.error.ClaimShrink?
  {
    var culprit := LoweredSizeBlocks(id, ws, acts, ordinal, defaultClass, size, j);
    k := EndsInRefusalLater(id, ws, acts, culprit, ws[0].store.cr, i, j);
    RefusalKind(id, ws[k].store, ws[0].store.cr, ws[k].op.error);
  }

  // ---------- a StatefulSet in the way ----------

  /** The stored template is of another class than the resource wants, and no reconcile is past
      that. */
  ghost predicate TemplateBlocked(id: Instance, w: World, body: StatefulSet, spec: CrSpec) {
    && Parses(spec) && w.store.cr == spec
    && w.store.sts.Some? && !w.store.sts.value.deleting && w.store.sts.value.body == body
    && ValidateClassChange(body.templates, DesiredTemplates(id.name, spec)).Some?
    && (JobOf(w.op).Some? ==> JobOf(w.op).value.spec == spec)
    && !w.op.Creating? && !w.op.SetRead? && !w.op.Resizing? && !w.op.Deciding? && !w.op.Ready?
  }

  lemma TemplateBlockedStep(id: Instance, w: World, a: Action, body: StatefulSet, spec: CrSpec)
    requires TemplateBlocked(id, w, body, spec) && !a.EditSpec? && !a.OutsideSet?
    requires a.Operator? ==> a.answers.cache.Fresh?
    ensures TemplateBlocked(id, Next(id, w, a), body, spec)
    ensures a.Operator? && a.fault.NoFault? && w.op.CaDone? ==>
              Next(id, w, a).op.Failed? && Next(id, w, a).op.error.TemplateClassChange?
  {
    if a.Operator? {
      OperateFrame(id, w, a.fault, a.answers);
      OtherLeads(id, w, a.fault, a.answers);
    } else if a.OutsideData? {
      SetDataFrame(w.store, a.configMap, a.caSecret);
    }
  }

  /** As long as the resource and the StatefulSet stand, no reconcile gets past the class check. */
  lemma {:induction false} StaysTemplateBlocked(id: Instance, ws: seq<World>, acts: seq<Action>, body: StatefulSet,
                                                spec: CrSpec, i: nat)
    requires IsRun(id, ws, acts) && TemplateBlocked(id, ws[0], body, spec) && i < |ws|
    requires forall k :: 0 <= k < |acts| ==>
               !acts[k].EditSpec? && !acts[k].OutsideSet? && (acts[k].Operator? ==> acts[k].answers.cache.Fresh?)
    ensures TemplateBlocked(id, ws[i], body, spec)
  {
    if i > 0 {
      StaysTemplateBlocked(id, ws, acts, body, spec, i - 1);
      TemplateBlockedStep(id, ws[i - 1], acts[i - 1], body, spec);
    }
  }

  // ---------- a StatefulSet the server will not update ----------

  /** Recreation does not depend on the checksum. */
  predicate Recreates(id: Instance, body: StatefulSet, spec: CrSpec)
    requires Parses(spec)
  {
    RequiresRecreation(body, Desired(id.name, spec, ""))
  }

  /** The stored StatefulSet has another revision history limit than the server's default and need
      not be recreated; no reconcile is past its update. */
  ghost predicate LimitBlocked(id: Instance, w: World, found: StoredSet, spec: CrSpec) {
    && Parses(spec) && w.store.cr == spec
    && w.store.sts == Some(found) && !found.deleting && KnownSet(w.store, found)
    && found.body.revisionHistoryLimit != Some(10) && !Recreates(id, found.body, spec)
    && (JobOf(w.op).Some? ==> JobOf(w.op).value.spec == spec)
    && (w.op.SetRead? || w.op.Resizing? || w.op.Deciding? ==>
          w.op.found == found && PlanOf(id, w.op.plan) && w.op.plan.job.spec == spec)
    && !w.op.Creating? && !w.op.Ready?
  }

  lemma LimitRefused(id: Instance, w: World, fault: Fault, found: StoredSet, spec: CrSpec)
    requires LimitBlocked(id, w, found, spec) && SetHistory(w.store) && w.op.Deciding?
    ensures Decide(w, fault).store == w.store && Decide(w, fault).op.Failed?
    ensures fault.NoFault? ==> Decide(w, fault).op.error.Invalid?
  {
    var plan := w.op.plan;
    assert !RequiresRecreation(found.body, plan.desired);
    UpdateLegalAndSufficient(found.body, plan.desired);
    assert Admit(found.body) == found.body;
    UpdateAlwaysSent(found.body, id.name, spec, ChecksumOf(id, plan.job.files));
  }

  lemma LimitReadSet(id: Instance, w: World, fault: Fault, found: StoredSet, spec: CrSpec)
    requires LimitBlocked(id, w, found, spec) && w.op.CaDone?
    ensures LimitBlocked(id, ReadSet(id, w, fault, Fresh), found, spec)
  {
  }

  lemma LimitList(id: Instance, w: World, fault: Fault, listing: seq<Claim>, found: StoredSet, spec: CrSpec)
    requires LimitBlocked(id, w, found, spec) && w.op.SetRead?
    ensures LimitBlocked(id, ListClaims(id, w, fault, listing), found, spec)
  {
    ListLeads(id, w, fault, listing);
  }

  lemma LimitResize(id: Instance, w: World, fault: Fault, found: StoredSet, spec: CrSpec)
    requires LimitBlocked(id, w, found, spec) && w.op.Resizing?
    ensures LimitBlocked(id, ResizeNext(id, w, fault), found, spec)
  {
    ResizeFrame(id, w, fault);
    ResizeLeads(id, w, fault);
  }

  lemma LimitEarly(id: Instance, w: World, fault: Fault, answers: Answers, found: StoredSet, spec: CrSpec)
    requires LimitBlocked(id, w, found, spec)
    requires !w.op.CaDone? && !w.op.SetRead? && !w.op.Resizing? && !w.op.Deciding?
    ensures LimitBlocked(id, Operate(id, w, fault, answers), found, spec)
  {
    OperateFrame(id, w, fault, answers);
    EarlyLeads(id, w, fault, answers);
  }

  lemma LimitBlockedStep(id: Instance, w: World, a: Action, found: StoredSet, spec: CrSpec)
    requires Inv(id, w) && LimitBlocked(id, w, found, spec) && !a.EditSpec? && !a.OutsideSet?
    requires a.Operator? ==> a.answers.cache.Fresh?
    ensures LimitBlocked(id, Next(id, w, a), found, spec)
  {
    if a.Operator? {
      if w.op.CaDone? {
        LimitReadSet(id, w, a.fault, found, spec);
      } else if w.op.SetRead? {
        LimitList(id, w, a.fault, a.answers.listing, found, spec);
      } else if w.op.Resizing? {
        LimitResize(id, w, a.fault, found, spec);
      } else if w.op.Deciding? {
        LimitRefused(id, w, a.fault, found, spec);
      } else {
        LimitEarly(id, w, a.fault, a.answers, found, spec);
      }
    } else {
      LimitSurroundings(id, w, a, found, spec);
    }
  }

  lemma LimitSurroundings(id: Instance, w: World, a: Action, found: StoredSet, spec: CrSpec)
    requires LimitBlocked(id, w, found, spec) && !a.Operator? && !a.EditSpec? && !a.OutsideSet?
    ensures LimitBlocked(id, Next(id, w, a), found, spec)
  {
    if a.OutsideData? {
      SetDataFrame(w.store, a.configMap, a.caSecret);
    } else {
      var after := Surroundings(id, w.store, a);
      assert after.sts == w.store.sts && after.seenSets == w.store.seenSets && after.cr == w.store.cr;
    }
  }

  /** The steps before the StatefulSet is read. */
  lemma EarlyLeads(id: Instance, w: World, fault: Fault, answers: Answers)
    requires !w.op.CaDone? && !w.op.SetRead? && !w.op.Resizing? && !w.op.Deciding? && !w.op.Creating?
    ensures var next := Operate(id, w, fault, answers).op;
            && !next.SetRead? && !next.Resizing? && !next.Deciding? && !next.Creating? && !next.Ready?
            && (JobOf(next).Some? ==>
                  JobOf(next) == JobOf(w.op) || (w.op.Idle? && JobOf(next).value.spec == w.store.cr))
  {
    match w.op {
      case ConfigMapRead(_, _) => WriteConfigMapEffect(w, fault);
      case CaRead(_, _, _) => WriteCaEffect(w, fault);
      case _ =>
    }
  }

  /** As long as the resource and the StatefulSet stand, no reconcile gets past the update: it is
      never updated, and AimReady is never reported. */
  lemma {:induction false} StaysLimitBlocked(id: Instance, ws: seq<World>, acts: seq<Action>, found: StoredSet,
                                             spec: CrSpec, i: nat)
    requires IsRun(id, ws, acts) && Inv(id, ws[0]) && LimitBlocked(id, ws[0], found, spec) && i < |ws|
    requires forall k :: 0 <= k < |acts| ==>
               !acts[k].EditSpec? && !acts[k].OutsideSet? && (acts[k].Operator? ==> acts[k].answers.cache.Fresh?)
    ensures Inv(id, ws[i]) && LimitBlocked(id, ws[i], found, spec)
  {
    if i > 0 {
      StaysLimitBlocked(id, ws, acts, found, spec, i - 1);
      StepInv(id, ws[i - 1], acts[i - 1]);
      LimitBlockedStep(id, ws[i - 1], acts[i - 1], found, spec);
    }
  }
}
