/** Runs and steps that show what the operator does in corner cases, and that the premises of the
    results on consistency are needed. */
module Scenarios {
  import opened Text
  import opened Kube
  import opened Builder
  import opened Templates
  import opened Protocol
  import opened Consistency

  // ---------- runs by their actions ----------

  /** The world that the actions lead to. */
  ghost function Reach(id: Instance, w: World, acts: seq<Action>): World {
    if |acts| == 0 then w else Next(id, Reach(id, w, acts[..|acts| - 1]), acts[|acts| - 1])
  }

  ghost function RunOf(id: Instance, w: World, acts: seq<Action>): seq<World> {
    seq(|acts| + 1, k requires 0 <= k <= |acts| => Reach(id, w, acts[..k]))
  }

  lemma RunOfIsRun(id: Instance, w: World, acts: seq<Action>)
    ensures IsRun(id, RunOf(id, w, acts), acts)
    ensures RunOf(id, w, acts)[0] == w && RunOf(id, w, acts)[|acts|] == Reach(id, w, acts)
  {
    assert acts[..|acts|] == acts;
    forall k | 0 <= k < |acts| ensures Reach(id, w, acts[..k + 1]) == Next(id, Reach(id, w, acts[..k]), acts[k]) {
      assert acts[..k + 1][..k] == acts[..k];
    }
  }

  lemma {:induction false} ReachAppend(id: Instance, w: World, a: seq<Action>, b: seq<Action>)
    ensures Reach(id, w, a + b) == Reach(id, Reach(id, w, a), b)
  {
    if |b| == 0 {
      assert a + b == a;
    } else {
      ReachAppend(id, w, a, b[..|b| - 1]);
      assert (a + b)[..|a + b| - 1] == a + b[..|b| - 1];
    }
  }

  lemma ReachThree(id: Instance, w: World, a: seq<Action>, b: seq<Action>, c: seq<Action>)
    ensures Reach(id, w, a + b + c) == Reach(id, Reach(id, Reach(id, w, a), b), c)
  {
    ReachAppend(id, w, a, b);
    ReachAppend(id, w, a + b, c);
  }

  /** The run of the actions, from the first world to the last. */
  lemma RunTo(id: Instance, w: World, acts: seq<Action>, last: World) returns (ws: seq<World>)
    requires Reach(id, w, acts) == last
    ensures IsRun(id, ws, acts) && ws[0] == w && ws[|ws| - 1] == last
  {
    RunOfIsRun(id, w, acts);
    ws := RunOf(id, w, acts);
  }

  lemma ReachOne(id: Instance, w: World, a: Action)
    ensures Reach(id, w, [a]) == Next(id, w, a)
  {
    assert [a][..0] == [];
  }

  /** A call that does not fail and is answered with what is stored; no claim is listed. */
  const CALL := Operator(NoFault, Answers([], Fresh))

  function Calls(n: nat): (acts: seq<Action>)
    ensures |acts| == n && forall k :: 0 <= k < n ==> acts[k] == CALL
  {
    seq(n, _ => CALL)
  }

  ghost function Quiet(id: Instance, w: World, n: nat): World
    decreases n
  {
    if n == 0 then w else Quiet(id, Next(id, w, CALL), n - 1)
  }

  lemma {:induction false} QuietReach(id: Instance, w: World, n: nat)
    ensures Reach(id, w, Calls(n)) == Quiet(id, w, n)
    decreases n
  {
    if n > 0 {
      assert Calls(n) == [CALL] + Calls(n - 1);
      ReachAppend(id, w, [CALL], Calls(n - 1));
      ReachOne(id, w, CALL);
      QuietReach(id, Next(id, w, CALL), n - 1);
    }
  }

  lemma {:induction false} QuietMore(id: Instance, w: World, m: nat, n: nat)
    ensures Quiet(id, w, m + n) == Quiet(id, Quiet(id, w, m), n)
    decreases m
  {
    if m > 0 {
      QuietMore(id, Next(id, w, CALL), m - 1, n);
    }
  }

  /** One step, and then the others. */
  lemma QuietStep(id: Instance, w: World, next: World, n: nat)
    requires next == Operate(id, w, NoFault, Answers([], Fresh)) && n > 0
    ensures Quiet(id, w, n) == Quiet(id, next, n - 1)
  {
  }

  // ---------- undisturbed reconciles ----------

  ghost function PlanFor(id: Instance, spec: CrSpec, files: Files, ca: string): Plan
    requires Parses(spec)
  {
    Plan(Job(spec, files), ca, Desired(id.name, spec, ChecksumOf(id, files)))
  }

  predicate RootCaIs(store: Store, ca: string) {
    store.rootCa.Some? && "ca.crt" in store.rootCa.value && store.rootCa.value["ca.crt"] == ca
  }

  /** The StatefulSet is one the operator wrote for some spec, and the CA secret is current. */
  predicate Written(id: Instance, store: Store, on: CrSpec, sum: string, ca: string)
    requires Parses(on)
  {
    && RootCaIs(store, ca) && HoldsCa(store, ca)
    && store.sts.Some? && store.sts.value.body == Admit(Desired(id.name, on, sum))
  }

  ghost function WithFiles(store: Store, files: Files): Store {
    if HoldsFiles(store, files) then store else PutConfigMap(store, files)
  }

  /** The first three steps bring the ConfigMap up to date. */
  lemma QuietToConfigMap(id: Instance, w: World, files: Files)
    requires w.op.Idle? && w.store.rendered == Some(files) && w.store.configMap.Some?
    ensures Quiet(id, w, 3) == World(WithFiles(w.store, files), ConfigMapDone(Job(w.store.cr, files)))
  {
    var job := Job(w.store.cr, files);
    var one, two := World(w.store, Rendered(job)), World(w.store, ConfigMapRead(job, w.store.configMap));
    QuietStep(id, w, one, 3);
    QuietStep(id, one, two, 2);
    QuietStep(id, two, World(WithFiles(w.store, files), ConfigMapDone(job)), 1);
  }

  /** Four more read the StatefulSet. */
  lemma QuietToSet(id: Instance, w: World, on: CrSpec, sum: string, ca: string)
    requires w.op.ConfigMapDone? && Parses(w.op.job.spec) && Parses(on) && Written(id, w.store, on, sum, ca)
    requires ValidateClassChange(w.store.sts.value.body.templates, DesiredTemplates(id.name, w.op.job.spec)).None?
    ensures Quiet(id, w, 4)
            == World(w.store, SetRead(PlanFor(id, w.op.job.spec, w.op.job.files, ca), w.store.sts.value))
  {
    var job := w.op.job;
    var one, two := World(w.store, RootCaRead(job, ca)), World(w.store, CaRead(job, ca, w.store.caSecret));
    var three := World(w.store, CaDone(job, ca));
    QuietStep(id, w, one, 4);
    QuietStep(id, one, two, 3);
    QuietStep(id, two, three, 2);
    QuietStep(id, three, World(w.store, SetRead(PlanFor(id, job.spec, job.files, ca), w.store.sts.value)), 1);
  }

  lemma UpdatedInPlace(id: Instance, w: World)
    requires w.op.Deciding? && w.store.sts == Some(w.op.found) && Admit(w.op.found.body) == w.op.found.body
    requires !RequiresRecreation(w.op.found.body, w.op.plan.desired)
    requires ImmutableAgree(Admit(Updated(w.op.found.body, w.op.plan.desired)), w.op.found.body)
    ensures var after := Decide(w, NoFault);
            && after.op == Ready(w.op.plan) && Frame(w.op, w.store, after.store)
            && after.store.sts.Some? && after.store.sts.value.deleting == w.op.found.deleting
            && after.store.sts.value.body == Admit(Updated(w.op.found.body, w.op.plan.desired))
  {
    DecideFrame(w, NoFault);
    AdmitIdempotent(Updated(w.op.found.body, w.op.plan.desired));
  }

  /** From there, for the spec the set was written for, three more lead to Ready. */
  lemma QuietToReady(id: Instance, w: World, on: CrSpec, sum: string, ca: string)
    requires w.op.SetRead? && SizedSpec(on) && Written(id, w.store, on, sum, ca) && w.store.claims == map[]
    requires w.op.found == w.store.sts.value
    requires w.op.plan == PlanFor(id, on, w.op.plan.job.files, ca)
    ensures var after := Quiet(id, w, 3);
            && after.op == Ready(w.op.plan) && Frame(Deciding(w.op.plan, w.op.found), w.store, after.store)
            && Written(id, after.store, on, ChecksumOf(id, w.op.plan.job.files), ca)
            && after.store.sts.value.deleting == w.store.sts.value.deleting
  {
    var plan, found := w.op.plan, w.op.found;
    RecreationExact(id.name, on, on, sum, ChecksumOf(id, plan.job.files));
    UpdateLegalAndSufficient(found.body, plan.desired);
    AdmitIdempotent(Desired(id.name, on, sum));
    var one := World(w.store, Resizing(plan, found, DesiredSize(on), DesiredClass(on), []));
    var two := World(w.store, Deciding(plan, found));
    QuietStep(id, w, one, 3);
    QuietStep(id, one, two, 2);
    UpdatedInPlace(id, two);
    QuietStep(id, two, Decide(two, NoFault), 1);
  }

  /** From ConfigMapDone to Ready. */
  lemma QuietFromConfigMap(id: Instance, w: World, sum: string, ca: string)
    requires w.op.ConfigMapDone? && SizedSpec(w.op.job.spec)
    requires Written(id, w.store, w.op.job.spec, sum, ca) && w.store.claims == map[]
    ensures var after := Quiet(id, w, 7);
            && after.op == Ready(PlanFor(id, w.op.job.spec, w.op.job.files, ca))
            && Frame(Deciding(after.op.plan, w.store.sts.value), w.store, after.store)
            && Written(id, after.store, w.op.job.spec, ChecksumOf(id, w.op.job.files), ca)
            && after.store.sts.value.deleting == w.store.sts.value.deleting
  {
    var spec := w.op.job.spec;
    RecreationExact(id.name, spec, spec, sum, sum);
    QuietToSet(id, w, spec, sum, ca);
    QuietToReady(id, Quiet(id, w, 4), spec, sum, ca);
    QuietMore(id, w, 4, 3);
  }

  // ---------- AimReady for a StatefulSet that is about to vanish ----------

  lemma SwitchedOffEnd(id: Instance, w: World, on: CrSpec, sum: string)
    requires w.op.SetRead? && !Persists(w.op.plan.job.spec) && SizedSpec(on)
    requires w.store.sts == Some(w.op.found) && !w.op.found.deleting
    requires RequiresRecreation(w.op.found.body, w.op.plan.desired)
    ensures Quiet(id, w, 2) == World(PutSet(w.store, w.op.found.body, true), Idle)
  {
    var one := World(w.store, Deciding(w.op.plan, w.op.found));
    QuietStep(id, w, one, 2);
    QuietStep(id, one, World(PutSet(w.store, w.op.found.body, true), Idle), 1);
  }

  /** Log persistence was switched off: the reconcile marks the StatefulSet as being deleted. */
  lemma SwitchedOff(id: Instance, w: World, on: CrSpec, sum: string, files: Files, ca: string)
    requires w.op.Idle? && w.store.rendered == Some(files) && !Persists(w.store.cr) && SizedSpec(on)
    requires w.store.configMap.Some? && Written(id, w.store, on, sum, ca) && !w.store.sts.value.deleting
    ensures var after := Quiet(id, w, 9);
            && after.op.Idle? && after.store.configMap.Some? && after.store.claims == w.store.claims
            && Written(id, after.store, on, sum, ca) && after.store.sts.value.deleting
  {
    RecreationExact(id.name, on, w.store.cr, sum, ChecksumOf(id, files));
    QuietToConfigMap(id, w, files);
    var three := World(WithFiles(w.store, files), ConfigMapDone(Job(w.store.cr, files)));
    QuietToSet(id, three, on, sum, ca);
    QuietMore(id, w, 3, 4);
    var seven := World(three.store, SetRead(PlanFor(id, w.store.cr, files, ca), w.store.sts.value));
    QuietMore(id, w, 7, 2);
    SwitchedOffEnd(id, seven, on, sum);
  }

  /** It was switched on again while the deletion is under way: the reconcile updates the
      StatefulSet and goes on to Ready. */
  lemma SwitchedOn(id: Instance, w: World, on: CrSpec, sum: string, files: Files, ca: string)
    requires w.op.Idle? && w.store.rendered == Some(files) && w.store.cr == on && SizedSpec(on)
    requires w.store.configMap.Some? && Written(id, w.store, on, sum, ca) && w.store.claims == map[]
    ensures var after := Quiet(id, w, 10);
            && after.op.Ready? && after.op.plan == PlanFor(id, on, files, ca)
            && Frame(Deciding(after.op.plan, w.store.sts.value), WithFiles(w.store, files), after.store)
            && Written(id, after.store, on, ChecksumOf(id, files), ca)
            && after.store.sts.value.deleting == w.store.sts.value.deleting
  {
    QuietToConfigMap(id, w, files);
    QuietFromConfigMap(id, Quiet(id, w, 3), sum, ca);
    QuietMore(id, w, 3, 7);
  }

  lemma TogglePath(id: Instance, w: World, edit: Action)
    ensures Reach(id, w, Calls(9) + [edit] + Calls(10)) == Quiet(id, Next(id, Quiet(id, w, 9), edit), 10)
  {
    var nine := Quiet(id, w, 9);
    QuietReach(id, w, 9);
    ReachOne(id, nine, edit);
    QuietReach(id, Next(id, nine, edit), 10);
    ReachThree(id, w, Calls(9), [edit], Calls(10));
  }

  function ToggleActs(on: CrSpec, files: Files): (acts: seq<Action>)
    ensures forall k :: 0 <= k < |acts| ==> Orderly(acts[k]) && (acts[k].Operator? ==> acts[k].fault.NoFault?)
  {
    Calls(9) + [EditSpec(on, Some(files))] + Calls(10)
  }

  /** So there is a run, without failures, stale answers or outside writes, that starts from a
      StatefulSet in place and ends where AimReady is due although the StatefulSet is being
      deleted: persistence is switched off and on again before the deletion finishes. */
  lemma ReadyForDoomedSet(id: Instance, store: Store, on: CrSpec, sum: string, offFiles: Files, onFiles: Files, ca: string)
      returns (ws: seq<World>, acts: seq<Action>)
    requires store.rendered == Some(offFiles) && !Persists(store.cr) && SizedSpec(on)
    requires store.configMap.Some? && store.claims == map[]
    requires Written(id, store, on, sum, ca) && !store.sts.value.deleting
    ensures IsRun(id, ws, acts) && ws[0] == World(store, Idle)
    ensures forall k :: 0 <= k < |acts| ==> Orderly(acts[k]) && (acts[k].Operator? ==> acts[k].fault.NoFault?)
    ensures var last := ws[|ws| - 1]; last.op.Ready? && last.store.sts.Some? && last.store.sts.value.deleting
  {
    var w, edit := World(store, Idle), EditSpec(on, Some(onFiles));
    SwitchedOff(id, w, on, sum, offFiles, ca);
    var nine := Quiet(id, w, 9);
    var edited := World(nine.store.(cr := on, rendered := Some(onFiles)), Idle);
    assert edited == Next(id, nine, edit);
    SwitchedOn(id, edited, on, sum, onFiles, ca);
    TogglePath(id, w, edit);
    acts := ToggleActs(on, onFiles);
    ws := RunTo(id, w, acts, Quiet(id, edited, 10));
  }

  // ---------- AimReady with other files in the ConfigMap ----------

  /** The Get of the ConfigMap is answered with this version. */
  function LaggingCall(seen: StoredData): Action {
    Operator(NoFault, Answers([], Lagging(Some(seen), None, None)))
  }

  /** The files go from a to b, a reconcile reports AimReady, and they go back to a. */
  function Detour(spec: CrSpec, a: Files, b: Files): seq<Action> {
    [EditSpec(spec, Some(b))] + Calls(11) + [EditSpec(spec, Some(a))]
  }

  function LaggingReconcile(seen: StoredData): seq<Action> {
    [CALL, LaggingCall(seen), CALL]
  }

  /** Answered with a version that holds the files, the operator does not write. */
  lemma LaggingToConfigMap(id: Instance, w: World, files: Files, seen: StoredData)
    requires w.op.Idle? && w.store.rendered == Some(files)
    requires KnownData(w.store.seenMaps, seen) && seen.data == files
    ensures Reach(id, w, LaggingReconcile(seen)) == World(w.store, ConfigMapDone(Job(w.store.cr, files)))
  {
    var acts := [CALL, LaggingCall(seen), CALL];
    var job := Job(w.store.cr, files);
    assert acts[..2] == [CALL, LaggingCall(seen)] && [CALL, LaggingCall(seen)][..1] == [CALL];
    ReachOne(id, w, CALL);
    assert Reach(id, w, [CALL, LaggingCall(seen)]) == World(w.store, ConfigMapRead(job, Some(seen)));
  }

  lemma AroundQuiet(id: Instance, w: World, a: Action, n: nat, b: Action)
    ensures Reach(id, w, [a] + Calls(n) + [b]) == Next(id, Quiet(id, Next(id, w, a), n), b)
  {
    ReachOne(id, w, a);
    QuietReach(id, Next(id, w, a), n);
    ReachOne(id, Quiet(id, Next(id, w, a), n), b);
    ReachThree(id, w, [a], Calls(n), [b]);
  }

  lemma ReadyEnds(id: Instance, w: World, n: nat)
    requires Quiet(id, w, n).op.Ready?
    ensures Quiet(id, w, n + 1) == World(Quiet(id, w, n).store, Idle)
  {
    var ready := Quiet(id, w, n);
    QuietMore(id, w, n, 1);
    QuietStep(id, ready, World(ready.store, Idle), 1);
  }

  lemma EditBack(id: Instance, w: World, files: Files)
    requires w.op.Idle?
    ensures Next(id, w, EditSpec(w.store.cr, Some(files))) == World(w.store.(rendered := Some(files)), Idle)
  {
  }

  lemma DetourPath(id: Instance, w: World, a: Files, b: Files)
    requires w.op.Idle?
    ensures var ready := Quiet(id, World(w.store.(rendered := Some(b)), Idle), 10);
            ready.op.Ready? && ready.store.cr == w.store.cr ==>
              Reach(id, w, Detour(w.store.cr, a, b)) == World(ready.store.(rendered := Some(a)), Idle)
  {
    var edited := World(w.store.(rendered := Some(b)), Idle);
    var ready := Quiet(id, edited, 10);
    AroundQuiet(id, w, EditSpec(w.store.cr, Some(b)), 11, EditSpec(w.store.cr, Some(a)));
    EditBack(id, w, b);
    if ready.op.Ready? {
      ReadyEnds(id, edited, 10);
      EditBack(id, World(ready.store, Idle), a);
    }
  }

  lemma BackAgain(id: Instance, w: World, sum: string, a: Files, b: Files, ca: string)
    requires w.op.Idle? && w.store.rendered == Some(a) && SizedSpec(w.store.cr) && a != b
    requires HoldsFiles(w.store, a) && Written(id, w.store, w.store.cr, sum, ca) && w.store.claims == map[]
    requires KnownData(w.store.seenMaps, w.store.configMap.value) && w.store.configMap.value.version <= w.store.clock
    ensures var after := Reach(id, w, Detour(w.store.cr, a, b));
            && after.op.Idle? && after.store.rendered == Some(a) && after.store.cr == w.store.cr
            && HoldsFiles(after.store, b) && KnownData(after.store.seenMaps, w.store.configMap.value)
            && Written(id, after.store, w.store.cr, ChecksumOf(id, b), ca) && after.store.claims == map[]
  {
    var edited := World(w.store.(rendered := Some(b)), Idle);
    SwitchedOn(id, edited, w.store.cr, sum, b, ca);
    DetourPath(id, w, a, b);
  }

  lemma DetourEnds(id: Instance, w: World, sum: string, a: Files, b: Files, ca: string) returns (last: World)
    requires w.op.Idle? && w.store.rendered == Some(a) && SizedSpec(w.store.cr) && a != b
    requires HoldsFiles(w.store, a) && Written(id, w.store, w.store.cr, sum, ca) && w.store.claims == map[]
    requires KnownData(w.store.seenMaps, w.store.configMap.value) && w.store.configMap.value.version <= w.store.clock
    ensures last == Reach(id, w, Detour(w.store.cr, a, b) + LaggingReconcile(w.store.configMap.value) + Calls(7))
    ensures && last.op.Ready? && last.op.plan.job.files == a && HoldsFiles(last.store, b)
            && last.store.sts.Some? && last.store.sts.value.body.template.checksum == ChecksumOf(id, a)
  {
    var seen := w.store.configMap.value;
    BackAgain(id, w, sum, a, b, ca);
    var middle := Reach(id, w, Detour(w.store.cr, a, b));
    LaggingToConfigMap(id, middle, a, seen);
    var done := World(middle.store, ConfigMapDone(Job(w.store.cr, a)));
    QuietFromConfigMap(id, done, ChecksumOf(id, b), ca);
    last := Quiet(id, done, 7);
    QuietReach(id, done, 7);
    ReachThree(id, w, Detour(w.store.cr, a, b), LaggingReconcile(seen), Calls(7));
  }

  /** There is a run without failures and outside writes, in which one Get of the ConfigMap is
      answered with an earlier version, that ends where AimReady is due although the ConfigMap
      holds other files, and other files than the annotation tells. */
  lemma ReadyWithOtherFiles(id: Instance, store: Store, sum: string, a: Files, b: Files, ca: string)
      returns (ws: seq<World>, acts: seq<Action>)
    requires StoreInv(store) && store.rendered == Some(a) && SizedSpec(store.cr) && a != b
    requires HoldsFiles(store, a) && Written(id, store, store.cr, sum, ca) && store.claims == map[]
    ensures IsRun(id, ws, acts) && ws[0] == World(store, Idle)
    ensures forall k :: 0 <= k < |acts| ==>
              !acts[k].OutsideSet? && !acts[k].OutsideData? && (acts[k].Operator? ==> acts[k].fault.NoFault?)
    ensures var last := ws[|ws| - 1];
            && last.op.Ready? && last.op.plan.job.files == a && HoldsFiles(last.store, b)
            && last.store.sts.Some? && last.store.sts.value.body.template.checksum == ChecksumOf(id, a)
  {
    var w := World(store, Idle);
    var last := DetourEnds(id, w, sum, a, b, ca);
    acts := Detour(store.cr, a, b) + LaggingReconcile(store.configMap.value) + Calls(7);
    ws := RunTo(id, w, acts, last);
  }
}
