/** The operator's methods. They work on a cluster whose other users may act before every call,
    whose calls may fail, and whose lists may be stale. What each method does is a stretch of a
    run of the protocol, so everything proved about runs holds of it. */
module Operator {
  import opened Text
  import opened Kube
  import opened Builder
  import opened Templates
  import opened Protocol
  import opened Consistency
  import Names
  import Checksum

  // ---------- the cluster ----------

  function EndsFailure(from: Phase, to: Phase): nat {
    if from.Failed? && !to.Failed? then 1 else 0
  }

  function EndsDue(from: Phase, to: Phase): nat {
    if from.Ready? && !to.Ready? then 1 else 0
  }

  /** How often a reconcile has failed along the trace, and was given up. */
  ghost function Failures(trace: seq<World>): nat {
    if |trace| <= 1 then 0
    else Failures(trace[..|trace| - 1]) + EndsFailure(trace[|trace| - 2].op, trace[|trace| - 1].op)
  }

  /** How often AimReady was due, and the attempt to write it was made. */
  ghost function Dues(trace: seq<World>): nat {
    if |trace| <= 1 then 0
    else Dues(trace[..|trace| - 1]) + EndsDue(trace[|trace| - 2].op, trace[|trace| - 1].op)
  }

  lemma CountStep(trace: seq<World>, w: World)
    requires |trace| > 0
    ensures Failures(trace + [w]) == Failures(trace) + EndsFailure(trace[|trace| - 1].op, w.op)
    ensures Dues(trace + [w]) == Dues(trace) + EndsDue(trace[|trace| - 1].op, w.op)
  {
    assert (trace + [w])[..|trace|] == trace;
  }

  /** A step that reads nothing that could be outdated. */
  function Call(fault: Fault): Action {
    Operator(fault, Answers([], Fresh))
  }

  /** In a calm cluster nobody else acts, and lists and Gets are up to date; calls may still fail. */
  class Cluster {
    const id: Instance
    const calm: bool
    var store: Store
    ghost var trace: seq<World>
    ghost var acts: seq<Action>
    ghost var failures: nat
    ghost var dues: nat

    constructor (id: Instance, calm: bool, store: Store)
      requires StoreInv(store)
      ensures this.id == id && this.calm == calm && this.store == store
      ensures Valid() && Op() == Idle && trace == [World(store, Idle)]
    {
      this.id, this.calm, this.store := id, calm, store;
      trace, acts := [World(store, Idle)], [];
      failures, dues := 0, 0;
    }

    /** The trace is a run of the protocol that ends in the current store. */
    ghost predicate Valid()
      reads this
    {
      Running() && trace[|acts|].store == store
    }

    ghost predicate Running()
      reads this
    {
      && IsRun(id, trace, acts)
      && Inv(id, trace[|acts|])
      && (calm ==> Established(trace[|acts|].store, trace[|acts|].op))
      && failures == Failures(trace) && dues == Dues(trace)
    }

    ghost function Now(): World
      requires Valid()
      reads this
    {
      trace[|acts|]
    }

    ghost function Op(): Phase
      requires Valid()
      reads this
    {
      Now().op
    }

    twostate predicate Continued()
      reads this
    {
      Valid() && old(trace) <= trace
    }

    /** The trace has gone on, without a failure or AimReady except, perhaps, at its end. */
    twostate predicate Extended()
      reads this
    {
      Continued() && failures == old(failures) && dues == old(dues)
    }

    /** Appends the step that has just been taken on the store. */
    ghost method Record(a: Action)
      requires Running() && (calm ==> Orderly(a))
      requires Next(id, trace[|acts|], a).store == store
      modifies this`trace, this`acts, this`failures, this`dues
      ensures Valid() && trace == old(trace) + [Next(id, old(trace[|acts|]), a)] && acts == old(acts) + [a]
      ensures failures == old(failures) + EndsFailure(old(trace[|acts|]).op, trace[|acts|].op)
      ensures dues == old(dues) + EndsDue(old(trace[|acts|]).op, trace[|acts|].op)
    {
      CountStep(trace, Next(id, trace[|acts|], a));
      StepInv(id, trace[|acts|], a);
      if calm {
        StepConsistent(id, trace[|acts|], a);
      }
      var next := Next(id, trace[|acts|], a);
      failures := failures + EndsFailure(trace[|acts|].op, next.op);
      dues := dues + EndsDue(trace[|acts|].op, next.op);
      trace := trace + [next];
      acts := acts + [a];
    }

    /** Appends a write that leads to the world next. */
    ghost method RecordWrite(fault: Fault, next: World)
      requires Running() && next == Next(id, trace[|acts|], Call(fault)) && next.store == store
      requires !trace[|acts|].op.Failed? && !trace[|acts|].op.Ready?
      modifies this`trace, this`acts, this`failures, this`dues
      ensures Valid() && old(trace) <= trace && Op() == next.op
      ensures failures == old(failures) && dues == old(dues)
    {
      Record(Call(fault));
    }

    /** A step without a call. */
    ghost method Local()
      requires Valid() && Next(id, Now(), Call(NoFault)).store == store && !Op().Failed? && !Op().Ready?
      modifies this`trace, this`acts, this`failures, this`dues
      ensures Extended()
      ensures Op() == old(Next(id, Now(), Call(NoFault)).op)
    {
      Record(Call(NoFault));
    }

    /** Any number of actions of the others. */
    method Interfere()
      requires Valid()
      modifies this
      ensures Extended() && Op() == old(Op())
      ensures calm ==> store == old(store)
    {
      if !calm {
        var n: nat := *;
        while n > 0
          invariant Extended() && Op() == old(Op())
        {
          var a: Action := *;
          if !a.Operator? {
            store := Surroundings(id, store, a);
            Record(a);
          }
          n := n - 1;
        }
      }
    }

    // ----- calls -----

    /** What the cache answers: anything it may, and what is stored in a calm cluster. */
    method AnyCache() returns (cache: Cache)
      ensures calm ==> cache.Fresh?
    {
      cache := *;
      if calm {
        cache := Fresh;
      }
    }

    /** The client's side of a write: what the caller learns of the server's reply. */
    method Commit(reply: Reply, fault: Fault) returns (error: Option<Error>)
      modifies this`store
      ensures store == (if fault.Before? then old(store) else reply.store)
      ensures error == (if !fault.NoFault? then Some(ApiFailure) else reply.error)
    {
      if !fault.Before? {
        store := reply.store;
      }
      error := if !fault.NoFault? then Some(ApiFailure) else reply.error;
    }

    method GetInstance() returns (spec: CrSpec, files: Files, error: Option<Error>)
      requires Valid() && Op().Idle?
      modifies this
      ensures Extended() && (calm ==> store == old(store))
      ensures error.None? ==> Op() == Rendered(Job(spec, files))
      ensures error.Some? ==> Op() == Failed(error.value)
      ensures calm && error.None? ==> spec == store.cr && store.rendered == Some(files)
    {
      Interfere();
      var fault: Fault := *;
      spec, files := store.cr, map[];
      if !fault.NoFault? {
        error := Some(ApiFailure);
      } else if store.rendered.None? {
        error := Some(NotRendered);
      } else {
        files, error := store.rendered.value, None;
      }
      Record(Call(fault));
    }

    method GetConfigMap(ghost job: Job) returns (found: Option<StoredData>, error: Option<Error>)
      requires Valid() && Op() == Rendered(job)
      modifies this
      ensures Extended() && (calm ==> store == old(store) && found == store.configMap)
      ensures error.None? ==> Op() == ConfigMapRead(job, found)
      ensures error.Some? ==> Op() == Failed(error.value)
    {
      Interfere();
      var fault: Fault := *;
      var cache := AnyCache();
      found := SeenConfigMap(store, cache);
      error := if fault.NoFault? then None else Some(ApiFailure);
      Record(Operator(fault, Answers([], cache)));
    }

    method CreateConfigMap(data: Files) returns (error: Option<Error>)
      requires Valid() && Op().ConfigMapRead? && Op().configMap.None? && data == Op().job.files
      modifies this
      ensures Extended()
      ensures error.None? ==> Op() == ConfigMapDone(old(Op().job))
      ensures error.Some? ==> Op() == Failed(error.value)
      ensures calm ==> store == old(store) || store == PutConfigMap(old(store), data)
      ensures calm && error.None? ==> store == PutConfigMap(old(store), data)
    {
      Interfere();
      var fault: Fault := *;
      error := Commit(Protocol.CreateConfigMap(store, data), fault);
      Record(Call(fault));
    }

    method UpdateConfigMap(found: StoredData) returns (error: Option<Error>)
      requires Valid() && Op().ConfigMapRead? && Op().configMap.Some?
      requires Op().configMap.value.data != Op().job.files && found == Op().configMap.value.(data := Op().job.files)
      modifies this
      ensures Extended()
      ensures error.None? ==> Op() == ConfigMapDone(old(Op().job))
      ensures error.Some? ==> Op() == Failed(error.value)
      ensures calm ==> store == old(store) || store == PutConfigMap(old(store), found.data)
      ensures calm && error.None? ==> store == PutConfigMap(old(store), found.data)
    {
      Interfere();
      var fault: Fault := *;
      error := Commit(Protocol.UpdateConfigMap(store, found), fault);
      Record(Call(fault));
    }

    method GetRootCa(ghost job: Job) returns (data: Files, error: Option<Error>)
      requires Valid() && Op() == ConfigMapDone(job)
      modifies this
      ensures Extended() && (calm ==> store == old(store))
      ensures calm && error.None? ==> store.rootCa == Some(data)
      ensures error.None? && "ca.crt" in data ==> Op() == RootCaRead(job, data["ca.crt"])
      ensures error.None? && "ca.crt" !in data ==> Op() == Failed(NoRootCa)
      ensures error.Some? ==> Op() == Failed(error.value)
    {
      Interfere();
      var fault: Fault := *;
      data := if store.rootCa.None? then map[] else store.rootCa.value;
      error := if !fault.NoFault? then Some(ApiFailure) else if store.rootCa.None? then Some(NotFound) else None;
      Record(Call(fault));
    }

    method GetCaSecret(ghost job: Job, ghost ca: string) returns (found: Option<StoredData>, error: Option<Error>)
      requires Valid() && Op() == RootCaRead(job, ca)
      modifies this
      ensures Extended() && (calm ==> store == old(store) && found == store.caSecret)
      ensures error.None? ==> Op() == CaRead(job, ca, found)
      ensures error.Some? ==> Op() == Failed(error.value)
    {
      Interfere();
      var fault: Fault := *;
      var cache := AnyCache();
      found := SeenCaSecret(store, cache);
      error := if fault.NoFault? then None else Some(ApiFailure);
      Record(Operator(fault, Answers([], cache)));
    }

    method CreateCaSecret(data: Files) returns (error: Option<Error>)
      requires Valid() && Op().CaRead? && Op().secret.None? && data == Bundle(Op().ca)
      modifies this
      ensures Extended()
      ensures error.None? ==> Op() == CaDone(old(Op().job), old(Op().ca))
      ensures error.Some? ==> Op() == Failed(error.value)
      ensures calm ==> store == old(store) || store == PutCaSecret(old(store), data)
      ensures calm && error.None? ==> store == PutCaSecret(old(store), data)
    {
      Interfere();
      var fault: Fault := *;
      error := Commit(Protocol.CreateCaSecret(store, data), fault);
      Record(Call(fault));
    }

    method UpdateCaSecret(existing: StoredData) returns (error: Option<Error>)
      requires Valid() && Op().CaRead? && Op().secret.Some?
      requires Op().secret.value.data != Bundle(Op().ca) && existing == Op().secret.value.(data := Bundle(Op().ca))
      modifies this
      ensures Extended()
      ensures error.None? ==> Op() == CaDone(old(Op().job), old(Op().ca))
      ensures error.Some? ==> Op() == Failed(error.value)
      ensures calm ==> store == old(store) || store == PutCaSecret(old(store), existing.data)
      ensures calm && error.None? ==> store == PutCaSecret(old(store), existing.data)
    {
      Interfere();
      var fault: Fault := *;
      error := Commit(Protocol.UpdateCaSecret(store, existing), fault);
      Record(Call(fault));
    }

    /** Get of the StatefulSet; the class check follows locally, without another call. */
    method GetSet(ghost plan: Plan) returns (found: Option<StoredSet>, error: Option<Error>)
      requires Valid() && Op() == CaDone(plan.job, plan.ca) && PlanOf(id, plan)
      modifies this
      ensures Extended() && (calm ==> store == old(store) && found == store.sts)
      ensures error.Some? ==> Op() == Failed(error.value)
      ensures error.None? && found.None? ==> Op() == Creating(plan)
      ensures error.None? && found.Some? ==>
                var change := ValidateClassChange(found.value.body.templates, plan.desired.templates);
                Op() == if change.Some? then Failed(change.value) else SetRead(plan, found.value)
    {
      Interfere();
      var fault: Fault := *;
      var cache := AnyCache();
      found := SeenSet(store, cache);
      error := if fault.NoFault? then None else Some(ApiFailure);
      Record(Operator(fault, Answers([], cache)));
    }

    method CreateStatefulSet(body: StatefulSet) returns (error: Option<Error>)
      requires Valid() && Op().Creating? && body == Op().plan.desired
      modifies this
      ensures Extended()
      ensures error.None? ==> Op() == Ready(old(Op().plan))
      ensures error.Some? ==> Op() == Failed(error.value)
      ensures calm ==> store == old(store) || store == PutSet(old(store), Admit(body), false)
      ensures calm && error.None? ==> store == PutSet(old(store), Admit(body), false)
    {
      Interfere();
      var fault: Fault := *;
      error := Commit(CreateSet(store, body), fault);
      Record(Call(fault));
    }

    method UpdateStatefulSet(updated: StoredSet) returns (error: Option<Error>)
      requires Valid() && Op().Deciding? && !RequiresRecreation(Op().found.body, Op().plan.desired)
      requires updated == Op().found.(body := Updated(Op().found.body, Op().plan.desired))
      requires updated.body != Op().found.body
      modifies this
      ensures Extended()
      ensures error.None? ==> Op() == Ready(old(Op().plan))
      ensures error.Some? ==> Op() == Failed(error.value)
      ensures calm ==> store in {old(store), UpdateSet(old(store), updated).store}
      ensures calm && error.None? ==> UpdateSet(old(store), updated) == Reply(store, None)
    {
      Interfere();
      var fault: Fault := *;
      DecideUpdates(id, Now(), fault, Answers([], Fresh));
      ghost var next := Write(Now(), fault, UpdateSet(store, updated), Ready(Op().plan));
      error := Commit(UpdateSet(store, updated), fault);
      RecordWrite(fault, next);
    }

    method DeleteStatefulSet() returns (error: Option<Error>)
      requires Valid() && Op().Deciding? && RequiresRecreation(Op().found.body, Op().plan.desired)
      requires !Op().found.deleting
      modifies this
      ensures Extended()
      ensures error.None? ==> Op().Idle?
      ensures error.Some? ==> Op() == Failed(error.value)
      ensures calm ==>
                store == old(store) ||
                (old(store.sts).Some? && store == PutSet(old(store), old(store.sts).value.body, true))
      ensures calm && error.None? && store.sts.Some? ==> store.sts.value.deleting
    {
      Interfere();
      var fault: Fault := *;
      DecideDeletes(id, Now(), fault, Answers([], Fresh));
      ghost var next := Write(Now(), fault, DeleteSet(store), Idle);
      error := Commit(DeleteSet(store), fault);
      RecordWrite(fault, next);
    }

    method ListLogClaims(ghost plan: Plan, ghost found: StoredSet) returns (listed: seq<Claim>, error: Option<Error>)
      requires Valid() && Op() == SetRead(plan, found) && SizedSpec(plan.job.spec)
      modifies this
      ensures Extended() && (calm ==> store == old(store))
      ensures error.None? ==>
                Op() == Resizing(plan, found, DesiredSize(plan.job.spec), DesiredClass(plan.job.spec), listed)
      ensures error.Some? ==> Op() == Failed(error.value) && error.value == ApiFailure
      ensures calm && error.None? ==> FreshListing(id, store, listed)
    {
      Interfere();
      var fault: Fault := *;
      listed := AnyListing();
      OperateLists(id, Now(), fault, Answers(listed, Fresh));
      error := if fault.NoFault? then None else Some(ApiFailure);
      Record(Operator(fault, Answers(listed, Fresh)));
    }

    /** What the list call answers: claims as they are or once were, and all of them as they are
        in a calm cluster. */
    method AnyListing() returns (listed: seq<Claim>)
      requires StoreInv(store)
      ensures PossibleListing(id, store, listed)
      ensures calm ==> FreshListing(id, store, listed)
    {
      if calm {
        listed := CurrentClaims();
        FreshIsPossible(id, store, listed);
      } else {
        listed := *;
        var known := forall i :: 0 <= i < |listed| ==> Known(store, listed[i]) && Labelled(id, listed[i]);
        if !known {
          listed := [];
        }
      }
    }

    /** The labelled claims, in an arbitrary order. */
    method CurrentClaims() returns (listed: seq<Claim>)
      requires StoreInv(store)
      ensures FreshListing(id, store, listed)
    {
      listed := [];
      var remaining := store.claims.Keys;
      while remaining != {}
        invariant remaining <= store.claims.Keys
        invariant forall i :: 0 <= i < |listed| ==>
                    && listed[i].name in store.claims && listed[i].name !in remaining
                    && store.claims[listed[i].name] == listed[i] && Labelled(id, listed[i])
        invariant forall i, j :: 0 <= i < j < |listed| ==> listed[i].name != listed[j].name
        invariant forall name :: name in store.claims && name !in remaining && Labelled(id, store.claims[name]) ==>
                    store.claims[name] in listed
        decreases |remaining|
      {
        var name :| name in remaining;
        if Labelled(id, store.claims[name]) {
          listed := listed + [store.claims[name]];
        }
        remaining := remaining - {name};
      }
    }

    method UpdateLogClaim(claim: Claim) returns (error: Option<Error>)
      requires Valid() && Op().Resizing? && |Op().pending| > 0
      requires HasPrefix(Op().pending[0].name, Names.ClaimPrefix(id.name))
      requires Prepare(Op().pending[0], Op().size, Op().wantedClass) == Resized(claim)
      modifies this
      ensures Extended()
      ensures error.None? ==> Op() == old(Op()).(pending := old(Op()).pending[1..])
      ensures error.Some? ==> Op() == Failed(error.value)
      ensures calm && claim.name in old(store.claims) && old(store.claims)[claim.name].version == claim.version ==>
                && (store == old(store) || store == PutClaim(old(store), claim.name, claim))
                && (error.None? ==> store == PutClaim(old(store), claim.name, claim))
                && (error.Some? ==> error == Some(ApiFailure))
    {
      Interfere();
      var fault: Fault := *;
      ResizeUpdates(id, Now(), fault, Answers([], Fresh));
      ghost var next := Write(Now(), fault, UpdateClaim(store, claim), Op().(pending := Op().pending[1..]));
      error := Commit(UpdateClaim(store, claim), fault);
      RecordWrite(fault, next);
    }

    method UpdateStatus() returns (error: Option<Error>)
      requires Valid() && Op().Ready?
      modifies this
      ensures Continued() && (calm ==> store == old(store))
      ensures failures == old(failures) && dues == old(dues) + 1
      ensures error.None? ==> Op().Idle?
      ensures error.Some? ==> Op() == Failed(error.value)
    {
      Interfere();
      var fault: Fault := *;
      error := if fault.NoFault? then None else Some(ApiFailure);
      Record(Call(fault));
    }
  }

  // ---------- ensureConfigMap, ensureRabbitMQCaSecret ----------

  /** The two stores differ at most in the ConfigMap and the histories. */
  predicate SameButConfigMap(a: Store, b: Store) {
    b == a.(configMap := b.configMap, clock := b.clock, seenMaps := b.seenMaps, held := b.held)
  }

  method EnsureConfigMap(c: Cluster, ghost job: Job, configData: Files) returns (error: Option<Error>)
    requires c.Valid() && c.Op() == Rendered(job) && configData == job.files
    modifies c
    ensures c.Extended()
    ensures error.None? ==> c.Op() == ConfigMapDone(job)
    ensures error.Some? ==> c.Op() == Failed(error.value)
    ensures c.calm ==> SameButConfigMap(old(c.store), c.store) && (error.None? ==> HoldsFiles(c.store, configData))
    ensures c.calm && HoldsFiles(old(c.store), configData) ==> c.store == old(c.store)
  {
    var found;
    found, error := c.GetConfigMap(job);
    if error.Some? {
      return;
    }
    if found.None? {
      error := c.CreateConfigMap(configData);
    } else if found.value.data != configData {
      error := c.UpdateConfigMap(found.value.(data := configData));
    } else {
      c.Local();
    }
  }

  /** The CA secret holds the root CA. */
  predicate CaInPlace(store: Store) {
    && store.rootCa.Some? && "ca.crt" in store.rootCa.value
    && HoldsCa(store, store.rootCa.value["ca.crt"])
  }

  predicate SameButCaSecret(a: Store, b: Store) {
    b == a.(caSecret := b.caSecret, clock := b.clock, seenSecrets := b.seenSecrets)
  }

  method EnsureRabbitMQCaSecret(c: Cluster, ghost job: Job) returns (error: Option<Error>, ghost ca: string)
    requires c.Valid() && c.Op() == ConfigMapDone(job)
    modifies c
    ensures c.Extended()
    ensures error.None? ==> c.Op() == CaDone(job, ca)
    ensures error.Some? ==> c.Op() == Failed(error.value)
    ensures c.calm ==> SameButCaSecret(old(c.store), c.store)
    ensures c.calm && error.None? ==>
              && c.store.rootCa.Some? && "ca.crt" in c.store.rootCa.value && ca == c.store.rootCa.value["ca.crt"]
              && c.store.caSecret.Some?
              && c.store.caSecret.value.data == map["tls-ca-bundle.pem" := c.store.rootCa.value["ca.crt"]]
    ensures c.calm && CaInPlace(old(c.store)) ==> c.store == old(c.store)
  {
    ca := "";
    var srcSecret;
    srcSecret, error := c.GetRootCa(job);
    if error.Some? {
      return;
    }
    if "ca.crt" !in srcSecret {
      error := Some(NoRootCa);
      return;
    }
    var caCrt := srcSecret["ca.crt"];
    ca := caCrt;
    var dstData := Bundle(caCrt);
    var existing;
    existing, error := c.GetCaSecret(job, caCrt);
    if error.Some? {
      return;
    }
    assert c.calm && CaInPlace(old(c.store)) ==> existing.Some? && existing.value.data == dstData;
    if existing.None? {
      error := c.CreateCaSecret(dstData);
    } else if existing.value.data != dstData {
      error := c.UpdateCaSecret(existing.value.(data := dstData));
    } else {
      c.Local();
    }
  }

  // ---------- prepareLogPVCResize ----------

  /** A claim in the operator's memory, which is changed in place before it is sent back. */
  class ClaimObject {
    const name: string
    const labels: Labels
    const storageClass: Option<string>
    const version: nat
    var request: Option<int>

    constructor (c: Claim)
      ensures Value() == c
    {
      name, labels, storageClass, request, version := c.name, c.labels, c.storageClass, c.request, c.version;
    }

    function Value(): Claim
      reads this
    {
      Claim(name, labels, storageClass, request, version)
    }
  }

  /** Grows the request in place to the desired size, or refuses; a refused or unchanged claim is
      left alone, and no claim ever gets smaller. */
  method PrepareLogPVCResize(claim: ClaimObject, desiredSize: int, desiredStorageClass: string)
    returns (changed: bool, error: Option<Error>)
    modifies claim
    ensures error.Some? <==> Refused(old(claim.Value()), desiredSize, desiredStorageClass)
    ensures error.Some? ==> RefusedWith(old(claim.Value()), desiredSize, desiredStorageClass, error.value)
    ensures error.Some? <==> (desiredStorageClass != "" && claim.storageClass != Some(desiredStorageClass))
                             || Size(old(claim.request)) > desiredSize
    ensures changed ==> claim.Value() == old(claim.Value()).(request := Some(desiredSize))
    ensures changed <==> error.None? && Size(old(claim.request)) < desiredSize
    ensures error.None? ==> Size(claim.request) == desiredSize
    ensures !changed ==> claim.request == old(claim.request)
    ensures Size(old(claim.request)) <= Size(claim.request)
  {
    if desiredStorageClass != "" && claim.storageClass != Some(desiredStorageClass) {
      return false, Some(ClaimClassChange(claim.name, desiredStorageClass));
    }
    var currentSize := Size(claim.request);
    if currentSize > desiredSize {
      return false, Some(ClaimShrink(claim.name, currentSize, desiredSize));
    } else if currentSize == desiredSize {
      return false, None;
    }
    claim.request := Some(desiredSize);
    return true, None;
  }

  // ---------- ensureLogPVCStorage ----------

  /** The selected claims among the first k listed, by name. */
  ghost function SelectedUpTo(id: Instance, listed: seq<Claim>, k: nat): set<string>
    requires k <= |listed|
  {
    set i | 0 <= i < k && SelectedBy(id, listed[i]) :: listed[i].name
  }

  /** Exactly the claims in done have been brought to the size; a claim that already had it, and
      every other claim, is untouched. */
  ghost predicate Brought(before: map<string, Claim>, after: map<string, Claim>, done: set<string>, size: int) {
    && after.Keys == before.Keys
    && forall name :: name in before ==>
         if name in done && Size(before[name].request) < size then
           after[name] == before[name].(request := Some(size), version := after[name].version)
         else after[name] == before[name] && (name in done ==> Size(before[name].request) == size)
  }

  /** Some selected claim is larger than desired, or of a different class than the one named. */
  ghost predicate HasCulprit(id: Instance, claims: map<string, Claim>, size: int, storageClass: string) {
    exists name :: name in claims && SelectedBy(id, claims[name]) && Refused(claims[name], size, storageClass)
  }

  predicate SameButClaims(a: Store, b: Store) {
    b == a.(claims := b.claims, clock := b.clock, seen := b.seen)
  }

  lemma SelectedStep(id: Instance, listed: seq<Claim>, k: nat)
    requires k < |listed|
    ensures SelectedUpTo(id, listed, k + 1)
            == SelectedUpTo(id, listed, k) + (if SelectedBy(id, listed[k]) then {listed[k].name} else {})
  {
  }

  lemma NotReached(id: Instance, listed: seq<Claim>, k: nat)
    requires k < |listed|
    requires forall i, j :: 0 <= i < j < |listed| ==> listed[i].name != listed[j].name
    ensures listed[k].name !in SelectedUpTo(id, listed, k)
  {
  }

  /** What a reconcile in a calm cluster may conclude from the loop. */
  ghost predicate LoopResult(id: Instance, before: map<string, Claim>, after: map<string, Claim>, listed: seq<Claim>,
                             done: nat, error: Option<Error>, size: int, storageClass: string)
  {
    && done <= |listed|
    && Brought(before, after, SelectedUpTo(id, listed, done), size)
    && (error.None? ==> done == |listed|)
    && (error != Some(ApiFailure) ==> (error.None? <==> !HasCulprit(id, before, size, storageClass)))
    && (error.Some? && error != Some(ApiFailure) ==>
          done < |listed| && SelectedBy(id, listed[done])
          && RefusedWith(listed[done], size, storageClass, error.value))
  }

  /** One round of the loop: skip a claim of another name, refuse, leave alone, or resize. In a
      calm cluster, where the claim in hand is the stored one, the store changes by that claim at
      most. */
  method ResizeOne(c: Cluster, item: Claim, desiredSize: int, storageClassName: string) returns (error: Option<Error>)
    requires c.Valid() && c.Op().Resizing? && |c.Op().pending| > 0 && item == c.Op().pending[0]
    requires desiredSize == c.Op().size && storageClassName == c.Op().wantedClass
    modifies c
    ensures c.Extended()
    ensures error.None? ==> c.Op() == old(c.Op()).(pending := old(c.Op()).pending[1..])
    ensures error.Some? ==> c.Op() == Failed(error.value)
    ensures c.calm && item.name in old(c.store.claims) && old(c.store.claims)[item.name] == item ==>
              RoundResult(c.id, old(c.store), c.store, item, error, desiredSize, storageClassName)
  {
    var claim := new ClaimObject(item);
    var claimPrefix := "aim-logs-" + c.id.name + "-";
    assert claimPrefix == Names.ClaimPrefix(c.id.name);
    if !HasPrefix(claim.name, claimPrefix) {
      c.Local();
      return None;
    }
    var changed;
    changed, error := PrepareLogPVCResize(claim, desiredSize, storageClassName);
    if error.Some? || !changed {
      c.Local();
      return;
    }
    error := c.UpdateLogClaim(claim.Value());
  }

  ghost predicate RoundResult(id: Instance, before: Store, after: Store, item: Claim, error: Option<Error>,
                              size: int, storageClass: string)
  {
    var chosen := HasPrefix(item.name, Names.ClaimPrefix(id.name));
    && (after == before || (chosen && Size(item.request) < size
                            && after == PutClaim(before, item.name, item.(request := Some(size)))))
    && (error.None? && chosen ==>
          !Refused(item, size, storageClass) && (Size(item.request) == size || after != before))
    && (error.Some? && error != Some(ApiFailure) ==>
          chosen && RefusedWith(item, size, storageClass, error.value) && after == before)
  }

  /** Where the loop is after k rounds in a calm cluster. */
  ghost predicate LoopInv(id: Instance, before: Store, now: Store, listed: seq<Claim>, k: nat, size: int, storageClass: string) {
    && k <= |listed|
    && SameButClaims(before, now)
    && Brought(before.claims, now.claims, SelectedUpTo(id, listed, k), size)
    && forall i :: 0 <= i < k && SelectedBy(id, listed[i]) ==> !Refused(listed[i], size, storageClass)
  }

  lemma RoundKeepsLoopInv(id: Instance, before: Store, now: Store, after: Store, listed: seq<Claim>, k: nat,
                          error: Option<Error>, size: int, storageClass: string)
    requires FreshListing(id, before, listed) && LoopInv(id, before, now, listed, k, size, storageClass)
    requires k < |listed|
    requires listed[k].name in now.claims && now.claims[listed[k].name] == listed[k]
    requires RoundResult(id, now, after, listed[k], error, size, storageClass)
    ensures error.None? ==> LoopInv(id, before, after, listed, k + 1, size, storageClass)
    ensures after == now || Brought(before.claims, after.claims, SelectedUpTo(id, listed, k + 1), size)
    ensures SameButClaims(before, after)
  {
    SelectedStep(id, listed, k);
    NotReached(id, listed, k);
    var c, done := listed[k], SelectedUpTo(id, listed, k);
    assert SelectedBy(id, c) <==> HasPrefix(c.name, Names.ClaimPrefix(id.name));
    if after != now {
      OneMoreBrought(before.claims, now.claims, after.claims, done, c, size);
    } else if SelectedBy(id, c) && error.None? {
      OneMoreLeft(before.claims, now.claims, done, c.name, size);
    }
  }

  lemma OneMoreBrought(before: map<string, Claim>, now: map<string, Claim>, after: map<string, Claim>, done: set<string>,
                       c: Claim, size: int)
    requires Brought(before, now, done, size) && c.name in now && now[c.name] == c && c.name !in done
    requires Size(c.request) < size && c.name in after
    requires after == now[c.name := c.(request := Some(size), version := after[c.name].version)]
    ensures Brought(before, after, done + {c.name}, size)
  {
  }

  lemma OneMoreLeft(before: map<string, Claim>, now: map<string, Claim>, done: set<string>, name: string, size: int)
    requires Brought(before, now, done, size) && name in now && name !in done && Size(now[name].request) == size
    ensures Brought(before, now, done + {name}, size)
  {
  }

  /** A claim not reached yet is still as it was listed. */
  lemma NextUntouched(id: Instance, before: Store, now: Store, listed: seq<Claim>, k: nat, size: int, storageClass: string)
    requires FreshListing(id, before, listed) && LoopInv(id, before, now, listed, k, size, storageClass)
    requires k < |listed|
    ensures listed[k].name in now.claims && now.claims[listed[k].name] == listed[k]
  {
    NotReached(id, listed, k);
  }

  lemma LoopEnds(id: Instance, before: Store, now: Store, listed: seq<Claim>, size: int, storageClass: string)
    requires FreshListing(id, before, listed) && LoopInv(id, before, now, listed, |listed|, size, storageClass)
    ensures LoopResult(id, before.claims, now.claims, listed, |listed|, None, size, storageClass)
  {
    forall name | name in before.claims && SelectedBy(id, before.claims[name])
      ensures !Refused(before.claims[name], size, storageClass)
    {
      assert before.claims[name] in listed;
      var i :| 0 <= i < |listed| && listed[i] == before.claims[name];
      assert SelectedBy(id, listed[i]);
    }
  }

  lemma LoopFails(id: Instance, before: Store, now: Store, after: Store, listed: seq<Claim>, k: nat,
                  error: Option<Error>, size: int, storageClass: string)
    requires FreshListing(id, before, listed) && LoopInv(id, before, now, listed, k, size, storageClass)
    requires k < |listed| && error.Some?
    requires listed[k].name in now.claims && now.claims[listed[k].name] == listed[k]
    requires RoundResult(id, now, after, listed[k], error, size, storageClass)
    ensures LoopResult(id, before.claims, after.claims, listed, if after == now then k else k + 1, error, size, storageClass)
  {
    RoundKeepsLoopInv(id, before, now, after, listed, k, error, size, storageClass);
    if error != Some(ApiFailure) {
      var name := listed[k].name;
      assert before.claims[name] == listed[k];
      assert HasCulprit(id, before.claims, size, storageClass);
    }
  }

  /** The loop over the listed claims. */
  method ResizeLoop(c: Cluster, items: seq<Claim>, desiredSize: int, storageClassName: string)
    returns (error: Option<Error>, ghost done: nat)
    requires c.Valid() && c.Op().Resizing? && c.Op().pending == items
    requires desiredSize == c.Op().size && storageClassName == c.Op().wantedClass
    requires c.calm ==> FreshListing(c.id, c.store, items)
    modifies c
    ensures c.Extended()
    ensures error.None? ==> c.Op() == Deciding(old(c.Op().plan), old(c.Op().found))
    ensures error.Some? ==> c.Op() == Failed(error.value)
    ensures c.calm ==>
              SameButClaims(old(c.store), c.store) &&
              LoopResult(c.id, old(c.store.claims), c.store.claims, items, done, error, desiredSize, storageClassName)
  {
    done := 0;
    ghost var before, phase := c.store, c.Op();
    var i := 0;
    while i < |items|
      invariant 0 <= i <= |items|
      invariant c.Extended()
      invariant c.Op() == phase.(pending := items[i..])
      invariant c.calm ==> LoopInv(c.id, before, c.store, items, i, desiredSize, storageClassName)
    {
      ghost var now := c.store;
      if c.calm {
        NextUntouched(c.id, before, now, items, i, desiredSize, storageClassName);
      }
      error := ResizeOne(c, items[i], desiredSize, storageClassName);
      if c.calm {
        RoundKeepsLoopInv(c.id, before, now, c.store, items, i, error, desiredSize, storageClassName);
      }
      if error.Some? {
        done := if c.store == now then i else i + 1;
        if c.calm {
          LoopFails(c.id, before, now, c.store, items, i, error, desiredSize, storageClassName);
        }
        return;
      }
      i := i + 1;
    }
    done := |items|;
    if c.calm {
      LoopEnds(c.id, before, c.store, items, desiredSize, storageClassName);
    }
    c.Local();
    error := None;
  }

  ghost function Undersized(id: Instance, claims: map<string, Claim>, size: int): set<string> {
    set name | name in claims && SelectedBy(id, claims[name]) && Size(claims[name].request) < size
  }

  /** Nothing is undone: claims that are not selected, or have the size, stay as they are, no
      claim newly falls below the size, and if anything changed there are strictly fewer claims
      left to do. */
  ghost predicate Progressed(id: Instance, before: map<string, Claim>, after: map<string, Claim>, size: int) {
    && after.Keys == before.Keys
    && (forall name :: name in before && (!SelectedBy(id, before[name]) || Size(before[name].request) >= size) ==>
          after[name] == before[name])
    && Undersized(id, after, size) <= Undersized(id, before, size)
    && (after != before ==> |Undersized(id, after, size)| < |Undersized(id, before, size)|)
  }

  /** However a pass ends, it has made progress. */
  lemma PassProgress(id: Instance, before: map<string, Claim>, after: map<string, Claim>, listed: seq<Claim>,
                     done: nat, size: int)
    requires done <= |listed| && Brought(before, after, SelectedUpTo(id, listed, done), size)
    requires forall i :: 0 <= i < |listed| ==> listed[i].name in before && before[listed[i].name] == listed[i]
    ensures Progressed(id, before, after, size)
  {
    var finished := SelectedUpTo(id, listed, done);
    assert forall name :: name in finished ==> name in before && SelectedBy(id, before[name]);
    if after != before {
      var name :| name in before && after[name] != before[name];
      assert name in Undersized(id, before, size) && name !in Undersized(id, after, size);
      StrictSubsetSmaller(Undersized(id, after, size), Undersized(id, before, size), name);
    }
  }

  lemma ProgressedChain(id: Instance, a: map<string, Claim>, b: map<string, Claim>, c: map<string, Claim>, size: int)
    requires Progressed(id, a, b, size) && Progressed(id, b, c, size)
    ensures Progressed(id, a, c, size)
  {
  }

  /** Every selected claim has the desired size, and the class that is named. */
  ghost predicate AllSettled(id: Instance, claims: map<string, Claim>, size: int, storageClass: string) {
    forall name :: name in claims && SelectedBy(id, claims[name]) ==>
      Size(claims[name].request) == size && !OtherClass(claims[name], storageClass)
  }

  /** A pass that ends without an error has settled all of them. */
  lemma PassSettles(id: Instance, before: Store, after: map<string, Claim>, listed: seq<Claim>, size: int, storageClass: string)
    requires ClaimHistory(before) && FreshListing(id, before, listed)
    requires LoopResult(id, before.claims, after, listed, |listed|, None, size, storageClass)
    ensures AllSettled(id, after, size, storageClass)
  {
    forall name | name in after && SelectedBy(id, after[name])
      ensures Size(after[name].request) == size && !OtherClass(after[name], storageClass)
    {
      var c := before.claims[name];
      assert after[name].name == c.name && after[name].labels == c.labels && after[name].storageClass == c.storageClass;
      assert SelectedBy(id, c) && c in listed;
      var i :| 0 <= i < |listed| && listed[i] == c;
      assert !Refused(c, size, storageClass);
      assert c.name == name;
      assert listed[i].name in SelectedUpTo(id, listed, |listed|);
    }
  }

  /** What a pass in a calm cluster has done, however it ended: the list was up to date or was
      not received, a prefix of it was brought to size, that is progress, and success means that
      all claims are settled. */
  ghost predicate PassResult(id: Instance, before: Store, after: map<string, Claim>, listed: seq<Claim>, done: nat,
                             error: Option<Error>, size: int, storageClass: string)
  {
    && (listed == [] || FreshListing(id, before, listed))
    && (error != Some(ApiFailure) ==> FreshListing(id, before, listed))
    && LoopResult(id, before.claims, after, listed, done, error, size, storageClass)
    && Progressed(id, before.claims, after, size)
    && (error.None? ==> AllSettled(id, after, size, storageClass))
  }

  lemma PassDone(id: Instance, before: Store, after: map<string, Claim>, listed: seq<Claim>, done: nat,
                 error: Option<Error>, size: int, storageClass: string)
    requires ClaimHistory(before) && FreshListing(id, before, listed)
    requires LoopResult(id, before.claims, after, listed, done, error, size, storageClass)
    ensures PassResult(id, before, after, listed, done, error, size, storageClass)
  {
    PassProgress(id, before.claims, after, listed, done, size);
    if error.None? {
      PassSettles(id, before, after, listed, size, storageClass);
    }
  }

  lemma NothingListed(id: Instance, store: Store, size: int, storageClass: string)
    ensures PassResult(id, store, store.claims, [], 0, Some(ApiFailure), size, storageClass)
  {
  }

  /** The list call and the loop. */
  method ResizeLogClaims(c: Cluster, desiredSize: int, storageClassName: string, ghost plan: Plan, ghost found: StoredSet)
    returns (error: Option<Error>, ghost listed: seq<Claim>, ghost done: nat)
    requires c.Valid() && c.Op() == SetRead(plan, found) && SizedSpec(plan.job.spec)
    requires desiredSize == DesiredSize(plan.job.spec) && storageClassName == DesiredClass(plan.job.spec)
    modifies c
    ensures c.Extended()
    ensures error.None? ==> c.Op() == Deciding(plan, found)
    ensures error.Some? ==> c.Op() == Failed(error.value)
    ensures c.calm ==> SameButClaims(old(c.store), c.store)
    ensures c.calm ==>
              PassResult(c.id, old(c.store), c.store.claims, listed, done, error, desiredSize, storageClassName)
  {
    ghost var before := c.store;
    var items;
    items, error := c.ListLogClaims(plan, found);
    listed, done := [], 0;
    if error.Some? {
      NothingListed(c.id, c.store, desiredSize, storageClassName);
      return;
    }
    listed := items;
    error, done := ResizeLoop(c, items, desiredSize, storageClassName);
    if c.calm {
      PassDone(c.id, before, c.store.claims, listed, done, error, desiredSize, storageClassName);
    }
  }

  /** With found and plan the phase the reconcile is in. In a calm cluster: without API failures
      the method succeeds exactly when no selected claim is larger than desired or of another
      class; in any case exactly the selected claims of a prefix of the list were brought to
      size, all of them on success, everything else is untouched, and unless nothing changed
      there is strictly less left to do. */
  method EnsureLogPVCStorage(c: Cluster, spec: CrSpec, ghost plan: Plan, ghost found: StoredSet)
    returns (error: Option<Error>, ghost listed: seq<Claim>, ghost done: nat)
    requires c.Valid() && c.Op() == SetRead(plan, found) && spec == plan.job.spec
    modifies c
    ensures c.Extended()
    ensures error.None? ==> c.Op() == Deciding(plan, found)
    ensures error.Some? ==> c.Op() == Failed(error.value)
    ensures c.calm ==> SameButClaims(old(c.store), c.store)
    ensures c.calm && !Persists(spec) ==> c.store == old(c.store) && error.None?
    ensures c.calm && Persists(spec) ==>
              Parses(spec) &&
              PassResult(c.id, old(c.store), c.store.claims, listed, done, error, DesiredSize(spec), DesiredClass(spec))
  {
    listed, done := [], 0;
    if spec.logPersistence.None? {
      c.Local();
      error := None;
      return;
    }
    if spec.logPersistence.value.size.Malformed? {
      // The StatefulSet was built from the same spec, so its size has parsed.
      assert false;
    }
    var desiredSize := spec.logPersistence.value.size.amount;
    var storageClassName := spec.logPersistence.value.storageClassName;
    error, listed, done := ResizeLogClaims(c, desiredSize, storageClassName, plan, found);
  }

  // ---------- ensureStatefulSet ----------

  method StatefulSetRequiresRecreation(current: StatefulSet, desired: StatefulSet) returns (recreate: bool)
    ensures recreate == RequiresRecreation(current, desired)
  {
    if current.serviceName != desired.serviceName ||
       current.podManagementPolicy != desired.podManagementPolicy ||
       current.selector != desired.selector {
      return true;
    }
    var equal := VolumeClaimTemplatesEqual(current.templates, desired.templates);
    return !equal;
  }

  /** The two stores differ at most in the StatefulSet and its history. */
  predicate SameButSet(a: Store, b: Store) {
    b == a.(sts := b.sts, clock := b.clock, seenSets := b.seenSets)
  }

  /** The StatefulSet is stored and is the desired one, sizes of claim templates aside. */
  predicate InPlace(store: Store, desired: StatefulSet) {
    store.sts.Some? && AgreesButSize(Admit(store.sts.value.body), Admit(desired))
  }

  /** The last part of ensureStatefulSet: recreate, or update in place. */
  method ApplyStatefulSet(c: Cluster, found: StoredSet, statefulSet: StatefulSet)
    returns (recreate: bool, error: Option<Error>)
    requires c.Valid() && c.Op().Deciding? && found == c.Op().found && statefulSet == c.Op().plan.desired
    requires c.calm ==> c.store.sts == Some(found)
    modifies c
    ensures c.Extended()
    ensures error.Some? ==> c.Op() == Failed(error.value)
    ensures error.None? && recreate ==> c.Op().Idle?
    ensures error.None? && !recreate ==> c.Op() == Ready(old(c.Op().plan))
    ensures recreate == RequiresRecreation(found.body, statefulSet)
    ensures c.calm ==> SameButSet(old(c.store), c.store)
    ensures c.calm && error.None? && recreate ==> c.store.sts.Some? && c.store.sts.value.deleting
    ensures c.calm && error.None? && !recreate ==> InPlace(c.store, statefulSet)
  {
    recreate := StatefulSetRequiresRecreation(found.body, statefulSet);
    if recreate {
      if found.deleting {
        c.Local();
        error := None;
      } else {
        error := c.DeleteStatefulSet();
      }
      return;
    }
    var updated := Updated(found.body, statefulSet);
    error := None;
    if updated != found.body {
      UpdateInPlace(found.body, statefulSet);
      SetAsRead(c.id, c.store, c.Op());
      UpdateSetReply(c.store, found.(body := updated));
      error := c.UpdateStatefulSet(found.(body := updated));
    } else {
      // The server has filled in defaults, so there is always a difference.
      AlwaysDiffers(c.id, c.store, c.Op());
      assert false;
    }
  }

  lemma SetAsRead(id: Instance, store: Store, op: Phase)
    requires op.Deciding? && SetHistory(store) && PhaseInv(id, store, op)
    ensures store.sts.Some? && store.sts.value.version == op.found.version ==> store.sts.value == op.found
  {
  }

  lemma AlwaysDiffers(id: Instance, store: Store, op: Phase)
    requires op.Deciding? && SetHistory(store) && PhaseInv(id, store, op)
    ensures Updated(op.found.body, op.plan.desired) != op.found.body
  {
    UpdateAlwaysSent(op.found.body, id.name, op.plan.job.spec, ChecksumOf(id, op.plan.job.files));
  }

  lemma UpdateInPlace(found: StatefulSet, desired: StatefulSet)
    requires !RequiresRecreation(found, desired)
    ensures var stored := Admit(Updated(found, desired)); AgreesButSize(Admit(stored), Admit(desired))
  {
    UpdateLegalAndSufficient(found, desired);
    AdmitIdempotent(Updated(found, desired));
  }

  /** The two stores differ at most in the StatefulSet and the claims. */
  predicate SameButSetAndClaims(a: Store, b: Store) {
    b == a.(sts := b.sts, seenSets := b.seenSets, claims := b.claims, seen := b.seen, clock := b.clock)
  }

  /** What a pass over the claims may have done, for a resource with or without log persistence. */
  ghost predicate ClaimsProgressed(id: Instance, spec: CrSpec, before: map<string, Claim>, after: map<string, Claim>) {
    if SizedSpec(spec) then Progressed(id, before, after, DesiredSize(spec)) else after == before
  }

  ghost predicate ClaimsSettled(id: Instance, spec: CrSpec, claims: map<string, Claim>) {
    SizedSpec(spec) ==> AllSettled(id, claims, DesiredSize(spec), DesiredClass(spec))
  }

  lemma ClaimsThenSet(a: Store, b: Store, c: Store)
    requires SameButClaims(a, b) && SameButSet(b, c)
    ensures SameButSetAndClaims(a, c) && c.claims == b.claims
  {
  }

  /** The part of ensureStatefulSet for a StatefulSet that was found and has no other class: the
      pass over the claims, then the decision about the set. */
  method BringUpToDate(c: Cluster, spec: CrSpec, found: StoredSet, statefulSet: StatefulSet, ghost plan: Plan)
    returns (recreate: bool, error: Option<Error>)
    requires c.Valid() && c.Op() == SetRead(plan, found) && spec == plan.job.spec && statefulSet == plan.desired
    requires c.calm ==> c.store.sts == Some(found)
    modifies c
    ensures c.Extended()
    ensures error.Some? ==> c.Op() == Failed(error.value)
    ensures error.None? && recreate ==> c.Op().Idle?
    ensures error.None? && !recreate ==> c.Op() == Ready(plan)
    ensures c.calm ==> SameButSetAndClaims(old(c.store), c.store)
    ensures c.calm ==> ClaimsProgressed(c.id, spec, old(c.store.claims), c.store.claims)
    ensures c.calm && error.None? ==> ClaimsSettled(c.id, spec, c.store.claims)
    ensures c.calm && error.None? && recreate ==> c.store.sts.Some? && c.store.sts.value.deleting
    ensures c.calm && error.None? && !recreate ==> InPlace(c.store, statefulSet)
  {
    recreate := false;
    ghost var before := c.store;
    ghost var listed, done;
    error, listed, done := EnsureLogPVCStorage(c, spec, plan, found);
    ghost var middle := c.store;
    if error.None? {
      recreate, error := ApplyStatefulSet(c, found, statefulSet);
    }
    if c.calm {
      ClaimsThenSet(before, middle, c.store);
    }
  }

  /** In a calm cluster, success without recreation means that the desired StatefulSet is stored
      and, unless it has just been created, that every selected claim is settled; however the
      method ends, the claims have progressed and nothing else has changed. */
  method EnsureStatefulSet(c: Cluster, spec: CrSpec, configMapName: string, configMapChecksum: string,
                           ghost job: Job, ghost ca: string)
    returns (recreate: bool, error: Option<Error>)
    requires c.Valid() && c.Op() == CaDone(job, ca) && spec == job.spec
    requires configMapName == c.id.name + "-config" && configMapChecksum == ChecksumOf(c.id, job.files)
    modifies c
    ensures c.Extended()
    ensures error.Some? ==> c.Op() == Failed(error.value)
    ensures error.None? && recreate ==> c.Op().Idle?
    ensures error.None? && !recreate ==> c.Op().Ready? && c.Op().plan.job == job && c.Op().plan.ca == ca
    ensures c.calm ==> SameButSetAndClaims(old(c.store), c.store)
    ensures c.calm ==> ClaimsProgressed(c.id, spec, old(c.store.claims), c.store.claims)
    ensures c.calm && error.None? && (recreate || old(c.store.sts).Some?) ==> ClaimsSettled(c.id, spec, c.store.claims)
    ensures c.calm && error.None? && recreate ==> c.store.sts.Some? && c.store.sts.value.deleting
    ensures c.calm && error.None? && !recreate ==> InPlace(c.store, c.Op().plan.desired)
    ensures c.calm && error.None? && old(c.store.sts).None? ==>
              !recreate && c.store.sts.value.body == Admit(c.Op().plan.desired)
  {
    recreate := false;
    ClaimsUntouched(c.id, spec, c.store.claims);
    var built := BuildStatefulSet(c.id.name, spec, configMapName, configMapChecksum);
    if built.None? {
      error := Some(BadSize(spec.logPersistence.value.size.text));
      c.Local();
      return;
    }
    var statefulSet := built.value;
    ghost var plan := Plan(job, ca, statefulSet);
    var read;
    read, error := c.GetSet(plan);
    if error.Some? {
      return;
    }
    if read.None? {
      DesiredAgreesWithItself(c.id, plan);
      error := c.CreateStatefulSet(statefulSet);
      return;
    }
    var found := read.value;
    error := ValidateClassChange(found.body.templates, statefulSet.templates);
    if error.Some? {
      return;
    }
    recreate, error := BringUpToDate(c, spec, found, statefulSet, plan);
  }

  lemma ClaimsUntouched(id: Instance, spec: CrSpec, claims: map<string, Claim>)
    ensures ClaimsProgressed(id, spec, claims, claims)
  {
  }

  // ---------- Reconcile ----------

  /** The two stores differ at most in the ConfigMap, the CA secret and their histories. */
  predicate SameButConfig(a: Store, b: Store) {
    b == a.(configMap := b.configMap, seenMaps := b.seenMaps, held := b.held,
            caSecret := b.caSecret, seenSecrets := b.seenSecrets, clock := b.clock)
  }

  /** The first half of Reconcile: read, render, and bring ConfigMap and CA secret up to date. */
  method PrepareConfig(c: Cluster)
    returns (spec: CrSpec, configFiles: Files, configMapChecksum: string, error: Option<Error>, ghost ca: string)
    requires c.Valid() && c.Op().Idle?
    modifies c
    ensures c.Extended()
    ensures error.None? ==> c.Op() == CaDone(Job(spec, configFiles), ca)
    ensures error.None? ==> configMapChecksum == ChecksumOf(c.id, configFiles)
    ensures error.Some? ==> c.Op() == Failed(error.value)
    ensures c.calm && error.None? ==> spec == old(c.store.cr) && Some(configFiles) == old(c.store.rendered)
    ensures c.calm ==> SameButConfig(old(c.store), c.store)
  {
    configMapChecksum, ca := "", "";
    spec, configFiles, error := c.GetInstance();
    if error.Some? {
      return;
    }
    ghost var job := Job(spec, configFiles);
    configMapChecksum := Checksum.GenerateConfigMapChecksum(c.id.sha256, configFiles);
    error := EnsureConfigMap(c, job, configFiles);
    if error.Some? {
      return;
    }
    error, ca := EnsureRabbitMQCaSecret(c, job);
  }

  datatype Result = Complete | RequeueAfter(seconds: nat) | Errored(error: Error)

  /** The run from one point on passes through Ready, where AimReady is reported. */
  ghost predicate PassesReady(trace: seq<World>, start: nat) {
    exists k :: start <= k < |trace| && trace[k].op.Ready?
  }

  /** The run from one point on fails, with this error. */
  ghost predicate FailsWith(trace: seq<World>, start: nat, error: Error) {
    exists k :: start <= k < |trace| && trace[k].op == Failed(error)
  }

  ghost predicate Unfailing(trace: seq<World>, start: nat) {
    forall k :: start <= k < |trace| ==> !trace[k].op.Failed?
  }

  /** The answer tells how the reconcile went. */
  ghost predicate Tells(trace: seq<World>, start: nat, result: Result) {
    && (result.Complete? <==> PassesReady(trace, start) && Unfailing(trace, start))
    && (result.RequeueAfter? <==> !PassesReady(trace, start) && Unfailing(trace, start))
    && (result.RequeueAfter? ==> result.seconds == 1)
    && (result.Errored? ==> FailsWith(trace, start, result.error))
  }

  /** The same, by the counts. */
  predicate Counts(result: Result, failures: int, dues: int) {
    match result
    case Complete => failures == 0 && dues == 1
    case RequeueAfter(seconds) => seconds == 1 && failures == 0 && dues == 0
    case Errored(_) => failures == 1
  }

  /** Between two points of a trace, neither of them a failure nor Ready, the counts differ exactly
      if a failure or Ready lies between. While the trace is at one of them it has yet to count. */
  lemma {:induction false} CountsMean(trace: seq<World>, n: nat)
    requires 0 < n <= |trace| && !trace[n - 1].op.Failed? && !trace[n - 1].op.Ready?
    ensures var last := trace[|trace| - 1].op;
            && Failures(trace[..n]) <= Failures(trace) && Dues(trace[..n]) <= Dues(trace)
            && (Unfailing(trace, n) <==> Failures(trace) == Failures(trace[..n]) && !last.Failed?)
            && (PassesReady(trace, n) <==> Dues(trace) > Dues(trace[..n]) || last.Ready?)
  {
    if n == |trace| {
      assert trace[..n] == trace;
    } else {
      CountsMean(trace[..|trace| - 1], n);
      assert trace[..|trace| - 1][..n] == trace[..n];
      CountsLast(trace, n);
    }
  }

  lemma CountsLast(trace: seq<World>, n: nat)
    requires 0 < n < |trace|
    ensures var front, last := trace[..|trace| - 1], trace[|trace| - 1].op;
            && (Unfailing(trace, n) <==> Unfailing(front, n) && !last.Failed?)
            && (PassesReady(trace, n) <==> PassesReady(front, n) || last.Ready?)
  {
    var front := trace[..|trace| - 1];
    assert forall k :: n <= k < |front| ==> front[k] == trace[k];
    if PassesReady(front, n) {
      var k :| n <= k < |front| && front[k].op.Ready?;
      assert trace[k].op.Ready?;
    }
    assert trace[|trace| - 1].op.Ready? ==> PassesReady(trace, n);
  }

  /** Writing the AimReady condition to the resource's status. */
  method ReportReady(c: Cluster) returns (error: Option<Error>)
    requires c.Valid() && c.Op().Ready?
    modifies c
    ensures c.failures == old(c.failures) && c.dues == old(c.dues) + 1
    ensures c.Continued() && (c.calm ==> c.store == old(c.store))
    ensures PassesReady(c.trace, |old(c.acts)|)
    ensures error.None? ==> c.Op().Idle?
    ensures error.Some? ==> c.Op() == Failed(error.value)
  {
    assert c.trace[|c.acts|].op.Ready?;
    error := c.UpdateStatus();
    assert c.trace[|old(c.acts)|].op.Ready?;
  }

  /** An error ends the reconcile. */
  method GiveUp(c: Cluster, error: Error) returns (result: Result)
    requires c.Valid() && c.Op() == Failed(error)
    modifies c
    ensures c.Continued() && c.Op().Idle? && c.store == old(c.store) && result == Errored(error)
    ensures c.failures == old(c.failures) + 1 && c.dues == old(c.dues)
    ensures FailsWith(c.trace, |old(c.acts)|, error)
  {
    assert c.trace[|c.acts|].op == Failed(error);
    c.Record(Call(NoFault));
    assert c.trace[|old(c.acts)|].op == Failed(error);
    result := Errored(error);
  }

  /** The second half of Reconcile: bring the StatefulSet up to date and report. */
  method Deploy(c: Cluster, spec: CrSpec, configMapChecksum: string, ghost job: Job, ghost ca: string)
    returns (result: Result, ghost plan: Plan)
    requires c.Valid() && c.Op() == CaDone(job, ca) && spec == job.spec
    requires configMapChecksum == ChecksumOf(c.id, job.files)
    modifies c
    ensures c.Continued() && c.Op().Idle?
    ensures Counts(result, c.failures - old(c.failures), c.dues - old(c.dues))
    ensures result.Errored? ==> FailsWith(c.trace, |old(c.acts)|, result.error)
    ensures c.calm ==> SameButSetAndClaims(old(c.store), c.store)
    ensures c.calm ==> ClaimsProgressed(c.id, spec, old(c.store.claims), c.store.claims)
    ensures c.calm && result.Complete? ==>
              && PlanOf(c.id, plan) && plan.job == job
              && HoldsFiles(c.store, job.files) && HoldsCa(c.store, plan.ca) && InPlace(c.store, plan.desired)
    ensures c.calm && !result.Errored? && (result.RequeueAfter? || old(c.store.sts).Some?) ==>
              ClaimsSettled(c.id, spec, c.store.claims)
    ensures c.calm && result.RequeueAfter? ==> c.store.sts.Some? && c.store.sts.value.deleting
  {
    plan := *;
    var recreate, error := EnsureStatefulSet(c, spec, c.id.name + "-config", configMapChecksum, job, ca);
    if error.Some? {
      result := GiveUp(c, error.value);
      return;
    }
    if recreate {
      result := RequeueAfter(1);
      return;
    }
    plan := c.Op().plan;
    error := ReportReady(c);
    if error.Some? {
      result := GiveUp(c, error.value);
      return;
    }
    result := Complete;
  }

  lemma Telling(first: seq<World>, trace: seq<World>, result: Result)
    requires 0 < |first| && first <= trace && first[|first| - 1].op.Idle? && trace[|trace| - 1].op.Idle?
    requires Counts(result, Failures(trace) - Failures(first), Dues(trace) - Dues(first))
    requires result.Errored? ==> FailsWith(trace, |first| - 1, result.error)
    ensures Tells(trace, |first| - 1, result)
  {
    var n := |first|;
    assert trace[..n] == first;
    CountsMean(trace, n);
    assert trace[n - 1] == first[n - 1];
    assert Unfailing(trace, n) <==> Unfailing(trace, n - 1);
    assert PassesReady(trace, n) <==> PassesReady(trace, n - 1);
  }

  lemma ConfigThenSet(a: Store, b: Store, c: Store)
    requires SameButConfig(a, b) && SameButSetAndClaims(b, c)
    ensures SameInputs(a, c) && b.claims == a.claims && b.sts == a.sts && b.cr == a.cr
  {
  }

  /** One reconcile is a stretch of a run of the protocol, from Idle to Idle, and it completes
      only by way of Ready. In a calm cluster, however it ends, the claims have progressed; if it
      completes, ConfigMap, CA secret and StatefulSet are stored as the resource wants them, and
      every selected claim is settled unless the StatefulSet has only now been created. */
  method Reconcile(c: Cluster) returns (result: Result, ghost plan: Plan)
    requires c.Valid() && c.Op().Idle?
    modifies c
    ensures c.Continued() && c.Op().Idle?
    ensures Tells(c.trace, |old(c.acts)|, result)
    ensures c.calm ==> SameInputs(old(c.store), c.store)
    ensures c.calm ==> ClaimsProgressed(c.id, old(c.store.cr), old(c.store.claims), c.store.claims)
    ensures c.calm && result.Complete? ==>
              && PlanOf(c.id, plan) && Some(plan.job.files) == old(c.store.rendered) && plan.job.spec == old(c.store.cr)
              && HoldsFiles(c.store, plan.job.files) && HoldsCa(c.store, plan.ca) && InPlace(c.store, plan.desired)
              && Shows(c.id.name, old(c.store.cr), c.id.sha256(Checksum.Preimage(c.store.configMap.value.data)),
                       c.store.sts.value.body)
    ensures c.calm && result.Complete? && old(c.store.sts).Some? ==>
              ClaimsSettled(c.id, old(c.store.cr), c.store.claims)
    ensures c.calm && result.RequeueAfter? ==>
              && c.store.sts.Some? && c.store.sts.value.deleting
              && ClaimsSettled(c.id, old(c.store.cr), c.store.claims)
  {
    plan := *;
    ghost var ca, start, first := "", c.store, c.trace;
    var spec, configFiles, configMapChecksum, error;
    spec, configFiles, configMapChecksum, error, ca := PrepareConfig(c);
    ghost var configured := c.store;
    if error.Some? {
      ClaimsUntouched(c.id, start.cr, start.claims);
      result := GiveUp(c, error.value);
      Telling(first, c.trace, result);
      return;
    }
    result, plan := Deploy(c, spec, configMapChecksum, Job(spec, configFiles), ca);
    Telling(first, c.trace, result);
    if c.calm {
      ConfigThenSet(start, configured, c.store);
      if result.Complete? {
        AgreeingShows(c.id.name, spec, configMapChecksum, c.store.sts.value.body);
      }
    }
  }

  /** The queue calls Reconcile again after an error or a request for it. However often that
      happens in a calm cluster, what earlier attempts did to the claims is never undone, and
      each change leaves strictly fewer claims to do. */
  method ReconcileAgain(c: Cluster, attempts: nat) returns (result: Result)
    requires c.Valid() && c.Op().Idle?
    modifies c
    ensures c.Continued() && c.Op().Idle?
    ensures result.Complete? ==> PassesReady(c.trace, |old(c.acts)|)
    ensures c.calm ==> SameInputs(old(c.store), c.store)
    ensures c.calm ==> ClaimsProgressed(c.id, old(c.store.cr), old(c.store.claims), c.store.claims)
  {
    result := RequeueAfter(0);
    var left := attempts;
    while left > 0 && !result.Complete?
      invariant c.Continued() && c.Op().Idle?
      invariant result.Complete? ==> PassesReady(c.trace, |old(c.acts)|)
      invariant c.calm ==> SameInputs(old(c.store), c.store)
      invariant c.calm ==> ClaimsProgressed(c.id, old(c.store.cr), old(c.store.claims), c.store.claims)
      decreases left
    {
      ghost var before := c.store.claims;
      ghost var plan;
      result, plan := Reconcile(c);
      if c.calm && SizedSpec(c.store.cr) {
        ProgressedChain(c.id, old(c.store.claims), before, c.store.claims, DesiredSize(c.store.cr));
      }
      left := left - 1;
    }
  }
}
