/** templates/init.sh: run at every container start, it applies the aimctl configuration from
    pod 0 unless the persisted hash says that this was already done. Any command may fail and
    the pod may be killed at any point, even while the hash file is being rewritten. */
module InitScript {
  import opened Text
  import Names

  // ---------- the script's surroundings ----------

  datatype CommandResult = Succeeds | Fails | Killed

  /** What happens to the commands of one start: torn is how much of the hash line reaches the
      file when the final write does not complete. */
  datatype Fate = Fate(mkdir: CommandResult, update: CommandResult, infra: CommandResult,
                       load: CommandResult, torn: Option<nat>)

  /** One container start of pod 0. conf is the content of aimctl.conf, None if unreadable. */
  datatype Launch = Launch(conf: Option<string>, logToDisk: bool, fate: Fate)

  /** What the APIC side has seen; run numbers the starts. */
  datatype Event =
    | UpdateBegan(run: nat, conf: Option<string>)
    | UpdateDone(run: nat, conf: Option<string>)
    | LoadDone(run: nat, conf: Option<string>)

  /** hashFile lives on the log volume and survives restarts. */
  datatype Site = Site(hashFile: Option<string>, runs: nat, log: seq<Event>)

  datatype Exit = Zero | NonZero

  /** file is the state file as this container leaves it, on the volume or in /tmp. */
  datatype Outcome = Outcome(site: Site, file: Option<string>, exit: Exit)

  /** $(cat file): trailing newlines are dropped. */
  function StripNewlines(s: string): string {
    if |s| > 0 && s[|s| - 1] == '\n' then StripNewlines(s[..|s| - 1]) else s
  }

  /** sha256sum | cut: the pipeline's status is cut's, so an unreadable file yields "". */
  function HashOf(sha: string -> string, conf: Option<string>): string {
    if conf.None? then "" else sha(conf.value)
  }

  predicate RecordMatches(file: Option<string>, hash: string) {
    file.Some? && StripNewlines(file.value) == hash
  }

  /** The hash line, cut short when the write is torn. */
  function Written(hash: string, torn: Option<nat>): string {
    var line := hash + "\n";
    if torn.None? || torn.value > |line| then line else line[..torn.value]
  }

  // ---------- meaning of one start ----------

  /** The state file this container sees: /tmp is empty in a new container. */
  function FileSeen(site: Site, logToDisk: bool): Option<string> {
    if logToDisk then site.hashFile else None
  }

  predicate Skips(sha: string -> string, site: Site, launch: Launch) {
    RecordMatches(FileSeen(site, launch.logToDisk), HashOf(sha, launch.conf))
  }

  /** The commands reached, in order, as seen by the APIC. */
  function Applied(run: nat, conf: Option<string>, fate: Fate): seq<Event> {
    if !fate.update.Succeeds? then [UpdateBegan(run, conf)]
    else if fate.infra.Killed? || !fate.load.Succeeds? then [UpdateBegan(run, conf), UpdateDone(run, conf)]
    else [UpdateBegan(run, conf), UpdateDone(run, conf), LoadDone(run, conf)]
  }

  predicate CommandsComplete(fate: Fate) {
    fate.update.Succeeds? && !fate.infra.Killed? && fate.load.Succeeds?
  }

  function Start(sha: string -> string, site: Site, launch: Launch): Outcome {
    var seen := FileSeen(site, launch.logToDisk);
    var counted := site.(runs := site.runs + 1);
    if !launch.fate.mkdir.Succeeds? then Outcome(counted, seen, NonZero)
    else if Skips(sha, site, launch) then Outcome(counted, seen, Zero)
    else
      var log := site.log + Applied(site.runs, launch.conf, launch.fate);
      if !CommandsComplete(launch.fate) then Outcome(counted.(log := log), seen, NonZero)
      else
        var file := Some(Written(HashOf(sha, launch.conf), launch.fate.torn));
        Outcome(counted.(log := log, hashFile := if launch.logToDisk then file else site.hashFile),
                file, if launch.fate.torn.None? then Zero else NonZero)
  }

  // ---------- the script ----------

  /** The log volume and the APIC, as the script's commands change them. */
  class Host {
    var hashFile: Option<string>
    var runs: nat
    var log: seq<Event>

    constructor ()
      ensures Contents() == Site(None, 0, [])
    {
      hashFile, runs, log := None, 0, [];
    }

    function Contents(): Site
      reads this
    {
      Site(hashFile, runs, log)
    }

    /** init.sh. On pod 0 it does exactly what Start says; on any other pod nothing. */
    method InitSh(sha: string -> string, podName: string, launch: Launch) returns (exit: Exit)
      modifies this
      ensures Names.ExpansionOrdinal(podName) != "0" ==> Contents() == old(Contents()) && exit == Zero
      ensures Names.ExpansionOrdinal(podName) == "0" ==>
                Contents() == Start(sha, old(Contents()), launch).site
                && exit == Start(sha, old(Contents()), launch).exit
    {
      var podOrdinal := Names.ExpansionOrdinal(podName);
      if podOrdinal != "0" {
        return Zero;
      }
      var run := runs;
      runs := runs + 1;
      if !launch.fate.mkdir.Succeeds? {
        return NonZero;
      }
      var configHash := HashOf(sha, launch.conf);
      var file := if launch.logToDisk then hashFile else None;
      if file.Some? && StripNewlines(file.value) == configHash {
        return Zero;
      }

      log := log + [UpdateBegan(run, launch.conf)];
      if !launch.fate.update.Succeeds? {
        return NonZero;
      }
      log := log + [UpdateDone(run, launch.conf)];
      // A failing "infra create" is tolerated; being killed there is not.
      if launch.fate.infra.Killed? {
        return NonZero;
      }
      if !launch.fate.load.Succeeds? {
        return NonZero;
      }
      log := log + [LoadDone(run, launch.conf)];

      if launch.logToDisk {
        hashFile := Some(Written(configHash, launch.fate.torn));
      }
      return if launch.fate.torn.None? then Zero else NonZero;
    }
  }

  /** In every pod of an instance the gate lets exactly ordinal 0 through. */
  method StartPod(host: Host, sha: string -> string, instance: string, ordinal: nat, launch: Launch)
    returns (exit: Exit)
    modifies host
    ensures ordinal != 0 ==> host.Contents() == old(host.Contents()) && exit == Zero
    ensures ordinal == 0 ==> host.Contents() == Start(sha, old(host.Contents()), launch).site
                             && exit == Start(sha, old(host.Contents()), launch).exit
  {
    Names.PodOrdinal(instance, ordinal);
    exit := host.InitSh(sha, instance + "-" + Names.Decimal(ordinal), launch);
  }

  // ---------- what one start does ----------

  /** Everything that has to succeed does: the result of "infra create" does not matter, only that
      the pod survives it. */
  predicate GoesThrough(fate: Fate) {
    && fate.mkdir == Succeeds && fate.update == Succeeds && fate.load == Succeeds && fate.torn == None
    && (fate.infra == Succeeds || fate.infra == Fails)
  }

  /** A failing "infra create" makes no difference at all. */
  lemma InfraTolerated(sha: string -> string, site: Site, launch: Launch)
    ensures Start(sha, site, launch.(fate := launch.fate.(infra := Fails)))
            == Start(sha, site, launch.(fate := launch.fate.(infra := Succeeds)))
  {
  }

  /** A start exits 0 exactly if the directory can be made, and either the state file it sees
      holds the current hash or all commands go through. */
  lemma ExitZeroIff(sha: string -> string, site: Site, launch: Launch)
    ensures Start(sha, site, launch).exit == Zero
            <==> launch.fate.mkdir == Succeeds
                 && (GoesThrough(launch.fate)
                     || (launch.logToDisk && site.hashFile.Some?
                         && StripNewlines(site.hashFile.value) == HashOf(sha, launch.conf)))
  {
  }

  /** When the commands go through, the start exits 0 with the current hash recorded, on the volume
      if logs are kept there, and the configuration has been applied completely unless the hash
      was there already. */
  lemma GoesThroughRecords(sha: string -> string, site: Site, launch: Launch)
    requires Digests(sha) && GoesThrough(launch.fate)
    ensures var outcome := Start(sha, site, launch);
            && outcome.exit == Zero && RecordMatches(outcome.file, HashOf(sha, launch.conf))
            && (launch.logToDisk ==> RecordMatches(outcome.site.hashFile, HashOf(sha, launch.conf)))
            && ((outcome.site.log == site.log && Skips(sha, site, launch))
                || outcome.site.log == site.log + [UpdateBegan(site.runs, launch.conf), UpdateDone(site.runs, launch.conf),
                                                   LoadDone(site.runs, launch.conf)])
  {
    WrittenRecord(sha, launch.conf, None, "");
  }

  /** A command is reached only if all before it but "infra create" have succeeded, and the hash
      file changes only after the last. */
  lemma CommandsInOrder(sha: string -> string, site: Site, launch: Launch)
    requires launch.fate.mkdir == Succeeds && !Skips(sha, site, launch)
    ensures var after, run, conf := Start(sha, site, launch).site, site.runs, launch.conf;
            && (launch.fate.update != Succeeds ==> after.log == site.log + [UpdateBegan(run, conf)])
            && (launch.fate.update == Succeeds && (launch.fate.infra == Killed || launch.fate.load != Succeeds) ==>
                  after.log == site.log + [UpdateBegan(run, conf), UpdateDone(run, conf)])
            && (launch.fate.update != Succeeds || launch.fate.infra == Killed || launch.fate.load != Succeeds ==>
                  after.hashFile == site.hashFile && Start(sha, site, launch).exit == NonZero)
  {
  }

  /** Without logs on disk the volume is left alone and nothing is ever skipped: the state file is
      gone with the container. */
  lemma ForgottenWithoutVolume(sha: string -> string, site: Site, launch: Launch)
    requires !launch.logToDisk
    ensures Start(sha, site, launch).site.hashFile == site.hashFile && !Skips(sha, site, launch)
  {
  }

  // ---------- whole histories ----------

  /** Digests are 64 characters on one line. */
  ghost predicate Digests(sha: string -> string) {
    forall s :: |sha(s)| == 64 && '\n' !in sha(s)
  }

  /** The site after a history of starts of pod 0, from a fresh volume. */
  function After(sha: string -> string, launches: seq<Launch>): Site {
    if |launches| == 0 then Site(None, 0, [])
    else Start(sha, After(sha, launches[..|launches| - 1]), launches[|launches| - 1]).site
  }

  /** Run i completed both config update and load-domains, with configuration c. */
  ghost predicate CompletedRun(site: Site, i: nat, c: string) {
    UpdateBegan(i, Some(c)) in site.log && UpdateDone(i, Some(c)) in site.log && LoadDone(i, Some(c)) in site.log
  }

  /** Events carry the configuration of their start and come in the order of the starts. */
  ghost predicate LogInv(launches: seq<Launch>, log: seq<Event>) {
    && (forall p :: 0 <= p < |log| ==> log[p].run < |launches| && log[p].conf == launches[log[p].run].conf)
    && (forall p, q :: 0 <= p < q < |log| ==> log[p].run <= log[q].run)
  }

  /** Some configuration with this digest was applied completely in one run. */
  ghost predicate DigestCompleted(sha: string -> string, site: Site, digest: string) {
    exists i: nat, d :: sha(d) == digest && CompletedRun(site, i, d)
  }

  /** A recorded digest belongs to a completed run. */
  ghost predicate RecordInv(sha: string -> string, site: Site) {
    site.hashFile.Some? ==>
      var recorded := StripNewlines(site.hashFile.value);
      (exists c :: sha(c) == recorded) ==> DigestCompleted(sha, site, recorded)
  }

  ghost predicate Inv(sha: string -> string, launches: seq<Launch>, site: Site) {
    site.runs == |launches| && LogInv(launches, site.log) && RecordInv(sha, site)
  }

  /** Exactly the newlines at the end are dropped. */
  lemma {:induction false} StripExact(s: string) returns (newlines: string)
    ensures s == StripNewlines(s) + newlines && forall i :: 0 <= i < |newlines| ==> newlines[i] == '\n'
    ensures StripNewlines(s) != "" ==> StripNewlines(s)[|StripNewlines(s)| - 1] != '\n'
  {
    newlines := "";
    if |s| > 0 && s[|s| - 1] == '\n' {
      newlines := StripExact(s[..|s| - 1]);
      assert s == s[..|s| - 1] + "\n";
      newlines := newlines + "\n";
    }
  }

  lemma {:induction false} StripShape(s: string)
    ensures StripNewlines(s) <= s
    ensures '\n' !in s ==> StripNewlines(s) == s && StripNewlines(s + "\n") == s
  {
    assert (s + "\n")[..|s|] == s;
    if |s| > 0 && s[|s| - 1] == '\n' {
      StripShape(s[..|s| - 1]);
    }
  }

  /** A torn hash line is never mistaken for the digest of another configuration. */
  lemma WrittenRecord(sha: string -> string, conf: Option<string>, torn: Option<nat>, c: string)
    requires Digests(sha)
    ensures StripNewlines(Written(HashOf(sha, conf), torn)) == sha(c) ==> conf.Some? && sha(conf.value) == sha(c)
    ensures torn.None? ==> StripNewlines(Written(HashOf(sha, conf), torn)) == HashOf(sha, conf)
  {
    var hash := HashOf(sha, conf);
    var text := Written(hash, torn);
    StripShape(hash);
    StripShape(text);
    var strip := StripNewlines(text);
    if strip == sha(c) {
      assert |strip| == 64 && |text| <= |hash| + 1;
      assert conf.Some?;
      assert strip == text[..64] == (hash + "\n")[..64] == hash;
    }
  }

  lemma LogKept(launches: seq<Launch>, log: seq<Event>, launch: Launch, events: seq<Event>)
    requires LogInv(launches, log)
    requires forall p :: 0 <= p < |events| ==> events[p].run == |launches| && events[p].conf == launch.conf
    ensures LogInv(launches + [launch], log + events)
  {
  }

  lemma CompletedKept(site: Site, after: Site, i: nat, c: string)
    requires site.log <= after.log && CompletedRun(site, i, c)
    ensures CompletedRun(after, i, c)
  {
    assert forall e :: e in site.log ==> e in after.log;
  }

  lemma RecordKept(sha: string -> string, site: Site, launch: Launch, c: string)
    requires Digests(sha) && RecordInv(sha, site)
    requires RecordMatches(Start(sha, site, launch).site.hashFile, sha(c))
    ensures DigestCompleted(sha, Start(sha, site, launch).site, sha(c))
  {
    var after := Start(sha, site, launch).site;
    if after.hashFile == site.hashFile {
      var i: nat, d :| sha(d) == sha(c) && CompletedRun(site, i, d);
      CompletedKept(site, after, i, d);
    } else {
      WrittenRecord(sha, launch.conf, launch.fate.torn, c);
      NewRunCompleted(site, launch, after);
    }
  }

  lemma StartKeepsInv(sha: string -> string, launches: seq<Launch>, site: Site, launch: Launch)
    requires Digests(sha) && Inv(sha, launches, site)
    ensures Inv(sha, launches + [launch], Start(sha, site, launch).site)
  {
    var after := Start(sha, site, launch).site;
    LogKept(launches, site.log, launch, Applied(site.runs, launch.conf, launch.fate));
    LogKept(launches, site.log, launch, []);
    assert site.log + [] == site.log;
    assert RecordInv(sha, after) by {
      forall c | RecordMatches(after.hashFile, sha(c)) ensures DigestCompleted(sha, after, sha(c)) {
        RecordKept(sha, site, launch, c);
      }
    }
  }

  lemma NewRunCompleted(site: Site, launch: Launch, after: Site)
    requires CommandsComplete(launch.fate) && launch.conf.Some?
    requires after.log == site.log + Applied(site.runs, launch.conf, launch.fate)
    ensures CompletedRun(after, site.runs, launch.conf.value)
  {
    var events := Applied(site.runs, launch.conf, launch.fate);
    assert forall e :: e in events ==> e in after.log;
    assert events[0] in events && events[1] in events && events[2] in events;
  }

  lemma {:induction false} HistoryInv(sha: string -> string, launches: seq<Launch>)
    requires Digests(sha)
    ensures Inv(sha, launches, After(sha, launches))
  {
    if |launches| == 0 {
    } else {
      var front, last := launches[..|launches| - 1], launches[|launches| - 1];
      HistoryInv(sha, front);
      StartKeepsInv(sha, front, After(sha, front), last);
      assert front + [last] == launches;
    }
  }

  /** After any history of starts, crashes and failures, a digest that can be read from the
      hash file is that of a configuration for which config update and load-domains both
      completed in one run. */
  lemma RecordedWasApplied(sha: string -> string, launches: seq<Launch>, c: string)
    requires Digests(sha)
    requires RecordMatches(After(sha, launches).hashFile, sha(c))
    ensures DigestCompleted(sha, After(sha, launches), sha(c))
  {
    HistoryInv(sha, launches);
  }

  /** Exit 0 on pod 0 means that the state file holds the current hash. */
  lemma ExitZeroRecorded(sha: string -> string, site: Site, launch: Launch)
    requires Digests(sha)
    requires Start(sha, site, launch).exit == Zero
    ensures RecordMatches(Start(sha, site, launch).file, HashOf(sha, launch.conf))
  {
    WrittenRecord(sha, launch.conf, launch.fate.torn, "");
  }

  // ---------- what was applied last ----------

  /** The configuration whose update began last. */
  function LastBegan(log: seq<Event>): Option<Event> {
    if |log| == 0 then None
    else if log[|log| - 1].UpdateBegan? then Some(log[|log| - 1])
    else LastBegan(log[..|log| - 1])
  }

  predicate LastAppliedIs(site: Site, conf: Option<string>) {
    LastBegan(site.log).Some? && LastBegan(site.log).value.conf == conf
  }

  lemma {:induction false} LastBeganIsLast(log: seq<Event>, e: Event)
    requires e in log && e.UpdateBegan?
    ensures LastBegan(log).Some?
    ensures exists p, q :: 0 <= p <= q < |log| && log[p] == e && log[q] == LastBegan(log).value
  {
    var n := |log| - 1;
    if log[n].UpdateBegan? {
      var p :| 0 <= p < |log| && log[p] == e;
      assert log[n] == LastBegan(log).value;
    } else {
      assert log == log[..n] + [log[n]];
      LastBeganIsLast(log[..n], e);
      var p, q :| 0 <= p <= q < n && log[..n][p] == e && log[..n][q] == LastBegan(log[..n]).value;
      assert log[p] == e && log[q] == LastBegan(log).value;
    }
  }

  lemma LastBeganApplied(log: seq<Event>, run: nat, conf: Option<string>, fate: Fate)
    ensures LastBegan(log + Applied(run, conf, fate)) == Some(UpdateBegan(run, conf))
  {
    var began, done, loaded := UpdateBegan(run, conf), UpdateDone(run, conf), LoadDone(run, conf);
    var one := log + [began];
    var two := one + [done];
    var three := two + [loaded];
    assert two[..|two| - 1] == one && three[..|three| - 1] == two;
    assert log + [began, done] == two && log + [began, done, loaded] == three;
    assert LastBegan(one) == Some(began);
    assert LastBegan(two) == LastBegan(one);
    assert LastBegan(three) == LastBegan(two);
  }

  /** The configurations of a history of starts. */
  function Confs(launches: seq<Launch>): seq<Option<string>> {
    seq(|launches|, i requires 0 <= i < |launches| => launches[i].conf)
  }

  /** The configuration has the digest of c. */
  predicate SharesDigest(sha: string -> string, conf: Option<string>, c: string) {
    conf.Some? && sha(conf.value) == sha(c)
  }

  /** The current configuration has not been left: since one of its digest was first started, no
      other configuration was. */
  ghost predicate NeverLeft(sha: string -> string, confs: seq<Option<string>>, c: string) {
    forall i, j :: 0 <= i <= j < |confs| && SharesDigest(sha, confs[i], c) ==> confs[j] == Some(c)
  }

  /** No configuration that occurs collides with the current one. */
  ghost predicate NoCollision(sha: string -> string, confs: seq<Option<string>>, c: string) {
    forall i :: 0 <= i < |confs| && SharesDigest(sha, confs[i], c) ==> confs[i] == Some(c)
  }

  /** Without collisions it means: once the configuration itself was started, no other was. */
  lemma NeverLeftMeaning(sha: string -> string, confs: seq<Option<string>>, c: string)
    ensures NeverLeft(sha, confs, c)
            <==> NoCollision(sha, confs, c)
                 && forall i, j :: 0 <= i < j < |confs| && confs[i] == Some(c) ==> confs[j] == Some(c)
  {
    if NeverLeft(sha, confs, c) {
      forall i, j | 0 <= i < j < |confs| && confs[i] == Some(c) ensures confs[j] == Some(c) {
        assert SharesDigest(sha, confs[i], c);
      }
    }
  }

  /** A completed run of c, and no other configuration since. */
  lemma NothingBetween(launches: seq<Launch>, site: Site, i: nat, c: string)
    requires LogInv(launches, site.log) && CompletedRun(site, i, c)
    requires forall j :: i <= j < |launches| ==> launches[j].conf == Some(c)
    ensures LastAppliedIs(site, Some(c))
  {
    LastBeganIsLast(site.log, UpdateBegan(i, Some(c)));
    var p, q :| 0 <= p <= q < |site.log| && site.log[p] == UpdateBegan(i, Some(c))
                && site.log[q] == LastBegan(site.log).value;
    assert i <= site.log[q].run < |launches|;
  }

  /** A skipped start finds the digest of a configuration that was applied completely. */
  lemma SkippedCompleted(sha: string -> string, launches: seq<Launch>, launch: Launch) returns (i: nat, d: string)
    requires Digests(sha) && launch.conf.Some? && Skips(sha, After(sha, launches), launch)
    ensures i < |launches| && launches[i].conf == Some(d) && sha(d) == sha(launch.conf.value)
    ensures CompletedRun(After(sha, launches), i, d)
  {
    var site := After(sha, launches);
    HistoryInv(sha, launches);
    var k: nat, e :| sha(e) == sha(launch.conf.value) && CompletedRun(site, k, e);
    i, d := k, e;
    var p :| 0 <= p < |site.log| && site.log[p] == UpdateBegan(i, Some(d));
  }

  /** If no configuration in the history collides with it, exit 0 of the newest start implies that
      its configuration was applied completely in some run. */
  lemma ExitZeroCompleted(sha: string -> string, launches: seq<Launch>, launch: Launch) returns (i: nat)
    requires Digests(sha) && launch.conf.Some? && NoCollision(sha, Confs(launches), launch.conf.value)
    requires Start(sha, After(sha, launches), launch).exit == Zero
    ensures CompletedRun(Start(sha, After(sha, launches), launch).site, i, launch.conf.value)
  {
    var site := After(sha, launches);
    var after := Start(sha, site, launch).site;
    if Skips(sha, site, launch) {
      var d;
      i, d := SkippedCompleted(sha, launches, launch);
      assert Confs(launches)[i] == Some(d);
      CompletedKept(site, after, i, d);
    } else {
      i := site.runs;
      NewRunCompleted(site, launch, after);
    }
  }

  /** If moreover the configuration was never left, it is the one applied last. */
  lemma ExitZeroApplied(sha: string -> string, launches: seq<Launch>, launch: Launch)
    requires Digests(sha) && launch.conf.Some? && NeverLeft(sha, Confs(launches), launch.conf.value)
    requires Start(sha, After(sha, launches), launch).exit == Zero
    ensures LastAppliedIs(Start(sha, After(sha, launches), launch).site, launch.conf)
    ensures exists i: nat :: CompletedRun(Start(sha, After(sha, launches), launch).site, i, launch.conf.value)
  {
    var site, c := After(sha, launches), launch.conf.value;
    NeverLeftMeaning(sha, Confs(launches), c);
    var completed := ExitZeroCompleted(sha, launches, launch);
    if Skips(sha, site, launch) {
      var i, d := SkippedCompleted(sha, launches, launch);
      assert SharesDigest(sha, Confs(launches)[i], c);
      forall j | i <= j < |launches| ensures launches[j].conf == Some(c) {
        assert Confs(launches)[j] == Some(c);
      }
      HistoryInv(sha, launches);
      NothingBetween(launches, site, i, c);
    } else {
      LastBeganApplied(site.log, site.runs, launch.conf, launch.fate);
    }
  }

  // ---------- the premise is exact ----------

  const GOOD := Fate(Succeeds, Succeeds, Succeeds, Succeeds, None)

  /** Start i completes, a later start j fails in load-domains, all others fail in their first
      command. */
  function StagedFate(i: nat, j: nat, n: nat): Fate {
    if n == i then GOOD else if n == j then GOOD.(load := Fails) else GOOD.(mkdir := Fails)
  }

  function Staged(confs: seq<Option<string>>, i: nat, j: nat): seq<Launch> {
    seq(|confs|, n requires 0 <= n < |confs| => Launch(confs[n], true, StagedFate(i, j, n)))
  }

  lemma StagedStep(sha: string -> string, confs: seq<Option<string>>, i: nat, j: nat, n: nat)
    requires n < |confs|
    ensures After(sha, Staged(confs, i, j)[..n + 1])
            == Start(sha, After(sha, Staged(confs, i, j)[..n]), Launch(confs[n], true, StagedFate(i, j, n))).site
  {
    var launches := Staged(confs, i, j);
    assert launches[..n + 1][..n] == launches[..n];
    assert launches[..n + 1][n] == launches[n];
  }

  /** The site after n staged starts: nothing at first, then start i's record, and after start j
      its configuration as the one applied last. */
  lemma {:induction false} StagedSite(sha: string -> string, confs: seq<Option<string>>, i: nat, j: nat, n: nat,
                                      c: string)
    requires Digests(sha) && i <= j < |confs| && n <= |confs|
    requires SharesDigest(sha, confs[i], c) && (i < j ==> !SharesDigest(sha, confs[j], c))
    ensures var site := After(sha, Staged(confs, i, j)[..n]);
            && (n <= i ==> site.hashFile.None?)
            && (i < n ==> RecordMatches(site.hashFile, sha(c)))
            && (j < n ==> LastAppliedIs(site, confs[j]))
  {
    if n > 0 {
      StagedSite(sha, confs, i, j, n - 1, c);
      StagedStep(sha, confs, i, j, n - 1);
      var before := After(sha, Staged(confs, i, j)[..n - 1]);
      if n - 1 == i {
        WrittenRecord(sha, confs[i], None, c);
        LastBeganApplied(before.log, before.runs, confs[i], GOOD);
      } else if n - 1 == j {
        assert HashOf(sha, confs[j]) != sha(c);
        LastBeganApplied(before.log, before.runs, confs[j], GOOD.(load := Fails));
      }
    }
  }

  /** For every sequence of configurations in which the current one was left, some failures lead
      to exit 0 with another configuration applied last. */
  lemma LeftMisleads(sha: string -> string, confs: seq<Option<string>>, c: string) returns (launches: seq<Launch>)
    requires Digests(sha) && !NeverLeft(sha, confs, c)
    ensures Confs(launches) == confs
    ensures var last := Start(sha, After(sha, launches), Launch(Some(c), true, GOOD));
            last.exit == Zero && !LastAppliedIs(last.site, Some(c))
  {
    var i, j :| 0 <= i <= j < |confs| && SharesDigest(sha, confs[i], c) && confs[j] != Some(c);
    // A configuration that collides with the current one misleads by itself.
    var first := if SharesDigest(sha, confs[j], c) then j else i;
    launches := Staged(confs, first, j);
    StagedSite(sha, confs, first, j, |confs|, c);
    assert launches[..|confs|] == launches;
  }

  /** Exit 0 tells that the current configuration was applied last, whatever fails or is killed
      on the way. */
  ghost predicate ExitZeroTells(sha: string -> string, confs: seq<Option<string>>, c: string) {
    forall launches: seq<Launch>, launch: Launch ::
      Confs(launches) == confs && launch.conf == Some(c) && Start(sha, After(sha, launches), launch).exit == Zero ==>
        LastAppliedIs(Start(sha, After(sha, launches), launch).site, Some(c))
  }

  /** It does so exactly when the configuration was never left since one of its digest was first
      started. Nothing is assumed of the digests but their form. */
  lemma ExitZeroExact(sha: string -> string, confs: seq<Option<string>>, c: string)
    requires Digests(sha)
    ensures ExitZeroTells(sha, confs, c) <==> NeverLeft(sha, confs, c)
  {
    if NeverLeft(sha, confs, c) {
      forall launches: seq<Launch>, launch: Launch |
        Confs(launches) == confs && launch.conf == Some(c) && Start(sha, After(sha, launches), launch).exit == Zero
        ensures LastAppliedIs(Start(sha, After(sha, launches), launch).site, Some(c))
      {
        ExitZeroApplied(sha, launches, launch);
      }
    } else {
      var launches := LeftMisleads(sha, confs, c);
    }
  }

  /** Such digest functions exist, and for them both sides of the equivalence occur. */
  lemma ExitZeroBothWays(sha: string -> string, c: string, d: string)
    requires Digests(sha) && sha(c) != sha(d)
    ensures ExitZeroTells(sha, [Some(d), Some(c)], c)
    ensures !ExitZeroTells(sha, [Some(c), Some(d)], c)
  {
    ExitZeroExact(sha, [Some(d), Some(c)], c);
    ExitZeroExact(sha, [Some(c), Some(d)], c);
    var left := [Some(c), Some(d)];
    assert SharesDigest(sha, left[0], c) && left[1] != Some(c);
  }

  function FirstCharacter(s: string): string
    ensures |FirstCharacter(s)| == 64 && '\n' !in FirstCharacter(s)
  {
    seq(64, _ => if |s| == 0 || s[0] == '\n' then '0' else s[0])
  }

  lemma DigestsExist()
    ensures Digests(FirstCharacter) && FirstCharacter("a") != FirstCharacter("b")
  {
    assert FirstCharacter("a")[0] == 'a' && FirstCharacter("b")[0] == 'b';
  }

  /** And it can fail: A is applied, B is begun but not completed, A comes back. The third start
      exits 0 with B's update as the last one on the fabric. */
  lemma ReturnIsSkipped(sha: string -> string, a: string, b: string)
    requires Digests(sha) && sha(a) != sha(b)
    ensures var good := Fate(Succeeds, Succeeds, Succeeds, Succeeds, None);
            var bad := good.(load := Fails);
            var before := After(sha, [Launch(Some(a), true, good), Launch(Some(b), true, bad)]);
            var third := Start(sha, before, Launch(Some(a), true, good));
            third.exit == Zero && LastAppliedIs(third.site, Some(b)) && !LastAppliedIs(third.site, Some(a))
  {
    var good := Fate(Succeeds, Succeeds, Succeeds, Succeeds, None);
    var bad := good.(load := Fails);
    var first, second := Launch(Some(a), true, good), Launch(Some(b), true, bad);
    assert [first, second][..1] == [first] && [first][..0] == [];
    var one := Start(sha, Site(None, 0, []), first).site;
    assert After(sha, [first]) == one;
    WrittenRecord(sha, Some(a), None, a);
    WrittenRecord(sha, Some(a), None, b);
    var two := Start(sha, one, second).site;
    assert After(sha, [first, second]) == two;
    LastBeganApplied(one.log, 1, Some(b), bad);
  }
}
