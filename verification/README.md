# A model of the Cisco ACI AIM operator

The operator turns one `CiscoAciAim` resource into a ConfigMap, a CA secret and a StatefulSet
whose pods keep their logs on per-pod claims. This project models its three hard parts in Dafny
and proves what they are for.

**The reconcile protocol.** The operator, the user who edits the resource, the StatefulSet
controller, which creates claims from a possibly outdated template and reaps them by the stored
retention policy, the garbage collector, which finishes deletions late, and outside writers all
interleave. Every call of the operator may fail before or after it takes effect, lists and the Gets of
the objects it writes may lag behind (the manager's client reads from a cache), updates carry the
version that was read, and deletion carries none. `Kube.dfy` holds the objects,
`Templates.dfy` and `Builder.dfy` the decisions and the desired object, `Protocol.dfy` the
transition system and its basic invariant. These results are about whole runs:

- `ClaimSafety.dfy`: no operator step in any run shrinks, re-classes, relabels, creates or removes
  a claim, and without outside edits no claim is ever lost.
- `NoFalseRejection.dfy`: a user who never lowers the size and keeps the class is never told
  that the storage cannot be reduced or that its class cannot be changed.
- `Rejection.dfy`: while the resource stands, no reconcile that finds a StatefulSet gets past a stored
  claim that is too large or of another class, a stored template of another class, or an update the server
  refuses. A reconcile that finds no StatefulSet creates one without looking at claims.
- `Consistency.dfy`: the checksum annotation is never ahead of the ConfigMap, and whenever
  AimReady is about to be written, the ConfigMap, the CA secret and the StatefulSet fit together.
- `Convergence.dfy`: for a fixed resource that the stored objects can accept, every fair run
  (an infinite sequence of steps) reaches a state in which everything is as desired, then nothing
  changes any more, and AimReady is reported again and again; the measure is lexicographic.
- `Scenarios.dfy`: runs that show corner cases and that premises are needed.
- `Operator.dfy`: the operator's methods, written as methods over a mutable cluster. Each one is
  proved to perform a stretch of a run of the protocol, so the results above hold of it.

**Canonical configuration.** `SwitchConfigs.dfy`, `PhysDomains.dfy`, `Checksum.dfy` and
`RabbitSettings.dfy` hold the loops that turn maps, mapping lists and text into configuration.
Go enumerates maps in an arbitrary order, and so do the methods here (`:|` on the remaining
keys); each method is proved equal to a function of the map alone, and that function is proved
lossless, canonical, or exact.

**The once-per-configuration script.** `InitScript.dfy` is `templates/init.sh`, with failures,
kills and a torn write of the hash file possible at every command, over whole histories of
container starts. `Names.dfy` holds claim names, claim selection and the pod ordinal; `Text.dfy`
the string operations.

## What the proofs found

Each of these is code as it is, with the exact condition proved where there is one.

- The kuttl assertions expect `Parallel` pod management, and the CRD's default for an absent replica
  count is one; the code builds `OrderedReady` and falls back to two replicas
  (pkg/ciscoaciaim/statefulset.go:23 and line 44). The model follows the code.
- The API server fills in defaults that the freshly built object lacks, so the `DeepEqual` guard
  of the update branch is not quiet: every reconcile that reaches it sends an Update
  (`Builder.UpdateAlwaysSent`). It leaves the stored object unchanged
  (`Builder.UpdateLegalAndSufficient`), which is how "nothing changes any more" is stated.
- That Update also resets the revision history limit, which Kubernetes 1.29 does not let an
  update change. The server refuses it exactly for a StatefulSet to which somebody else gave another limit
  than ten (`Consistency.UpdateInvalidExact`), and while such a one stands and need not be recreated, no
  reconcile gets past it and AimReady is never reported (`Rejection.StaysLimitBlocked`).
- AimReady can be reported for a StatefulSet that is being deleted, when the resource was changed
  back while the deletion was under way (`Scenarios.ReadyForDoomedSet` is such a run;
  `Consistency.ReadyWhileDeleting` says exactly when a decision leads to AimReady).
- A Get of the ConfigMap that lags behind can make the operator report AimReady while the ConfigMap holds
  other files: without outside writes to it, it holds the generated files at that moment exactly if it held
  them when the reconcile asked, or the answer did not show them (`Consistency.ReadyHoldsFilesExact`);
  `Scenarios.ReadyWithOtherFiles` is a run without failures that ends so, after the files went back to an
  earlier version. Claim safety, the absence of false rejections, the annotation and convergence once Gets
  stop lagging do not need up-to-date Gets.
- A size lowered before any claim exists goes unnoticed, and the update keeps the larger template
  (`Rejection.LoweredSizeSurfacesLate`). From the first claim born from it on, no reconcile that finds a
  StatefulSet gets past the claims while the resource stands (`Rejection.LoweredSizeBlocks`), and each whose
  list is up to date and whose calls succeed ends in the error that the storage cannot be reduced, within
  one turn for each listed claim and one for the list (`Rejection.LoweredSizeRefused`). A list that does not show the claim yet lets a reconcile pass.
- Host names with a comma make different switch maps print alike; exactly the comma-free ones can be read
  back (`SwitchConfigs.ReadBack`).
- The checksum's preimage does not separate names from contents, so text can move across a file
  boundary (`Checksum.PreimageCollision`). A map of files can be told from every other one with its
  file names exactly when each name, in the order of the names, occurs in the content before it, itself
  and the content after it at its own place only (`Checksum.PreimageUniqueExact`).
- init.sh skips a configuration that returns after another one was begun and failed
  (`InitScript.ReturnIsSkipped`). Exit 0 tells that the current configuration was applied last, whatever
  fails, exactly when, since a configuration with its digest was first started, no other configuration was
  (`InitScript.ExitZeroExact`); nothing is assumed of the digests but their form. The `sha256sum | cut`
  pipeline hides a failing `sha256sum`: an unreadable file has the hash "".
- Claim-template equality is reflexive exactly for lists whose templates of one name agree but for the
  size (`Templates.ReflexiveExact`), and symmetric against a desired list exactly if its names are distinct
  or it is not such a list (`Templates.SymmetryExact`). The lists the operator builds have at most
  one entry.

## Model

| member | source | states |
|---|---|---|
| Names.DecimalDenotes | internal/controller/log_pvc_resize.go:37 | reading the numeral of an ordinal gives back the ordinal |
| Names.DecimalInjective | internal/controller/log_pvc_resize.go:37 | different ordinals have different numerals |
| Names.SelectionExact | internal/controller/log_pvc_resize.go:28-42 | a claim named for a pod of the instance is selected iff labelled for it; no claim labelled for another instance is; the legacy claim never is |
| Names.PrefixIsolation | internal/controller/log_pvc_resize.go:37-42 | the prefix alone accepts a claim of instance b for instance a iff b is a or b begins with a and a dash |
| Names.ClaimNameInjective | pkg/ciscoaciaim/pvc.go:26-29 | two pods never share a claim name |
| Names.LastSegment | pkg/ciscoaciaim/statefulset.go:94 | both ways of computing the ordinal return the text after the last dash |
| Names.OrdinalsAgree | templates/init.sh:7 | the rev/cut/rev pipeline and the shell expansion agree on every pod name |
| Names.PodOrdinal | templates/init.sh:7-11 | for pod n of any instance the ordinal read is the numeral of n, and the gate passes iff n is 0 |
| Text.LessMeaning | internal/controller/ciscoaciaim_controller.go:479-497 | the order of the sorted keys, ports and hosts: a proper prefix comes first, and otherwise the first differing character decides |
| SwitchConfigs.GroupByPort | internal/controller/ciscoaciaim_controller.go:483-490 | inverting host to port: the keys are the ports in use, and each key lists exactly its hosts, once each, in any enumeration order |
| SwitchConfigs.BuildHostLinks | internal/controller/ciscoaciaim_controller.go:481-500 | the port groups of one switch are the canonical ones whatever the enumeration order |
| SwitchConfigs.BuildSwitchConfigs | internal/controller/ciscoaciaim_controller.go:474-505 | the result is the rendering of the canonical groups: a function of the map alone |
| SwitchConfigs.GroupsPartition | internal/controller/ciscoaciaim_controller.go:483-500 | ports strictly increasing, hosts strictly increasing, every host in exactly one group, that of its port, no empty group |
| SwitchConfigs.CanonicalLossless | internal/controller/ciscoaciaim_controller.go:475-503 | switch ids are all keys, increasing, empty switches kept; flattening gives back exactly the (switch, host, port) triples |
| SwitchConfigs.ReadBack | internal/controller/ciscoaciaim_controller.go:491-502 | splitting the printed hosts and re-inverting rebuilds the map iff no host name has a comma |
| SwitchConfigs.RenderingInjective | internal/controller/ciscoaciaim_controller.go:474-505 | different comma-free maps print differently |
| SwitchConfigs.CommaCollision | internal/controller/ciscoaciaim_controller.go:491-502 | a witness: with a comma two different maps print alike |
| PhysDomains.SplitTwoExact | internal/controller/ciscoaciaim_controller.go:447-454 | splitting in two: text without a colon stays whole; otherwise the first part has no colon, and the two parts with a colon between are the text |
| PhysDomains.ParseMappings | internal/controller/ciscoaciaim_controller.go:445-451 | lookups in the parsed map, with the pdom_ default, resolve every network as the mapping list says |
| PhysDomains.PhysDomNames | internal/controller/ciscoaciaim_controller.go:445-465 | the loops list the first occurrences of the resolved names |
| PhysDomains.ResolveExact | internal/controller/ciscoaciaim_controller.go:445-460 | a domain is the result iff it is that of the last well-formed mapping for the network, or pdom_ and the network if there is none |
| PhysDomains.FirstOccurrencesSpec | internal/controller/ciscoaciaim_controller.go:452-465 | no repetition, the same elements, each at the place of its first appearance, in order |
| PhysDomains.FirstOccurrencesPrefixStable | internal/controller/ciscoaciaim_controller.go:453-465 | appending only extends the list |
| PhysDomains.DomainsSpec | internal/controller/ciscoaciaim_controller.go:445-465 | all of this together, from mapping strings and VLAN ranges to domains |
| Checksum.GenerateConfigMapChecksum | pkg/ciscoaciaim/configmap.go:35-49 | the hash of the canonical preimage, in any enumeration order |
| Checksum.PreimageUniqueExact | pkg/ciscoaciaim/configmap.go:43-47 | no other map with the same file names has the same preimage iff each name after the first occurs between its neighbours' contents in its own place only |
| Checksum.MovedBoundary | pkg/ciscoaciaim/configmap.go:43-47 | wherever a name occurs out of its place, moving that boundary gives another map with the same preimage |
| Checksum.PreimageDistinguishes | pkg/ciscoaciaim/configmap.go:43-47 | whatever the names and contents: same names and equal lengths but for one file make equal preimages equivalent to equal maps |
| Checksum.OneFileChangeShows | pkg/ciscoaciaim/configmap.go:43-47 | changing one file's content always changes the preimage |
| Checksum.PreimageCollision | pkg/ciscoaciaim/configmap.go:43-47 | a witness: two different maps with the same names and the same preimage |
| RabbitSettings.GetNeutronRabbitConfig | internal/controller/ciscoaciaim_controller.go:286-331 | the three settings of the scanned lines; all "false" without the secret or the key |
| RabbitSettings.LastValueSpec | internal/controller/ciscoaciaim_controller.go:309-318 | each setting is the value of the last line with its key, wherever it is, and "false" if there is none |
| RabbitSettings.SetsMeaning | internal/controller/ciscoaciaim_controller.go:312-317 | a line sets a key to a value iff, trimmed, it is the key text as spelled in the code, followed by the value |
| RabbitSettings.TrimExact | internal/controller/ciscoaciaim_controller.go:311 | trimming takes away only space at both ends, and all of it |
| RabbitSettings.OneKeyPerLine | internal/controller/ciscoaciaim_controller.go:312-317 | a line matches at most one of the three keys |
| RabbitSettings.BranchOrderIrrelevant | internal/controller/ciscoaciaim_controller.go:312-318 | the branches may be tried in any order |
| RabbitSettings.LinesStep | internal/controller/ciscoaciaim_controller.go:309-311 | the scanner delivers the first line, without a carriage return, then the lines of the rest, or nothing once a line does not fit |
| RabbitSettings.LastLine | internal/controller/ciscoaciaim_controller.go:309-310 | the last line counts without a newline, unless it is empty or too long |
| RabbitSettings.LinesConcat | internal/controller/ciscoaciaim_controller.go:309-310 | scanning text that ends in a newline and then more text gives the lines of both, unless a line was too long for the scanner |
| RabbitSettings.NoiseInvisible | internal/controller/ciscoaciaim_controller.go:309-319 | a line that matches no key can be inserted at any line boundary without effect |
| InitScript.Host.InitSh | templates/init.sh:7-36 | the script: nothing on other pods, on pod 0 exactly what Start says, under every failure and kill |
| InitScript.StartPod | templates/init.sh:7-11 | of the pods of an instance exactly ordinal 0 runs the commands |
| InitScript.InfraTolerated | templates/init.sh:29-31 | a failing infra create makes no difference at all |
| InitScript.ExitZeroIff | templates/init.sh:18-36 | a start exits 0 iff the directory can be made and either the state file it sees holds the current hash, or every command but infra create succeeds |
| InitScript.GoesThroughRecords | templates/init.sh:20-36 | with a failing infra create or without, a start that goes through exits 0, leaves the current hash, and applied the configuration unless it was skipped |
| InitScript.CommandsInOrder | templates/init.sh:26-36 | a start that is not skipped and loses a command stops there, exits non-zero and keeps the hash file as it was |
| InitScript.ForgottenWithoutVolume | templates/init.sh:13 | without the log volume nothing is skipped, and the hash file on the volume is not touched |
| InitScript.WrittenRecord | templates/init.sh:36 | a torn hash line is never read as the digest of another configuration |
| InitScript.HistoryInv | templates/init.sh:20-36 | after any history, events are in order of the starts and a recorded digest belongs to a completed run |
| InitScript.RecordedWasApplied | templates/init.sh:20-36 | a digest that can be read back is that of a configuration for which update and load-domains completed in one run |
| InitScript.ExitZeroRecorded | templates/init.sh:20-36 | exit 0 on pod 0 implies the state file holds the current hash |
| InitScript.ExitZeroApplied | templates/init.sh:20-36 | if the current configuration was never left since one with its digest was first started, exit 0 implies that it was applied last, and completely |
| InitScript.ExitZeroCompleted | templates/init.sh:20-36 | if no configuration in the history collides with the current one, exit 0 implies that it was applied completely in some run |
| InitScript.NeverLeftMeaning | templates/init.sh:20-24 | never left means: no collision in the history, and no other configuration after the current one was first started |
| InitScript.LeftMisleads | templates/init.sh:20-36 | for every sequence of configurations in which the current one was left, some failures lead to exit 0 with another one applied last |
| InitScript.ExitZeroExact | templates/init.sh:20-36 | exit 0 tells that the current configuration was applied last, over all failures, iff it was never left in the sequence of configurations; for every digest function |
| InitScript.ExitZeroBothWays | templates/init.sh:20-36 | of two configurations with different digests one order tells and the other does not |
| InitScript.ReturnIsSkipped | templates/init.sh:21-24 | a witness: A applied, B begun and failed, A again: exit 0 with B last |
| Templates.VolumeClaimTemplatesEqual | internal/controller/ciscoaciaim_controller.go:595-618 | the two loops decide TemplatesEqual |
| Templates.LastNamedIsLast | internal/controller/ciscoaciaim_controller.go:600-603 | of several templates of one name the last one is looked up |
| Templates.NamesMatch | internal/controller/ciscoaciaim_controller.go:600-615 | by counting, distinct desired names that are all found force a one-to-one match |
| Templates.EqualityMeaning | internal/controller/ciscoaciaim_controller.go:594-618 | for distinct desired names: equal iff both lists hold the same templates, sizes and order aside |
| Templates.EqualityIsEquivalence | internal/controller/ciscoaciaim_controller.go:595-618 | reflexive, symmetric and transitive on lists with distinct names |
| Templates.EqualitySymmetric | internal/controller/ciscoaciaim_controller.go:595-618 | symmetric as soon as the desired names are distinct |
| Templates.EqualityPermutes | internal/controller/ciscoaciaim_controller.go:600-615 | invariant under permuting either list |
| Templates.ReflexiveExact | internal/controller/ciscoaciaim_controller.go:600-615 | a list equals itself iff templates of one name agree but for the size |
| Templates.RepeatedNameAsymmetric | internal/controller/ciscoaciaim_controller.go:600-608 | for every list with a repeated name that equals itself there is one that passes in one direction only |
| Templates.SymmetryExact | internal/controller/ciscoaciaim_controller.go:595-618 | symmetry against a desired list holds iff its names are distinct or two templates of one name differ by more than the size |
| Templates.ClassChangeBlocksRecreation | internal/controller/ciscoaciaim_controller.go:620-638 | every reported class change is one that would otherwise lead to recreation |
| Templates.ClassChangeExact | internal/controller/ciscoaciaim_controller.go:620-645 | a class change from one class to another is reported iff both lists hold one template, of one name, with these classes, an absent one being called <default> |
| Builder.BuildStatefulSet | pkg/ciscoaciaim/statefulset.go:18-164 | building succeeds iff the size parses; every field of the object is what the spec asks for (replicas, or two if absent; image, probe, connection, checksum, ConfigMap name; log mount, template, class and Retain policy iff persistence is on) or a constant of the operator |
| Builder.DesiredInjective | pkg/ciscoaciaim/statefulset.go:18-164 | two built objects are equal iff names, checksums and specs are, two replicas standing for an absent count |
| Builder.UpdateLegalAndSufficient | internal/controller/ciscoaciaim_controller.go:545-571 | the update keeps the immutable fields iff the stored revision history limit is the server's default; the stored result agrees with the desired object but for sizes iff no recreation was asked for; a second update changes nothing |
| Builder.AgreeingShows | pkg/ciscoaciaim/statefulset.go:18-164 | a stored object that agrees with the built one but for sizes shows the spec, field by field |
| Builder.UpdateAlwaysSent | internal/controller/ciscoaciaim_controller.go:559-571 | an object that went through the server always differs from its update: an Update is sent whenever the branch is reached |
| Builder.OneTemplate | internal/controller/ciscoaciaim_controller.go:604-615 | single templates are equal iff they are the same but for the size |
| Builder.RecreationExact | internal/controller/ciscoaciaim_controller.go:581-638 | for two specs of one instance: recreation iff exactly one enables persistence; an error iff both do with different classes; nothing else leads to either |
| Protocol.PrepareExact | internal/controller/log_pvc_resize.go:64-94 | a claim is refused iff it is not of the named class or is larger, with the class error first; otherwise it is left alone iff it has the size, and resized iff it is smaller |
| Protocol.ResizeEffect | internal/controller/log_pvc_resize.go:39-58 | with a stale list and versions, a resize step changes nothing or expands a claim that is stored as listed, selected, of the class and smaller |
| Protocol.DecideEffect | internal/controller/ciscoaciaim_controller.go:545-575 | the last decision changes nothing, marks the stored set as deleted, or replaces exactly the set that was read |
| Protocol.StepInv | internal/controller/ciscoaciaim_controller.go:507-579 | every step by anyone keeps the version invariant: a copy in hand is stored as it is, or outdated |
| Protocol.RunInv | internal/controller/ciscoaciaim_controller.go:763-844 | so it holds along every run |
| ClaimSafety.OperatorStepSafe | internal/controller/log_pvc_resize.go:37-94 | one operator step, from any reachable state, only expands selected claims |
| ClaimSafety.RunSafe | internal/controller/log_pvc_resize.go:37-94 | so does every operator step of every run of arbitrary actions, with stale lists and lagging Gets |
| ClaimSafety.RetainsStep | pkg/ciscoaciaim/statefulset.go:78-83 | every StatefulSet the operator writes retains its claims |
| ClaimSafety.RunKeepsClaims | internal/controller/ciscoaciaim_controller.go:525-578 | without outside edits every claim of an earlier state is there later, in its class and at least as large, across toggles and recreation |
| NoFalseRejection.BornFits | pkg/ciscoaciaim/pvc.go:26-43 | a claim born late from an older template stays within the sizes asked for |
| NoFalseRejection.OperateBounded | internal/controller/log_pvc_resize.go:69-86 | the bound on template and claim sizes, and the classes, are kept by every operator step, and no step rejects |
| NoFalseRejection.RunBounded | internal/controller/log_pvc_resize.go:69-86 | so along every run in which the size never falls below the peak |
| NoFalseRejection.NeverRejected | internal/controller/log_pvc_resize.go:69-86 | from no per-pod claims, growing sizes and a fixed class: no shrink or class error is ever returned, even with stale lists and lagging Gets |
| Rejection.StaysBlocked | internal/controller/log_pvc_resize.go:37-61 | while the resource stands and lists are up to date, no reconcile of any run that finds a StatefulSet gets past a refused claim, whatever calls fail and Gets lag |
| Rejection.ReadyOnlyByCreate | internal/controller/ciscoaciaim_controller.go:527-530 | and the Create branch is then the only way to AimReady |
| Rejection.EndsInRefusal | internal/controller/log_pvc_resize.go:43-51 | and each one whose calls succeed ends in the refusal of a stored, selected claim within one turn for the list and one for each listed claim |
| Rejection.RefusalKind | internal/controller/log_pvc_resize.go:64-86 | a refusal is a shrink or class error, and a shrink error if all selected claims have the named class |
| Rejection.LoweredSizeSurfacesLate | internal/controller/ciscoaciaim_controller.go:594-618 | for every pair of specs with a lowered size: no error, no recreation, the larger template is kept, and a claim born from it is refused |
| Rejection.LoweredSizeBlocks | internal/controller/log_pvc_resize.go:74-81 | after that birth no reconcile of any run that finds a StatefulSet gets past its claims |
| Rejection.LoweredSizeRefused | internal/controller/log_pvc_resize.go:74-81 | and each with an up-to-date list and successful calls ends in a refusal within as many turns, a shrink error if no claim is of another class |
| Rejection.StaysTemplateBlocked | internal/controller/ciscoaciaim_controller.go:535-540 | with a stored template of another class no reconcile of any run gets past the class check |
| Rejection.StaysLimitBlocked | internal/controller/ciscoaciaim_controller.go:559-571 | with a stored set of another revision history limit that need not be recreated, no reconcile of any run gets past the update |
| Consistency.StepConsistent | internal/controller/ciscoaciaim_controller.go:803-833 | each phase's findings are upheld by every step, faults included |
| Consistency.AnnotationNeverAhead | internal/controller/ciscoaciaim_controller.go:803-823 | the checksum annotation is always that of data the ConfigMap holds or held, with lagging Gets and outside writes to the ConfigMap as well |
| Consistency.ReadyMeansConsistent | internal/controller/ciscoaciaim_controller.go:803-840 | with up-to-date Gets, when AimReady is due: ConfigMap is the generated files, the CA secret holds the root CA read under tls-ca-bundle.pem and nothing else, StatefulSet as desired with the checksum of the stored ConfigMap |
| Consistency.ReadyCaCurrent | internal/controller/ciscoaciaim_controller.go:333-375 | without rotation the CA secret then holds exactly the current root CA, under the key tls-ca-bundle.pem |
| Consistency.UpdateInvalidExact | internal/controller/ciscoaciaim_controller.go:559-571 | an update is refused for an immutable field iff the set is still the one read and has another revision history limit; accepted iff it is still the one read and has the default |
| Consistency.ReadyWhileDeleting | internal/controller/ciscoaciaim_controller.go:545-578 | a decision leads to AimReady iff no recreation is asked for and the update is accepted, whether the set is being deleted or not |
| Scenarios.ReadyForDoomedSet | internal/controller/ciscoaciaim_controller.go:545-578 | a run without failures, stale answers or outside writes that ends at AimReady for a set being deleted |
| Consistency.ReadyHoldsFilesExact | internal/controller/ciscoaciaim_controller.go:154-175 | with any lagging Gets, when AimReady is due the ConfigMap holds the generated files iff it held them at its Get or the answer did not show them |
| Scenarios.ReadyWithOtherFiles | internal/controller/ciscoaciaim_controller.go:154-175 | a run from Idle without failures or outside writes, with one lagging Get, that ends at AimReady with other files in the ConfigMap than the annotation tells |
| Convergence.StepProgress | internal/controller/ciscoaciaim_controller.go:525-578 | each step changes nothing visible or decreases (recreation phase, missing claims, number of claims, undersized claims, outdated data), claims reaped by the controller included |
| Convergence.SteadyStep | internal/controller/ciscoaciaim_controller.go:525-578 | acceptance, the plan and the invariants persist under every step |
| Convergence.OperatorAdvances | internal/controller/ciscoaciaim_controller.go:763-844 | a step that does not fail and changes nothing brings the reconcile nearer to Ready, with what it checked certified |
| Convergence.OperatorDrains | internal/controller/ciscoaciaim_controller.go:763-844 | from any phase, whatever fails, the reconcile comes to its end |
| Convergence.Settles | internal/controller/ciscoaciaim_controller.go:525-578 | every run stops changing anything visible |
| Convergence.ReachReady | internal/controller/ciscoaciaim_controller.go:763-844 | in a settled fair run whose calls succeed, the operator reaches Ready with every check passed |
| Convergence.Converges | internal/controller/ciscoaciaim_controller.go:525-578 | from any StatefulSet state and phase, with failures, stale lists and lagging Gets until some point: every fair run has everything in place from some point on, claim classes included, changes nothing after it, and reports AimReady again and again |
| Convergence.ConvergedShows | pkg/ciscoaciaim/statefulset.go:18-164 | what is in place then: a StatefulSet whose fields are those of the spec, with the checksum of the stored ConfigMap, and the root CA in the CA secret |
| Convergence.ReadyAgain | internal/controller/ciscoaciaim_controller.go:832-843 | a settled run reaches AimReady from every point, with every check passed |
| Convergence.TameStep | internal/controller/ciscoaciaim_controller.go:525-578 | acceptance and the plan persist under every step, with lagging Gets as well |
| Convergence.UnacceptableNeverConverges | internal/controller/log_pvc_resize.go:69-81 | with a selected claim that is larger or of another class it never does |
| Convergence.UnchangeableNeverConverges | internal/controller/ciscoaciaim_controller.go:559-571 | nor while a set stands that the server will not update |
| Operator.Cluster.GetSet | internal/controller/ciscoaciaim_controller.go:525-542 | one protocol step: found, absent or failed, answered from a cache that may lag, and the class check on what was found |
| Operator.Cluster.UpdateLogClaim | internal/controller/log_pvc_resize.go:56-58 | one protocol step: the versioned update of a claim |
| Operator.EnsureConfigMap | internal/controller/ciscoaciaim_controller.go:143-178 | a stretch of a run; in a calm cluster success means the ConfigMap holds the files, nothing else changed, and there is no write at all if it held them before |
| Operator.EnsureRabbitMQCaSecret | internal/controller/ciscoaciaim_controller.go:333-375 | a stretch of a run; in a calm cluster success means there is a root CA under ca.crt, and the CA secret is tls-ca-bundle.pem with that root CA; nothing else changed, and there is no write at all if it was so before |
| Operator.PrepareLogPVCResize | internal/controller/log_pvc_resize.go:64-94 | refuses iff a class is named and the claim has another, or the claim is larger, with the class error first; otherwise grows the claim object in place to exactly the desired size; refused and unchanged claims are left alone |
| Operator.ResizeOne | internal/controller/log_pvc_resize.go:39-59 | one round of the loop is one protocol step, and changes at most its claim |
| Operator.ResizeLoop | internal/controller/log_pvc_resize.go:38-61 | in a calm cluster exactly a prefix of the selected claims is brought to size, all of them on success |
| Operator.ResizeLogClaims | internal/controller/log_pvc_resize.go:28-61 | list and loop: in a calm cluster, also after an API failure, the claims of a prefix of the up-to-date list were brought to size |
| Operator.EnsureLogPVCStorage | internal/controller/log_pvc_resize.go:14-62 | without API failures it succeeds iff no selected claim is larger or of another class than the named one; success leaves all of them of the desired size; however it ends, a prefix was brought to size, the rest is untouched, and if anything changed there is strictly less to do |
| Operator.PassProgress | internal/controller/log_pvc_resize.go:37-61 | a pass undoes nothing, and if it changed anything strictly fewer claims are left |
| Operator.StatefulSetRequiresRecreation | internal/controller/ciscoaciaim_controller.go:581-592 | decides RequiresRecreation |
| Operator.ApplyStatefulSet | internal/controller/ciscoaciaim_controller.go:545-578 | delete and requeue, or update in place, as a stretch of a run; in a calm cluster the set is then being deleted, or stored as desired |
| Operator.BringUpToDate | internal/controller/ciscoaciaim_controller.go:541-578 | the pass over the claims, then the decision; in a calm cluster success means every selected claim is settled |
| Operator.EnsureStatefulSet | internal/controller/ciscoaciaim_controller.go:507-579 | a stretch of a run that ends at Idle for recreation, at Ready for the plan built, or at the error returned; in a calm cluster success means the set is stored as desired, a created one is exactly the object built with the defaults filled in, and, if it was found, every selected claim is settled |
| Operator.PrepareConfig | internal/controller/ciscoaciaim_controller.go:763-819 | render, checksum, ConfigMap, CA secret, in this order, as a stretch of a run |
| Operator.Deploy | internal/controller/ciscoaciaim_controller.go:821-844 | an error is returned iff the stretch of the run fails, with that failure; completion iff AimReady was due once; a requeue after one second iff neither |
| Operator.Reconcile | internal/controller/ciscoaciaim_controller.go:763-844 | a stretch of a run from Idle to Idle whose answer tells how it went: complete iff it passes Ready without a failure, requeue after one second iff it does neither, otherwise an error that it failed with; on completion in a calm cluster ConfigMap and CA secret are stored as wanted, the StatefulSet shows the spec field by field with the checksum of the stored ConfigMap and, if it was found, every selected claim is settled |
| Operator.ReconcileAgain | internal/controller/ciscoaciaim_controller.go:763-844 | however often Reconcile is called again, no earlier progress on claims is undone |

## Left out

- Checksum.PreimageUniqueExact: compares maps with the same file names, which is what the operator generates; maps with different names may have the same preimage as well.
- Consistency.ReadyMeansConsistent: assumes that Gets are up to date, which the cached client does not promise (ReadyHoldsFilesExact says what holds of the ConfigMap without that); says nothing of later moments, because AimReady is never reset; the StatefulSet may have finished a deletion at that moment, and then only the ConfigMap and the CA secret are asserted.
- Convergence.Converges: assumes that from some point on calls succeed and lists and Gets are up to date, that the resource and its rendering stay as they are, and that nobody but the operator and the controllers writes.
- NoFalseRejection.NeverRejected: assumes that outsiders leave the StatefulSet and the instance's own claims alone, and that the resource itself is read as it is.
- Operator.EnsureLogPVCStorage: the exact outcome is stated for a cluster in which nobody else acts; otherwise only that it is a stretch of a run.
- Operator.ResizeLoop: the listed claims are values that are copied into a claim object one by one; aliasing between list entries is not modelled.
- Gets of the resource and of the root CA are answered from the current state; those of the ConfigMap, the CA secret and the StatefulSet may lag.
- Database and message-bus lookups, Go templates, JSON and the file system: the files a reconcile would generate are one value of the store, absent while anything in their making fails; waiting ten seconds for the database and failing are not told apart.
- The resource not being found, and its deletion: it is always there.
- SHA-256: a function parameter; injectivity is assumed only where a lemma says so.
- resource.ParseQuantity: a size is malformed or an integer; formatting of quantities is lost.
- The server's validation of claim updates (volume expansion support, quotas): folded into calls that fail.
- Owner references and their conflicts, and the finalizers behind a delayed deletion.
- The pod body (volumes, mounts, affinity, security context, probe defaults): carried as opaque image, probe and connection fields.
- nil against empty label maps is distinguished in claim templates only, not in selectors.
- Status conditions other than the moment AimReady is written, log lines and error texts.
- Several replicas of the operator, watches, manager set-up and the secret map functions.
- Strings are sequences of characters: the scanner's line limit and string order are per character, not per byte of UTF-8.
- A failing read of the recorded hash file, and concurrent starts of pod 0.
- Generated code, CRDs, RBAC, bundle and build files.
