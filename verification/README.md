# Deployment manager: a verified model

The deployment manager of a Nalej application cluster receives fragments of applications, deploys them stage by
stage on Kubernetes, watches the platform resources that result, and reports what becomes of them. This project
models its logic in Dafny and proves what it keeps.

The centre is the in-memory monitor. It holds fragments, their services and the platform resources of those, with
redundant parts: counters of pending checks, derived statuses, and flags that mark what is still to be reported.
`MonitorModel` says what each operation does to the monitor as a value. `MonitoredInstances` is the monitor as the
objects it is made of, each method proved against the function of the same name, in every order of iteration over
maps. `MonitorInvariants`, `Notifier` and `Interleaving` prove what runs of operations keep.

Around it:

- `Deployment`, `Retries`, `StagedSuccess`, `Undeployment` and `Manager`: requests, their stages, the retry loop and
  its waits.
  Outcomes of the executor, and everything other users of the monitor do between two steps, are given by a `World`
  that the theorems quantify over (`Environment` plays it on the real objects).
- `Events`, `WorkQueue` and `Transport`: how a change in the cluster reaches a handler. The work queue and the
  informers are taken by their documented behaviour: an event is queued once while it is dirty, an event that becomes
  dirty again while it is processed is queued when that is done, a delayed event is added when its delay is over, a
  change is in the store before it is announced, and each kind is announced in order.
- `Controller`, `Pipeline` and `Dispatcher`: what the handlers of the monitor make of the transport, up to the status
  of a resource.
- `MonitorHelper`: one round of the notifier over the real objects, with any replies.
- `ConfigFiles`, `Storage`, `Istio`: configuration files as volumes, storage as claims, public rules as ports.
- `Metrics`, `MetricNames`, `MetricsTranslator` and `Metering`: counters, their printed names and their parsing, and
  what they count at the end of the transport.
- `Entities` and `Totals`: statuses, their aggregation, and sums over maps.

A method that changes objects states its whole new state by a function; what is promised of that state is proved of
the function. `dafny verify dfyconfig.toml` checks everything.

Where the code and its comments or evident intent differ, the model follows the code; a lemma says exactly when the
two agree, and where the program can get there another gives an input at which they do not:

- the bound of -1 that is meant to retry for ever makes no attempt (`TriesOnlyWithPositiveBound`,
  `AlwaysRetryNeverDeploys`);
- the removal of a pending resource at the level of the monitor breaks the counter (`StepConserves`);
- a change of a resource moves the status of a fragment without flagging it (`FragmentStatusMovesUnannounced`,
  `SilentMoveIsReachable`);
- updates that fall between a snapshot and its reset are lost (`EveryResetTellsAllButSuspects`, `UpdateCanBeLost`);
- the status of an application is that of an arbitrary fragment (`UndeploymentIsDecided`, `EitherDecisionIsReachable`);
- the total of services counts later stages twice (`MergedCounters`, `TotalIsTooLarge`);
- a service takes over the claims of an earlier one of its identifier (`ClaimsOfStage`, `FirstServiceLosesItsClaim`),
  and all claims share one class (`SharedClassOnMinikube`, `SharedClassOnAzure`, `SharedClassIsWrong`);
- a directory may have no name, or the name of another (`VolumeNameDefined`, `RootHasNoName`, `FilesKeepTheirMeaning`,
  `CollidingDirectories`);
- objects deleted under one key replace each other whatever their kind (`PanicsOnForeignDeletion`, `PanicIsReachable`);
- events that coalesce are not counted (`QuietCountsLiveObjects`, `LiveObjectCanBeMissed`);
- rules are compared by their raw names with formatted ones (`RawNamesAreNotSkipped`, `DeployedServiceIsDecorated`),
  and routes are expected to have a match (`PanicsOnEmptyMatch`, `EmptyMatchPanics`).

## Model

| member | source | states |
|---|---|---|
| `Notifier.RunLosesNothing` | pkg/monitor/monitor_helper.go:101-162 | over every run of changes and delivered rounds, each monitored service is known to the conductor as it is, or flagged; a terminating entry has terminated its services or they are flagged |
| `Notifier.RoundTellsEverything` | pkg/monitor/monitor_helper.go:101-162 | after one delivered round the conductor knows the status every service had when it began, also of entries the round dropped as terminating |
| `Notifier.RoundTellsWhatIsDelivered` | pkg/monitor/monitor_helper.go:69-99 | flags are cleared although a request failed: a service is known after a round exactly if it was known before, or was flagged and its request was delivered |
| `Notifier.FragmentStatusMovesUnannounced` | internal/structures/monitor/memory_monitored_services.go:337-368 | a change of a resource moves the status of its fragment with nothing flagged exactly if the worst of the statuses with the new one is still the status of the service, and the fragment's status was not the one its services stand for |
| `Notifier.SilentMoveIsReachable` | internal/structures/monitor/memory_monitored_services.go:337-368 | an ordinary deployment gets there: reported as deploying, one of two resources comes up, the fragment is waiting, nothing is flagged, and the conductor keeps taking it for deploying |
| `Notifier.RunReportsFragments` | pkg/monitor/monitor_helper.go:69-99 | over every run of changes and delivered rounds the conductor knows the status of each fragment, or something of it is flagged, or it moved unannounced since it was last reported, or it has no services |
| `Notifier.RoundTellsFragments` | pkg/monitor/monitor_helper.go:69-162 | a round tells the status of exactly the fragments that have a service to report |
| `Notifier.FlagsHaveReasons` | internal/structures/monitor/memory_monitored_services.go:48-368 | nothing is flagged unless a service is new, or its status or that of its fragment changes |
| `Notifier.SetStatusFlags` | internal/structures/monitor/memory_monitored_services.go:73-99 | setting a status flags all services of the entry exactly if it is new; being terminated by it flags none |
| `Notifier.QuietRound` | pkg/monitor/monitor_helper.go:101-115 | a round with nothing to send only drops terminating entries |
| `Interleaving.EveryResetTellsAllButSuspects` | internal/structures/monitor/memory_monitored_services.go:436-450 | with snapshot, each send and reset as separate steps, after every reset of every run each service is known, or changed or came in strictly between a snapshot and the reset and was not sent since |
| `Interleaving.QuietRoundsTellEverything` | pkg/monitor/monitor_helper.go:103-161 | a run in which no status moves during a round leaves no exception |
| `Interleaving.QuietSnapshot` | pkg/monitor/monitor_helper.go:101-115 | a divided round has no batch exactly if nothing is flagged, and ends there |
| `Interleaving.SendTells` | pkg/monitor/monitor_helper.go:116-150 | sending a batch tells what the services of a monitored fragment say by now, and what those of a dropped one said last |
| `Interleaving.SuspectsAreReal` | pkg/monitor/monitor_helper.go:103-161 | a service becomes an exception only by being added, or given another status, during a round |
| `Interleaving.ActKeeps` | internal/structures/monitor/memory_monitored_services.go:374-450 | every step of the divided notifier and of its mutators keeps the invariant |
| `Interleaving.UpdateCanBeLost` | pkg/monitor/monitor_helper.go:103-161 | a run that reaches the exception: the update is neither known nor flagged, and the next round has nothing to send |
| `StagedSuccess.StagedSuccessIsCumulative` | pkg/handler/manager.go:180-232 | when a request succeeds and nothing undeploys or removes its fragment meanwhile, for each stage there is one tick at which every service of that stage and of all earlier ones is running |
| `StagedSuccess.LoopHolds` | pkg/handler/manager.go:340-381 | the retry loop keeps the fragment and its services monitored, and ends well only with all of them running |
| `StagedSuccess.MergedCounters` | pkg/handler/manager.go:412-426 | right after the stages are merged the pending checks count each service once; the total counts later services twice, and is right exactly if the first stage has every service and none is repeated |
| `StagedSuccess.TotalAmongOthers` | pkg/handler/manager.go:205-231 | whatever recounts, changes, new resources and snapshots come between the stages, the total is the number of services the monitor holds for the fragment and of those that later stages brought |
| `StagedSuccess.TotalIsTooLarge` | pkg/handler/manager.go:412-418 | two stages of one service each: two services, and a total of three |
| `Deployment.TotalCountsRepeated` | pkg/handler/manager.go:412-418 | the total over the stages counts a service as often as it is named |
| `Deployment.RequestIsSafe` | pkg/handler/manager.go:124-233 | stages begin in order, each after the success of the one before; at most one clean-up, and only as the last but one event; at most three deploys per stage; success exactly if every stage succeeds; otherwise the fragment ends up marked as failed |
| `Deployment.StagesFailure` | pkg/handler/manager.go:189-227 | a failing stage ends with the failure mark, right after a clean-up unless the stage could not be built |
| `Deployment.LoopTrace` | pkg/handler/manager.go:344-380 | the trace of the loop is any number of failed attempts that were undeployed, then a good wait, or a failed undeployment, or the bound |
| `Deployment.LoopDeploys` | pkg/handler/manager.go:344-380 | never more deploys than the bound |
| `Deployment.TriesOnlyWithPositiveBound` | pkg/handler/manager.go:331-344 | the loop attempts something exactly if the bound is positive; a bound of -1, documented as retrying for ever, is no attempt at all |
| `Deployment.AlwaysRetryNeverDeploys` | pkg/handler/manager.go:205-207 | a request with the policy to always retry never deploys and fails at its first stage |
| `Deployment.ReadyMeansRunning` | internal/structures/monitor/memory_monitored_services.go:145-169 | a wait that ends well ends at a tick at which every service of the fragment is running |
| `Deployment.WaitEnds` | internal/structures/monitor/memory_monitored_services.go:145-169 | a wait goes by the first check at which all services are running or the fragment is gone: it ends well exactly at the one, with that error exactly at the other, and with the time-out exactly if there is neither |
| `Deployment.TryMarks` | pkg/handler/manager.go:344-358 | a try marks the fragment as deploying, and as retrying once the deployment failed, before it waits |
| `Retries.RequestSucceeds` | pkg/handler/manager.go:124-233 | said without loop and bound: a request succeeds exactly if its preparation does and, for each stage in turn, one of the attempts it may make ends well after the others failed and were undeployed - the first under no or an unknown policy, one of three under limited retries, none if it is to be retried always |
| `Retries.PolicyDecidesTries` | pkg/handler/manager.go:200-214 | a built stage is deployed exactly once under no or an unknown policy; under limited retries at most three times, and exactly three if no wait ends well and every undeployment succeeds; never if it is to be retried always |
| `Retries.StageEnters` | pkg/handler/manager.go:388-431 | the services of a stage enter the monitor scheduled, flagged and without resources; those that are there, and the status of a known fragment, stay |
| `Retries.UnpreparedRequest` | pkg/handler/manager.go:124-172 | what a request does without a namespace or with a failed preparation, and when it undeploys what is left over |
| `Retries.FailedStageLeaves` | pkg/handler/manager.go:182-227 | the state a failing stage leaves behind |
| `Pipeline.QuietMeansSynced` | pkg/kubernetes/events/dispatcher.go:164-228 | convergence: in every run, when nothing is left to do, each stored object gives its status to its resource, unless an event of it was given up, or its fragment removed, since it last changed or was handled |
| `Pipeline.QuietMeansShown` | pkg/kubernetes/events/dispatcher.go:164-228 | so then a deployment's resource is running exactly if all its replicas, or else all its conditions, are available, in error exactly if a condition is a failure and not all replicas are there, else deploying; services are running but for load balancers without an address, and ingresses that have rules and full addresses |
| `Pipeline.ExcusesAreReal` | pkg/kubernetes/events/dispatcher.go:203-227 | an object is excused exactly by the sixth failure of an event of it, or by an operation that removes its fragment, and no longer once it is stored anew |
| `Pipeline.HandledWell` | pkg/kubernetes/events/dispatcher.go:230-285 | an event is handled well exactly if it has an object and the handler has nothing to do or the resource is monitored; without an object the monitor is left alone |
| `Pipeline.ActKeeps` | pkg/kubernetes/events/dispatcher.go:164-285 | every step of informers, queue, worker and other users of the monitor keeps the invariant behind convergence |
| `Pipeline.PanicsOnForeignDeletion` | pkg/kubernetes/events/dispatcher.go:258-273 | deleted objects are kept by key alone; handling an event panics exactly if its object is gone and the last object deleted under that key was of another kind |
| `Pipeline.PanicIsReachable` | pkg/kubernetes/events/dispatcher.go:190-201 | a run that ends in that panic |
| `WorkQueue.TriesAreRequeues` | pkg/kubernetes/events/dispatcher.go:203-227 | in every run the requeues of an event that the queue counts are the times it was handled since it was forgotten, at most five |
| `WorkQueue.AtMostSixInARow` | pkg/kubernetes/events/dispatcher.go:203-227 | in every run, a stretch in which an event is not forgotten before the end handles it at most six times, whatever else happens in between |
| `WorkQueue.GivenUpAtTheSixth` | pkg/kubernetes/events/dispatcher.go:203-227 | a handling that fails is the last one exactly if five failed before it; else the event is delayed |
| `WorkQueue.RoundIsProgress` | pkg/kubernetes/events/dispatcher.go:203-227 | each round of the worker, however it ends, makes a measure over queued and delayed events smaller |
| `WorkQueue.ElapseIsProgress` | pkg/kubernetes/events/dispatcher.go:217 | the end of a delay adds no work and leaves one delay less |
| `WorkQueue.OperationsKeepValid` | pkg/kubernetes/events/dispatcher.go:203-227 | every operation keeps the queue equal to the dirty events that are not processed, each once |
| `MonitorInvariants.StepConserves` | internal/structures/monitor/memory_monitored_services.go:172-319 | one operation keeps every pending counter equal to the number of resources that are not running, if and only if it is called in the way that KeepsCount says |
| `MonitorInvariants.ReachableConserved` | internal/entities/monitor.go:100-163 | in every state the program can reach the counter is that number, hence never negative |
| `MonitorInvariants.StatusAfterChange` | internal/structures/monitor/memory_monitored_services.go:296-349 | what the status and the counter of a service say about all its resources right after a change |
| `MonitorInvariants.ServiceAfterChange` | internal/structures/monitor/memory_monitored_services.go:296-349 | status by status: in error exactly if a resource is, else scheduled, waiting or deploying exactly if one is and none is graver; flagged exactly if that is new; the other resources stay and the endpoints are appended |
| `MonitorInvariants.RunningIffNothingPending` | internal/structures/monitor/memory_monitored_services.go:296-349 | right after a change with nothing terminating, running means no pending check |
| `MonitorInvariants.RunSettles` | internal/structures/monitor/memory_monitored_services.go:296-349 | over runs that never force a status onto services, a service with resources and no pending check is running |
| `MonitorInvariants.FragmentStatusAfterChange` | internal/structures/monitor/memory_monitored_services.go:351-368 | the recomputed status of a fragment is never terminating or retrying; an error exactly if a service has one, else waiting exactly if one is scheduled or waiting, else deploying exactly if one is; done exactly if all run or terminate |
| `MonitorInvariants.ForcedStatuses` | internal/structures/monitor/memory_monitored_services.go:101-127 | what each status of a fragment means for its services when it is forced, which are flagged by it, and who is spared |
| `MonitorInvariants.OthersStay` | internal/structures/monitor/memory_monitored_services.go:48-484 | no operation touches a fragment it is not about, and none changes the application or namespace of any |
| `MonitorInvariants.RemovalFulfils` | internal/structures/monitor/memory_monitored_services.go:198-233 | a removed resource is waited for no more; the entry has one check less exactly if it was the last of its service |
| `MonitorInvariants.RecountCounts` | internal/structures/monitor/memory_monitored_services.go:452-469 | a recount counts each service that is not running once |
| `MonitorInvariants.WaitedUntilRunning` | internal/entities/monitor.go:100-124 | a resource is waited for from when it is first added until it runs, and never again |
| `MonitorInvariants.RunWaitsForNone` | internal/structures/monitor/memory_monitored_services.go:296-319 | in every run of the program no running resource is waited for |
| `MonitorInvariants.MissingLevel` | internal/structures/monitor/memory_monitored_services.go:259-287 | the error names the outermost level that is missing |
| `MonitorInvariants.AddEntryIsUnion` | internal/structures/monitor/memory_monitored_services.go:48-61 | adding an entry is an idempotent union that favours what is there |
| `MonitorInvariants.AddEntryGrowth` | internal/entities/monitor.go:53-63 | the number of services grows by exactly the new ones, and so do the pending checks and the total of an entry that is known |
| `MonitorInvariants.RemoveEntryShrinks` | internal/structures/monitor/memory_monitored_services.go:471-484 | removal takes away exactly the services and resources of the entry |
| `MonitorInvariants.DropTerminatingShrinks` | internal/structures/monitor/memory_monitored_services.go:374-414 | a snapshot removes exactly the terminating entries with their services and resources |
| `Undeployment.NamespaceDecision` | pkg/handler/manager.go:313-326 | the namespace may go exactly if a fragment is terminating or none is left, and may stay exactly if one is still needed |
| `Undeployment.UndeploymentIsDecided` | internal/structures/monitor/memory_monitored_services.go:129-141 | undeploying a fragment decides about the namespace in one way only exactly if no other fragment of the application is still needed |
| `Undeployment.EitherDecisionIsReachable` | pkg/handler/manager.go:313-326 | an application of two fragments, one undeployed: the namespace the other still needs may go, and may stay |
| `ConfigFiles.FilesKeepTheirMeaning` | pkg/kubernetes/kubernetes_deployment.go:105-160 | for all files: every mounted path shows its own file and nothing else, if and only if the directories in use are cleaned to different names and files that share an identifier or a mount path agree |
| `ConfigFiles.DistinctFilesKeepTheirMeaning` | pkg/kubernetes/kubernetes_deployment.go:105-160 | so files with identifiers and mount paths of their own keep their meaning if and only if the directories in use are cleaned to different names |
| `ConfigFiles.CollidingDirectories` | pkg/kubernetes/kubernetes_deployment.go:86-103 | files in /a.b and /ab do not |
| `ConfigFiles.EachFileOnce` | pkg/kubernetes/kubernetes_deployment.go:127-155 | each file, also one that repeats another, is the item at one place of one volume, a place that no other file has |
| `ConfigFiles.EachItemIsAFile` | pkg/kubernetes/kubernetes_deployment.go:127-155 | and each item is that of the file which has its place |
| `ConfigFiles.VolumeNameDefined` | pkg/kubernetes/kubernetes_deployment.go:86-103 | a directory has no volume name (the code then indexes an empty string) exactly if only white space precedes its slash |
| `ConfigFiles.NameIsLabel` | pkg/kubernetes/kubernetes_deployment.go:86-103 | a volume name is the directory without everything but small letters, digits and hyphens, not with hyphens for slashes as the comment says |
| `ConfigFiles.PlainDirectoryKeepsName` | pkg/kubernetes/kubernetes_deployment.go:86-103 | a directory that is a label keeps its name |
| `ConfigFiles.RootHasNoName` | pkg/kubernetes/kubernetes_deployment.go:86-103 | a file in the root directory, and a path without a slash, get there |
| `ConfigFiles.PathIsDirAndBase` | pkg/kubernetes/kubernetes_configmaps.go:64-70 | a mount path is its directory and base name, in one way only |
| `ConfigFiles.GenerateAllVolumes` | pkg/kubernetes/kubernetes_deployment.go:105-160 | fails exactly on an undefined name; otherwise one volume with one mount per cleaned name, names distinct, each volume with its files in order, mounted at the directory of the first |
| `ConfigFiles.FindVolume` | pkg/kubernetes/kubernetes_deployment.go:151-156 | the inner loop finds the volume of that name |
| `ConfigFiles.GenerateConsolidateConfigMap` | pkg/kubernetes/kubernetes_configmaps.go:104-138 | no map without files; otherwise each identifier has the content of the last file that bears it |
| `Storage.PvcsMatchClaims` | pkg/kubernetes/kubernetes_storages.go:161-196 | of one service: each claim is named by the volume of its own index, and a volume lacks its claim exactly if its type or its class on the platform is not supported |
| `Storage.BuildVolumes` | pkg/kubernetes/kubernetes_deployment.go:257-299 | one volume and one mount per storage, in order, with different names; a claim named after the service and the index unless the storage is ephemeral |
| `Storage.NamesDiffer` | pkg/common/common.go:79-85 | names cut to their last 63 characters still differ for two indices of one service |
| `Storage.NameIsTheEnd` | pkg/common/common.go:79-85 | the name is the whole of identifiers, hyphen and index, or its last 63 characters |
| `Storage.DecimalIsRead` | pkg/kubernetes/kubernetes_storages.go:185-192 | the index in it is the number in decimal digits |
| `Storage.SupportedKinds` | pkg/kubernetes/kubernetes_storages.go:124-185 | which kinds of storage are supported on which platform |
| `Storage.SharedClass` | pkg/kubernetes/kubernetes_storages.go:116-119 | all claims point at one field: they have the classes of their own storages exactly if every class that was found is the one looked up last |
| `Storage.SharedClassOnMinikube` | pkg/kubernetes/kubernetes_storages.go:142-152 | on Minikube exactly if all local and replicated storages are of the kind of the last storage a class was looked up for |
| `Storage.SharedClassOnAzure` | pkg/kubernetes/kubernetes_storages.go:129-141 | on Azure exactly if each supported storage is managed like that last one, or is experimental like it under the same name |
| `Storage.ClassOfStage` | pkg/kubernetes/kubernetes_storages.go:124-158 | the class all claims of a stage end up with, by platform and kind of the last storage it was looked up for |
| `Storage.HyphensByLetter` | pkg/kubernetes/kubernetes_storages.go:260-264 | the name of an experimental class is its identifiers without their hyphens |
| `Storage.SharedClassIsWrong` | pkg/kubernetes/kubernetes_storages.go:142-152 | a local and a replicated storage on Minikube: the local one gets the replicated class |
| `Storage.AzureWithoutExperiments` | pkg/kubernetes/kubernetes_storages.go:129-141 | so on Azure without experimental storage they always do |
| `Storage.LastServiceIsBuilt` | pkg/kubernetes/kubernetes_storages.go:199-208 | the claims of a stage under an identifier are exactly those of the last service that bears it and has any supported storage |
| `Storage.ClaimsOfStage` | pkg/kubernetes/kubernetes_storages.go:161-208 | in a stage, the claim that a volume refers to is built if and only if some service that is the last of its identifier with any supported storage has that name at a supported storage |
| `Storage.DistinctServicesHaveTheirClaims` | pkg/kubernetes/kubernetes_storages.go:161-208 | so with different identifiers a volume has its claim, under its own service, exactly if its storage is supported |
| `Storage.FirstServiceLosesItsClaim` | pkg/kubernetes/kubernetes_storages.go:199-205 | two services of one identifier in two groups: the volume of the first is left without its claim |
| `Istio.DecorationReconciles` | pkg/decorators/network/istio/istio_decorator.go:113-231 | the ports and routes of every name are the old ones followed by exactly the missing ones that rules want, each once; an added port leads to itself, and an added route matches and leads to that port, without its sign, of that very service |
| `Istio.FormattedByLetter` | pkg/decorators/network/istio/istio_decorator.go:113-140 | a name is formatted letter by letter: spaces go, capital letters become small, everything else stays |
| `Istio.DecorationIsIdempotent` | pkg/decorators/network/istio/istio_decorator.go:113-231 | one run satisfies every rule for a service that is not deployed here, and a second run changes nothing |
| `Istio.PanicsOnEmptyMatch` | pkg/decorators/network/istio/istio_decorator.go:357-361 | a run panics exactly if a rule meets a virtual service that had a route without a match |
| `Istio.PanickedRun` | pkg/decorators/network/istio/istio_decorator.go:113-231 | such a run has carried out the rules before the one that panics, and of that one the port of its service |
| `Istio.EmptyMatchPanics` | pkg/decorators/network/istio/istio_decorator.go:357-361 | one route without a match and one rule get there |
| `Istio.RawNamesAreNotSkipped` | pkg/decorators/network/istio/istio_decorator.go:119-130 | the rules that are skipped are those with the formatted name of a deployed service; a rule that names a deployed service as it is called is skipped exactly if that name has no space and no capital letter |
| `Istio.DeployedServiceIsDecorated` | pkg/decorators/network/istio/istio_decorator.go:113-231 | otherwise the service that is deployed here gets the port of a remote one, and the route or the panic; if skipped, nothing happens |
| `MetricNames.RoundTrip` | pkg/metrics/prometheus/utils.go:35-106 | parsing the printed collectors in any order gives the metrics back, if and only if no type is empty or has an underscore |
| `MetricNames.ParsedFamilies` | pkg/metrics/prometheus/utils.go:35-80 | parsing fails exactly if some family cannot be read; else it finds the types that names begin with, and the last value of each counter |
| `Metrics.RunningIsConserved` | pkg/metrics/prometheus/prometheus.go:68-96 | in every run each counter counts its calls, and running is created plus existing less deleted |
| `Metering.RunningIsLiveLessOpen` | pkg/kubernetes/metrics_translator.go:91-131 | in every run of informers, queue, worker and collector together, at every moment: running is the number of stored objects that count, less the additions and plus the deletions that are on their way or lost |
| `Metering.QuietCountsLiveObjects` | pkg/kubernetes/metrics_translator.go:91-131 | when nothing is left to do running is right if and only if as many additions as deletions were coalesced away, given up or announced by a mere marker |
| `Metering.LiveObjectCanBeMissed` | pkg/kubernetes/events/dispatcher.go:164-227 | a run that ends quiet with one namespace in the store and none counted: it was deleted and created again before its first event was handled |
| `Metering.ActKeeps` | pkg/kubernetes/events/dispatcher.go:164-285 | every step keeps that balance |
| `MetricsTranslator.RunningCountsLiveObjects` | pkg/kubernetes/metrics_translator.go:91-131 | over every stream of events that handlers see, running is the number of live objects that count, and those added again, less those deleted without being there; so it is that number exactly if these two are as many |
| `MetricsTranslator.CountersCountEvents` | pkg/kubernetes/metrics_translator.go:233-246 | over every stream: created are the additions of objects younger than the program, deleted are the deletions, running is created and the additions of older ones less deleted, and nothing is an error |
| `MetricsTranslator.CountsAsSaid` | pkg/kubernetes/metrics_translator.go:91-131 | which objects count for which type |
| `Entities.Worst` | internal/structures/monitor/memory_monitored_services.go:323-336 | an error wins, else a part of least rank among those below running, else running; terminating parts never count |
| `Entities.Severity` | internal/structures/monitor/memory_monitored_services.go:323-336 | status by status: an error, else scheduled, waiting, deploying, exactly if some part is and none is graver; running exactly if all parts run or terminate |
| `Entities.ScanStep` | internal/structures/monitor/memory_monitored_services.go:323-336 | one step of the scan with early exit computes that aggregate, so the order of iteration is irrelevant |
| `Entities.TablesAgree` | internal/entities/entities.go:51-67 | the two tables are inverse except on scheduled services and retrying fragments |
| `Entities.TranslationIsTotal` | internal/entities/entities.go:81-113 | the translation of conditions has one outcome, and never the waiting one its last branch is written for |
| `Entities.KubernetesDeploymentStatusTranslation` | internal/entities/entities.go:81-113 | counts the conditions and meets the specification of the translation |
| `Controller.HandleSyncs` | pkg/kubernetes/kubernetes_controller.go:82-113 | a handler that is not called for a deletion succeeds exactly if the resource then has the status of the object |
| `Controller.SyncedMeansShown` | pkg/kubernetes/kubernetes_controller.go:82-239 | that status is, for deployments, services and ingresses, the one to be seen from replicas and conditions, addresses and rules |
| `Controller.HandlersReact` | pkg/kubernetes/kubernetes_controller.go:82-239 | what a handler does to a monitored resource, when it does nothing, and that it appends the endpoints exactly with a change |
| `Controller.HandlersFail` | pkg/kubernetes/kubernetes_controller.go:82-239 | a handler with anything to do fails exactly if the resource is not monitored |
| `Controller.HandleSparesOthers` | pkg/kubernetes/kubernetes_controller.go:82-239 | no handler touches another resource |
| `MonitoredInstances.MemoryMonitoredInstances.AddEntry` | internal/structures/monitor/memory_monitored_services.go:48-61 | the new state is that of the specification, whichever objects are shared |
| `MonitoredInstances.MemoryMonitoredInstances.GetEntry` | internal/structures/monitor/memory_monitored_services.go:63-71 | the object filed under the identifier, if any |
| `MonitoredInstances.MemoryMonitoredInstances.SetEntryStatus` | internal/structures/monitor/memory_monitored_services.go:73-99 | status and flag of one entry; services follow only into termination |
| `MonitoredInstances.MemoryMonitoredInstances.SetAppStatus` | internal/structures/monitor/memory_monitored_services.go:101-127 | the status is forced on every fragment of the application and on its services, flagging what changes |
| `MonitoredInstances.MemoryMonitoredInstances.GetAppStatus` | internal/structures/monitor/memory_monitored_services.go:129-141 | the status of some fragment of the application |
| `MonitoredInstances.MemoryMonitoredInstances.UpdateAppStatus` | internal/structures/monitor/memory_monitored_services.go:452-469 | the pending checks become a recount of services that are not running |
| `MonitoredInstances.MemoryMonitoredInstances.AddPendingResource` | internal/structures/monitor/memory_monitored_services.go:172-196 | succeeds exactly if the service is monitored; a known resource is left alone |
| `MonitoredInstances.MemoryMonitoredInstances.RemovePendingResource` | internal/structures/monitor/memory_monitored_services.go:198-233 | one check less, whatever the status; one less for the entry when none is left |
| `MonitoredInstances.MemoryMonitoredInstances.IsMonitoredResource` | internal/structures/monitor/memory_monitored_services.go:236-257 | true exactly if the resource is found from the fragment down |
| `MonitoredInstances.MemoryMonitoredInstances.SetResourceStatus` | internal/structures/monitor/memory_monitored_services.go:259-372 | fails exactly if the resource is missing and says at which level; otherwise the whole new state |
| `MonitoredInstances.MemoryMonitoredInstances.GetPendingNotifications` | internal/structures/monitor/memory_monitored_services.go:374-414 | reports exactly the fragments with something flagged, each once, and drops the terminating ones |
| `MonitoredInstances.MemoryMonitoredInstances.ResetServicesUnnotifiedStatus` | internal/structures/monitor/memory_monitored_services.go:436-450 | clears every flag and nothing else |
| `MonitoredInstances.MemoryMonitoredInstances.RemoveEntry` | internal/structures/monitor/memory_monitored_services.go:471-484 | removes the entry and says whether there was one |
| `MonitoredInstances.MemoryMonitoredInstances.GetNumFragments` | internal/structures/monitor/memory_monitored_services.go:486-488 | the number of entries |
| `MonitoredInstances.MemoryMonitoredInstances.GetNumApps` | internal/structures/monitor/memory_monitored_services.go:490-500 | the number of entries again |
| `MonitoredInstances.MemoryMonitoredInstances.GetNumServices` | internal/structures/monitor/memory_monitored_services.go:502-510 | the total over all entries |
| `MonitoredInstances.MemoryMonitoredInstances.GetNumResources` | internal/structures/monitor/memory_monitored_services.go:512-522 | the total over all services of all entries |
| `MonitoredInstances.MonitoredAppEntry.AppendServices` | internal/entities/monitor.go:53-63 | a union that favours the services already there, and the growth of both counters |
| `MonitoredInstances.MonitoredAppEntry.WorstServiceStatus` | internal/structures/monitor/memory_monitored_services.go:351-363 | the aggregate of the service statuses, in any order of iteration |
| `MonitoredInstances.MonitoredAppEntry.CountNotRunning` | internal/structures/monitor/memory_monitored_services.go:458-463 | the number of services that are not running |
| `MonitoredInstances.MonitoredServiceEntry.AddPendingResource` | internal/entities/monitor.go:100-109 | a new resource is pending and counted |
| `MonitoredInstances.MonitoredServiceEntry.RemovePendingResource` | internal/entities/monitor.go:112-124 | the resource is no longer pending, one check less |
| `MonitoredInstances.MonitoredServiceEntry.WorstResourceStatus` | internal/structures/monitor/memory_monitored_services.go:325-336 | the aggregate of the resource statuses, in any order of iteration |
| `MonitoredInstances.MonitoredServiceEntry.UpdateResource` | internal/structures/monitor/memory_monitored_services.go:296-349 | the whole new state of the service |
| `MonitorHelper.Helper.UpdateStatus` | pkg/monitor/monitor_helper.go:101-162 | one round does to the monitor and to what the conductor was told what the specification says, for all replies |
| `MonitorHelper.Helper.SendUpdateService` | pkg/monitor/monitor_helper.go:164-189 | the update counts if it is accepted, at once or after one new login |
| `MonitorHelper.Helper.SendFragmentStatus` | pkg/monitor/monitor_helper.go:69-99 | likewise for the status of a fragment |
| `MonitorHelper.ToldByReplies` | pkg/monitor/monitor_helper.go:164-189 | a flagged service is told exactly if the request is accepted, or refused for want of a login and accepted after it |
| `Manager.WaitPendingChecks` | internal/structures/monitor/memory_monitored_services.go:145-169 | ends as specified for every schedule of ticks |
| `Manager.DeploymentManager.DeploymentLoopStage` | pkg/handler/manager.go:340-381 | state, trace and result are those of the specified loop, for every world |
| `Manager.DeploymentManager.GetMonitoringData` | pkg/handler/manager.go:390-431 | a fresh entry with a fresh object per service identifier, and the number of services of all stages |
| `Manager.DeploymentManager.ProcessRequest` | pkg/handler/manager.go:124-233 | state, trace and result are those of the specified request, for every world |
| `Manager.DeploymentManager.Undeploy` | pkg/handler/manager.go:286-302 | every fragment of the application is terminating, even if the undeployment failed |
| `Manager.DeploymentManager.UndeployFragment` | pkg/handler/manager.go:304-329 | fails without effect on an unknown fragment; else it is terminating and the namespace may follow |
| `Controller.KubernetesController.OnDeployment` | pkg/kubernetes/kubernetes_controller.go:82-113 | does to the monitor, and returns, what the specification of handlers says |
| `Controller.KubernetesController.OnService` | pkg/kubernetes/kubernetes_controller.go:115-194 | likewise; a load balancer without an address is skipped |
| `Controller.KubernetesController.OnIngress` | pkg/kubernetes/kubernetes_controller.go:196-239 | likewise; only fully addressed ingresses with rules are running |
| `Dispatcher.EventDispatcher.OnChange` | pkg/kubernetes/events/dispatcher.go:164-188 | queues the event |
| `Dispatcher.EventDispatcher.OnDelete` | pkg/kubernetes/events/dispatcher.go:190-201 | keeps the object under its key and queues the event; a marker for a missed object is dropped |
| `Dispatcher.EventDispatcher.FetchObj` | pkg/kubernetes/events/dispatcher.go:252-285 | the current object, or else the one deleted under that key |
| `Transport.FetchForgets` | pkg/kubernetes/events/dispatcher.go:252-285 | a fetch forgets a deleted object exactly if it returns it and cleans up |
| `Dispatcher.EventDispatcher.WorkerRound` | pkg/kubernetes/events/dispatcher.go:204-227 | one round is take, fetch, handle and settle of the pipeline, or the panic |
| `Dispatcher.EventDispatcher.Drain` | pkg/kubernetes/events/dispatcher.go:203-228 | without new announcements the worker comes to an end, and then every stored object is synced or has its reason |
| `Storage.DeployableStorage.BuildStorageForServices` | pkg/kubernetes/kubernetes_storages.go:161-196 | the claims of one service and the class the shared field is left with |
| `Storage.DeployableStorage.Build` | pkg/kubernetes/kubernetes_storages.go:199-208 | adds the claims of the stage to those that are there, replacing by identifier, and leaves the shared field with the class looked up last |
| `Istio.IstioDecorator.UpdateServicePorts` | pkg/decorators/network/istio/istio_decorator.go:316-343 | adds the port if it is not there |
| `Istio.IstioDecorator.UpdateVirtualServicePorts` | pkg/decorators/network/istio/istio_decorator.go:352-390 | adds the route if no first match has its port; panics exactly on a route without a match |
| `Istio.IstioDecorator.DecorateServices` | pkg/decorators/network/istio/istio_decorator.go:113-231 | does to the cluster what the specification says, also when it panics |
| `MetricNames.ParseMetrics` | pkg/metrics/prometheus/utils.go:35-80 | the parsed metrics, or none if a name has no second part, a type is neither counter nor gauge, or a value is not an integer |
| `Metrics.MetricsProvider.Create` | pkg/metrics/prometheus/prometheus.go:68-74 | one more created and running, of this type only |
| `Metrics.MetricsProvider.Existing` | pkg/metrics/prometheus/prometheus.go:76-81 | one more running, of this type only |
| `Metrics.MetricsProvider.Delete` | pkg/metrics/prometheus/prometheus.go:83-89 | one more deleted, one less running, of this type only |
| `Metrics.MetricsProvider.Error` | pkg/metrics/prometheus/prometheus.go:91-96 | one more error, of this type only |
| `Metrics.MetricsProvider.GetSubsystem` | pkg/metrics/prometheus/prometheus.go:112-127 | the subsystem of the type, made of zeros if it is new |
| `MetricsTranslator.IsAppInstance` | pkg/kubernetes/metrics_translator.go:249-271 | true exactly for an organization's object that no filter applies to |
| `MetricsTranslator.Translator.Translate` | pkg/kubernetes/metrics_translator.go:233-246 | the call that the event stands for |
| `MetricsTranslator.Translator.OnEvent` | pkg/kubernetes/metrics_translator.go:91-131 | the calls for an object of each kind |

## Left out

- Information strings and descriptive identifiers of entries, services and resources: the former depend on the order of iteration, the latter are only copied.
- Platform resources as objects: a resource is a value inside its service; a caller that keeps a reference to a resource after handing it over is not modelled.
- Locks and data races: each operation of the monitor is one step, also the two that read without a lock; a snapshot for the notifier with the removals it defers is one step.
- Time: ticks and time-outs are choices of the world, bounded by the length of its lists; the pauses between retries are left out.
- Contents of requests to the conductor other than statuses; logging, configuration, command line, login, and all clients of remote services, which answer as the world, the replies or the cluster maps say.
- The endpoints a handler computes from addresses and ports, and environment variables: a ready object carries its endpoints.
- Failures of calls to the cluster in the Istio decorator, and its other decorations: calls succeed.
- Errors of the dispatcher for kinds without an indexer or a handler: only supported kinds are watched. Whether a deleted object leaves its store is left open, because the code gives that store a key where it expects an object.
- Stage-level deployment and undeployment of the single kinds of objects, and the expiry of logs after an undeployment: calls to the cluster in a row.
- The old object that updates are compared with, and errors counted from warning events: simple filters.
- Floating point in metrics, and panics of the metrics registry on invalid names: counters are integers.
- White space and case beyond ASCII in names and paths.
- The request queue, network policies, the proxy and the offline policy: thin wrappers over remote calls.
- Sizes of storage and all labels and object literals: no hard property.
- MonitoredInstances.MonitoredAppEntry.AppendServices: only for an entry of the same fragment, as its one caller ensures; services are then filed under their own fragment.
- Istio.IstioDecorator.DecorateServices: every call to the cluster succeeds, so nothing is said of what a failed call leaves behind.
- Metering.RunningIsLiveLessOpen: the type that objects of one name count for does not change; a service that becomes a load balancer, or a deployment whose labels change, would.
- Metering.QuietCountsLiveObjects: the queue and the stores start empty; objects from before the program are stored and announced like others.
- Entities.KubernetesDeploymentStatusTranslation: every condition type other than available and progressing is one constructor, as the code treats all of them as failures.
- StagedSuccess.StagedSuccessIsCumulative: says nothing about whether a retry makes progress, because resources of a failed attempt stay in the monitor.
- Pipeline.QuietMeansSynced: services and ingresses that stop being ready keep their running status, because their handlers then say nothing.
