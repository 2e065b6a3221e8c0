# Titlis operator: verified model

A Dafny model of the reconciliation protocols of the Titlis operator, with proofs of what they guarantee.

**Queue monitoring** (`QueueCycle`, `QueueConfluence`, `QueueInTurn`, `QueueSafety`, `QueueRace`, `QueueRunner`,
`QueueOutcome`, over `MonitorStore`, `MonitorJob` and `MonitorManager`). One cycle is a concurrent step system: a
spawning loop, one worker per queue, a ten-slot semaphore, a WaitGroup, and a remote monitor store in which list,
create and update are separate atomic steps that may fail. Which of a worker's remote calls fail is fixed in advance
and arbitrary, so every statement covers every pattern of failures. Schedules are sequences of actors; results are
about every schedule. `PubSub` (with `PubSubProperties`, `PubSubFlags` and `Orders`) is the collection that feeds a
cycle, and discharges the one thing the cycle needs of its snapshots: distinct external ids.

**SLO reconciler** (`Slo`, `SloProperties`, `SloController`). The fast path, the orphan path and the create path over a
remote store of tagged SLOs, and runs of reconciles interleaved with edits, deletions and SLOs removed by hand.

**Discovery graph** (`KubernetesGraph`, `KubernetesEdges`, `KubernetesProvider`, `Paging`, `DatadogProvider`,
`DatadogProperties`, `Registry`, `Correlator`, `TopologySweep`). The builders, the name-to-UID indexes, the edge loops,
paging, the merge and the cross-provider links.

**Smaller pieces** (`NamespaceBuffer`, `QueueLink`, `ClusterIdentity`, `JsonPath`).

The modules named `...Contract` (`QueueContract`, `PubSubContract`, `SloContract`, `KubernetesContract`,
`DatadogContract`, `TopologyContract`, `QueueLinkContract`) say what each of these operations leaves behind in terms of
what it was given alone: the replies of a cycle, the series of an answer, the resource, the listed objects. Metrics,
tags, prefixes, defaults and limits are written out there, and the text functions they use have lemmas of their own.

Where the source updates things step by step there is a class or a method with loops, proved equal to a function; the
theorems are about that function. Remote services are values: a reply, a fault or a store passed in. Go's iteration over
a map is a choice of any remaining key. Strings are sequences of characters, thresholds of SLOs are reals.

Some properties do not hold in general, and then the exact condition is proved instead: a failed monitor list or a
failed path-B lookup can create duplicates (`UniqueNamesIff`, `CycleKeepsNamesUniqueIff`, `DuplicateIff`), and a
failed list can make an evaluation deny a monitor that exists (`EvaluationTellsTheTruth`); a foreign uid tag in a spec
defeats the identity of SLOs (`InvariantKeptIff`, with the two ways it happens in `ImpersonationDuplicates` and
`ForeignTagLosesTheSLO`); a warning of zero is rewritten forever, and after a path B that failed the next reconcile
rewrites the older SLO (`QuiescentIff`, `OverlookedIsRewritten`); an id that is the full path of another makes two
workers race (`ShadowedIDsRace`); a missing label reads as the empty string (`SubsetIsInclusionIff`); the page limit
truncates without a trace (`TruncationIsSilent`); deduplication keys can collide (`CorrelateCompleteIff`); external
ids and labels can depend on map order (`IdentityDependsOnOrderIff`, `LabelsDependOnOrderIff`), and so can dead-letter
flags (`FlagDependsOnOrderIff`). The comment above the cluster resolver promises that a label change never renames a
cluster. A start that cannot read the ConfigMap goes by the labels all the same (`UnreadableSealIsIgnored`), and may
seal their name over the old one (`SealKeptIff`); the promise is met exactly by the runs of `SealedNameForeverIff`.

## Model

| member | source | states |
|---|---|---|
| `QueueCycle.BoundedConcurrency` | src/internal/controller/queue_runner.go:110-126 | in every reachable state of a cycle: at most ten slots held, exactly by the workers inside processing; the WaitGroup counter is the number of spawned, unfinished workers; Wait passes only with every worker done and no slot held; somebody can step until then; no schedule is longer than ten steps a queue and one |
| `QueueCycle.Progress` | src/internal/controller/queue_runner.go:110-126 | until the cycle has returned, the spawning loop, Wait or some worker is enabled: no deadlock on the semaphore or the WaitGroup |
| `QueueCycle.StepCounted` | src/internal/controller/queue_runner.go:110-126 | every step keeps the two counts and brings the cycle strictly closer to its end |
| `QueueConfluence.StepConserves` | src/internal/controller/queue_runner.go:113-182 | no step of any goroutine changes what a given queue has got so far together with what it is still owed |
| `QueueConfluence.EveryScheduleEndsTheSame` | src/internal/controller/queue_runner.go:113-182 | whatever the interleaving, a queue ends with the monitors and the calls its lifecycle prescribes: one Evaluate with zero thresholds while LEARNING, one with its own while MONITORING, Promote exactly at the cycle count, nothing otherwise |
| `QueueInTurn.SameCallsAsSequential` | src/internal/controller/queue_runner.go:113-182 | every complete interleaving makes the same multiset of Evaluate and Promote calls as handling the snapshots one after the other, each on the store that the last one left, and leaves every subscription the same monitors |
| `QueueInTurn.HandleAllOutcome` | src/internal/controller/queue_runner.go:113-182 | handled one after the other, each subscription gets the monitors and the calls it would have got had it been the first |
| `QueueConfluence.OthersUntouched` | src/internal/observability/datadog/queue_monitors.go:45-143 | monitors found by a lookup that belongs to none of the queues are the same after any part of any schedule |
| `QueueSafety.ExecSafe` | src/internal/observability/datadog/queue_monitors.go:51-141 | when the lists for a lookup succeed, whatever the others do, its names stay unique in every state an interleaving can reach, not only at its end |
| `QueueSafety.NamesStayUnique` | src/internal/observability/datadog/queue_monitors.go:51-141 | the same over any number of cycles, interrupted anywhere, with monitors removed by hand in between |
| `QueueRunner.NeverTwoMonitorsOfOneName` | src/internal/controller/queue_runner.go:63-127 | for every history of cycles over snapshots with distinct external ids, a tenant and subscription whose own lists succeed never gets two monitors of one name, whatever becomes of the lists of the others |
| `QueueRunner.FailedListDuplicates` | src/internal/observability/datadog/queue_monitors.go:51-60 | a failed list is not harmless: whatever there was before, each such call whose creates succeed adds every monitor once more, so after two of them names are not unique |
| `QueueRunner.PlannedCoherent` | src/internal/controller/queue_runner.go:103-126 | distinct external ids are all the concurrency needs: no worker's monitors answer another worker's lookup |
| `QueueRace.SharedLookupRaces` | src/internal/controller/queue_runner.go:110-126 | and they are needed: two workers that share a lookup and are both to create the same monitor can each list before the other creates it, and then it is there twice |
| `QueueRunner.CycleOutcome` | src/internal/controller/queue_runner.go:63-127 | a complete cycle under any schedule makes the calls of handling the snapshots one after the other and leaves the same monitors, which for each subscription are those it would have got alone |
| `QueueRunner.HistoryKeepsHealthy` | src/internal/observability/datadog/queue_monitors.go:45-141 | through any history of cycles interrupted anywhere and monitors removed by hand, ids stay unique and no monitor comes to belong to two subscriptions of any tenants |
| `QueueRunner.EveryCycleOfAHistory` | src/internal/controller/queue_runner.go:63-127 | at every point of such a history, the next complete cycle makes the calls of handling the snapshots one after the other and leaves each subscription the monitors it would have got alone |
| `QueueRunner.Runner.RunPlan` | src/internal/controller/queue_runner.go:110-126 | the spawn loop and its workers, run by any scheduler, terminate in the final state of a legal schedule |
| `QueueRunner.Runner.Run` | src/internal/controller/queue_runner.go:63-127 | a skipped cycle changes nothing; any other always terminates, in the final state of a complete schedule of its plan |
| `QueueRunner.CycleSkippedIff` | src/internal/controller/queue_runner.go:66-108 | a cycle is skipped exactly when the config, the credentials, the snapshots or the lifecycles are missing, switched off or empty; a label registry that cannot be read does not skip it |
| `QueueContract.CallsOfAQueue` | src/internal/controller/queue_runner.go:76-182 | over what the services answered, for every complete schedule: while a queue learns, one evaluation without thresholds, and its promotion when that is due; once monitored, one evaluation with its own thresholds; otherwise nothing |
| `QueueContract.PromotedIff` | src/internal/controller/queue_runner.go:76-161 | a queue is promoted exactly when it is learning and has been observed as often as the configuration says, or, when that is not positive, as often as the runner does by default |
| `QueueContract.UntouchedUnlessEnsured` | src/internal/controller/queue_runner.go:163-177 | however far a cycle gets, no monitor is touched unless some queue is monitored, has thresholds, and the configuration enables monitor creation |
| `QueueContract.MonitorsOfAQueue` | src/internal/controller/queue_runner.go:163-180 | after a complete cycle over distinct ids, each queue has the monitors it had before, or, when its own are to be ensured, those that one call with the thresholds of its own lifecycle leaves |
| `QueueContract.BacklogOfAQueue` | src/internal/controller/queue_runner.go:163-180 | so its backlog monitors watch its own subscription's undelivered messages, with the thresholds of its own lifecycle |
| `QueueContract.AgeOfAQueue` | src/internal/controller/queue_runner.go:163-180 | its age monitors the age of the oldest message, in the same way |
| `QueueContract.DLQOfAQueue` | src/internal/controller/queue_runner.go:163-180 | its dead-letter monitors are kept, or created with 0 and 10, when it is a dead-letter queue, and untouched when it is not |
| `QueueOutcome.EvaluationTellsTheTruth` | src/internal/controller/queue_runner.go:163-180 | a monitored queue is evaluated exactly once, with its own thresholds, whatever monitors it had; the evaluation reports each standard monitor exactly when the store has it at the end of the cycle, if and only if the list succeeded or every existing monitor was created again |
| `QueueOutcome.CycleKeepsNamesUniqueIff` | src/internal/controller/queue_runner.go:113-180 | a queue without duplicates has none at the end of a complete cycle, under any schedule, exactly when its list succeeded or no create repeated a monitor that exists |
| `QueueOutcome.BacklogAfterEnsure` | src/internal/observability/datadog/queue_monitors.go:77-97 | which backlog monitors there are after a call, one by one, for every store and every pattern of failures: the last existing one gets the queue's thresholds if the warning is positive and the update succeeds, a missing one is created if that succeeds, nothing else changes; a created one alerts when the average number of undelivered messages of this subscription over five minutes exceeds the queue's critical threshold, written in decimal |
| `QueueOutcome.AgeAfterEnsure` | src/internal/observability/datadog/queue_monitors.go:99-119 | the same for the age monitors: a created one alerts on the average age of the oldest message against the queue's critical age |
| `QueueOutcome.DLQAfterEnsure` | src/internal/observability/datadog/queue_monitors.go:121-141 | existing dead-letter monitors are left as they are, a missing one is created with warning 0 and critical 10 on the sum of undelivered messages, and for any other queue nothing changes |
| `QueueOutcome.CreatedTags` | src/internal/observability/datadog/queue_monitors.go:63-73 | the tags of a created monitor are the five that identify it and those of `env`, `team` and `service` whose value is not empty and allowed by the registry |
| `Text.DecimalDenotes` | src/internal/observability/datadog/queue_monitors.go:158-158 | the numbers in a query, a tag and an external id are decimal: a sign when negative, then digits without leading zeros that denote the number |
| `MonitorJob.SlotStepOwn` | src/internal/observability/datadog/queue_monitors.go:79-97 | one update-or-create acts on the owner's listing alone and keeps the remembered ids accurate |
| `MonitorJob.SlotStepForeign` | src/internal/observability/datadog/queue_monitors.go:79-97 | and leaves every other subscription's listing exactly as it was |
| `MonitorJob.EnsuredView` | src/internal/observability/datadog/queue_monitors.go:51-143 | the call on the shared store, with ids and lookups, is a function on the subscription's own listing |
| `MonitorJob.SettleExact` | src/internal/observability/datadog/queue_monitors.go:75-141 | whatever the listing, also one that has a name twice: every listed monitor stays in its place, the last of each found name with the thresholds of its slot where these are refreshed, the others as they are, and the missing ones are appended |
| `MonitorJob.FlagsTellTheTruth` | src/internal/observability/datadog/queue_monitors.go:75-143 | whatever was there before and whatever fails: a status flag is set exactly when that monitor exists afterwards, except where the list and its create failed although it exists; the names afterwards are those before and those created |
| `MonitorJob.SlotOutcome` | src/internal/observability/datadog/queue_monitors.go:79-97 | the monitors of a standard name after a call: none is lost, only thresholds of the last can change, a missing one is appended, a failed request changes nothing |
| `MonitorJob.OtherNamesKept` | src/internal/observability/datadog/queue_monitors.go:75-141 | the monitors of any other name are the same ones in the same order |
| `MonitorJob.SecondCallCreatesNothing` | src/internal/observability/datadog/queue_monitors.go:58-141 | after a call that reported every monitor, a second one creates nothing exactly when its list succeeds or all its creates fail; with the list, whatever fails after it, it reports every monitor again and changes thresholds only |
| `MonitorJob.UniqueNamesIff` | src/internal/observability/datadog/queue_monitors.go:51-141 | names stay unique exactly when the list succeeds or nothing that exists is created again |
| `MonitorManager.LookupIffOwner` | src/internal/observability/datadog/queue_monitors.go:45-73 | the lookup tags of a tenant and subscription are carried by the monitors created for them, and by no others |
| `MonitorManager.NoDLQMonitorForOthers` | src/internal/observability/datadog/queue_monitors.go:121-141 | for a queue that is not a dead-letter queue, no listing of any store gains or loses a dead-letter monitor, whichever requests fail |
| `MonitorManager.BuildRegistryTags` | src/internal/observability/datadog/queue_monitors.go:197-213 | the nested loops give one tag for each required key whose value the registry allows |
| `MonitorManager.IndexByName` | src/internal/observability/datadog/queue_monitors.go:58-61 | the loop remembers the id of the last listed monitor of each name |
| `MonitorManager.MonitorsAPI.CreateMonitor` | src/internal/observability/datadog/queue_monitors.go:146-176 | a create that succeeds keeps every monitor and appends one, of the given content, under an id that no monitor has; one that fails changes nothing |
| `MonitorManager.MonitorsAPI.UpdateMonitor` | src/internal/observability/datadog/queue_monitors.go:178-195 | an update that succeeds gives new thresholds to the monitor of that id and leaves everything else of it, and every other monitor, as it was; one that fails changes nothing |
| `MonitorManager.EnsureMonitors` | src/internal/observability/datadog/queue_monitors.go:23-144 | the method on the remote store refines the specification the lemmas are about, store and status |
| `PubSub.ExtractTagValue` | src/internal/observability/datadog/pubsub.go:148-156 | the value of the first tag of the key |
| `PubSub.ExtractScopeValue` | src/internal/observability/datadog/pubsub.go:158-169 | the same over the parts of a scope, without the white space around them |
| `PubSub.ParseTagSet` | src/internal/observability/datadog/pubsub.go:171-180 | the last tag of each key that has one, cut at its first colon |
| `PubSub.ReadAnswer` | src/internal/observability/datadog/pubsub.go:50-73 | one answer: the last value of each subscription, and the tags of its first series unless it has some already |
| `PubSub.QueryAll` | src/internal/observability/datadog/pubsub.go:43-75 | the five answers, visited in any order, a failed one giving nothing |
| `PubSub.CollectAll` | src/internal/observability/datadog/pubsub.go:39-136 | the loops give a collection: one snapshot for each subscription with a value, for some visiting orders of the answers and the ids |
| `PubSubContract.CollectedExact` | src/internal/observability/datadog/pubsub.go:39-117 | in any collection the snapshots are those of the subscriptions with a value in some answer, one each: pull and ack rate, backlog, age and dead letters are each read from the answer to its own query, the last three cut to whole numbers, and provider, ids, names and flags are given by the id and its tags |
| `PubSubContract.ValueExact` | src/internal/observability/datadog/pubsub.go:50-74 | the value read from an answer is that of the last series with one for this subscription, and zero when there is none or the query failed |
| `PubSubContract.SubscriptionExact` | src/internal/observability/datadog/pubsub.go:52-58 | a series belongs to the subscription of its tag, or, when that is missing or empty, of its scope, without the white space around each part |
| `PubSubContract.TagValueExact` | src/internal/observability/datadog/pubsub.go:148-156 | what follows the key in the first tag that starts with it |
| `PubSubContract.TrimExact` | src/internal/observability/datadog/pubsub.go:163-163 | trimming takes all white space off both ends and nothing else |
| `PubSubContract.SpacesExact` | src/internal/observability/datadog/pubsub.go:163-163 | white space is the twenty-five characters of Unicode that have this property |
| `PubSubContract.TagsReadExact` | src/internal/observability/datadog/pubsub.go:171-180 | a key is read as the last tag `key:value` says, where the key is not empty and has no colon |
| `PubSubContract.FirstSeriesTags` | src/internal/observability/datadog/pubsub.go:60-64 | the tags of a subscription in an answer are those of its first series |
| `PubSubContract.SubNameExact` | src/internal/observability/datadog/pubsub.go:140-146 | the short name is what follows the last slash |
| `PubSubContract.LowerExact` | src/internal/observability/datadog/pubsub.go:100-100 | lower-casing changes the letters A to Z and nothing else |
| `PubSubProperties.ExternalIDsDistinctIff` | src/internal/observability/datadog/pubsub.go:88-97 | with slash-free project ids, the external ids are pairwise distinct exactly when no collected id is already the full path of another |
| `PubSubProperties.CollectionFeedsTheCycle` | src/internal/observability/datadog/pubsub.go:88-97 | ids without the `projects/` path therefore meet what the concurrent cycle needs of its snapshots |
| `PubSubProperties.ShadowedIDsRace` | src/internal/observability/datadog/pubsub.go:88-97 | a collection with such an id feeds a cycle in which some schedule gives that subscription two monitors of one name, even when every list succeeds |
| `PubSubProperties.FlagExact` | src/internal/observability/datadog/pubsub.go:119-132 | a subscription is flagged exactly when it is not a dead-letter queue and a dead-letter subscription shares its project and topic |
| `PubSubProperties.NumbersIgnoreOrder` | src/internal/observability/datadog/pubsub.go:80-117 | two collections of the same answers cover the same subscriptions with the same numbers, whatever the order of the two map iterations |
| `PubSubProperties.LabelsDependOnOrderIff` | src/internal/observability/datadog/pubsub.go:43-64 | the labels of a subscription depend on the visiting order exactly when two answers tag it differently |
| `PubSubProperties.IdentityDependsOnOrderIff` | src/internal/observability/datadog/pubsub.go:43-97 | external ids do not depend on the visiting order, except exactly for an id that is not a full path and that two answers place in different projects |
| `PubSubProperties.NamesIgnoreOrder` | src/internal/observability/datadog/pubsub.go:88-100 | display name, and with it whether the queue is a dead-letter queue, never depend on the visiting order |
| `PubSubFlags.FlagCanBeSetIff` | src/internal/observability/datadog/pubsub.go:43-132 | some visiting order flags a subscription exactly when two answers place it and a dead-letter subscription on one project and topic and neither of these answers has to come before the other for both to count |
| `PubSubFlags.FlagCanBeClearedIff` | src/internal/observability/datadog/pubsub.go:43-132 | some visiting order leaves it unflagged exactly when some answer may place it: no set of answers is stuck, each of them having to wait for another of the set lest it place the subscription first or a dead-letter subscription beside it |
| `PubSubFlags.FlagDependsOnOrderIff` | src/internal/observability/datadog/pubsub.go:43-132 | with any number of dead-letter subscriptions, the flag depends on the visiting order exactly when both conditions hold |
| `PubSubFlags.FlagDependsOnOneIff` | src/internal/observability/datadog/pubsub.go:43-132 | with one dead-letter subscription, that is when answers that may both count can place the two together, and others can place them apart |
| `Orders.GoodOrderIff` | src/internal/observability/datadog/pubsub.go:43-64 | the argument behind it: elements that wait for others can be put in order exactly when no set of them is stuck |
| `PubSubFlags.FlagCanDependOnOrder` | src/internal/observability/datadog/pubsub.go:43-132 | a family of inputs on which it does: two topics for one subscription |
| `PubSubFlags.FlagsIgnoreOrder` | src/internal/observability/datadog/pubsub.go:119-132 | with any number of dead-letter subscriptions, no flag depends on the order when no subscription is placed in two projects or topics |
| `SloProperties.LastUidIsOwner` | src/internal/slo/service.go:108-113 | the uid the update path reads back from the tags is the owner's |
| `SloProperties.StoredRoundTrip` | src/internal/observability/datadog/slo.go:53-101 | reading back what was created or updated gives what was written, except a warning of zero; an update keeps type and query, and both leave the other SLOs alone |
| `SloProperties.CreateKeeps` | src/internal/slo/service.go:77-91 | creating takes no SLO away from anyone; it keeps one SLO per resource and one resource per SLO exactly when the resource had none and the spec brings no foreign uid tag |
| `SloProperties.UpdateKeeps` | src/internal/slo/service.go:94-129 | checking and updating takes no SLO away from anyone; it keeps the invariant exactly when nothing is written or the spec brings no foreign uid tag |
| `SloProperties.ReconcileKeeps` | src/internal/slo/service.go:47-91 | with a working path B, a reconcile takes no SLO away from anyone, leaves the resource at most one and reports the one it already had; the invariant is kept exactly when the store is not changed or the spec brings no foreign uid tag |
| `SloProperties.InvariantKeptIff` | src/internal/slo/service.go:47-118 | whatever the lookups answer: one SLO per resource and one resource per SLO is kept exactly when nothing is written, or every uid tag of the spec is the resource's own and no SLO is created beside an existing one |
| `SloProperties.AtMostOneForever` | src/internal/slo/service.go:47-91 | over every run of reconciles with failing writes and failing fast-path lookups, edited specs, deleted resources and SLOs removed by hand, each uid tag is on at most one SLO |
| `SloProperties.StatusStaysNamed` | src/internal/slo/service.go:86-91 | a synced status has an id, and an id in a status names an SLO tagged with that resource uid until that very SLO is removed by hand, over runs in which path B works, specs bring no foreign uid tag, and a resource that is applied brings neither an id nor a synced status of its own |
| `SloProperties.IdentitySurvives` | src/internal/slo/service.go:47-62 | orphan recovery: whatever erased the status in between, the next synced reconcile reports the same id |
| `SloProperties.DuplicateIff` | src/internal/slo/service.go:47-80 | a reconcile leaves two SLOs for its resource exactly when it has one, no lookup that is made succeeds, and the create goes through |
| `SloProperties.ImpersonationDuplicates` | src/internal/slo/service.go:157-160 | one way to break it: a foreign uid tag makes a new SLO answer another resource's lookup |
| `SloProperties.OwnerKeptIff` | src/internal/slo/service.go:108-116 | an update leaves an SLO to a resource exactly when the last uid tag read back, or the new spec, names it |
| `SloProperties.ForeignTagLosesTheSLO` | src/internal/slo/service.go:105-118 | the other way: after two updates with a foreign uid tag the resource has no SLO any more, whether or not anyone has that uid |
| `SloProperties.SyncedMatchesSpec` | src/internal/slo/service.go:99-128 | whichever lookups failed and whatever the store holds, after a synced reconcile the SLO it reports has the target of the spec, and its warning when one is given, zero included |
| `SloProperties.FoundAfter` | src/internal/slo/service.go:43-128 | which SLO a working lookup finds after a synced reconcile: the one it reported, in sync with the spec, unless it overlooked the older one, which is then found, or gave the SLO away, when the second carrier of the tag is found if there is one |
| `SloProperties.QuiescentIff` | src/internal/slo/service.go:43-128 | exactly when an immediate second reconcile with working lookups writes nothing, whichever lookups failed in the first and whatever the store holds: the spec asks for no warning of zero; or, where the first overlooked an SLO of the resource and created another, the overlooked one is up to date; or, where it gave the SLO away to a foreign uid tag, the next SLO with the tag is up to date, or there is none and the service is missing |
| `SloProperties.NothingLost` | src/internal/slo/service.go:43-118 | a working path B overlooks nothing, and an SLO that names one resource only is not given away |
| `SloProperties.OverlookedIsRewritten` | src/internal/slo/service.go:58-128 | a family of inputs on which a synced reconcile is not quiescent: path B failed, a duplicate was created, and the next reconcile rewrites the old SLO |
| `SloProperties.ValidatedSpecIsQuiescent` | src/internal/controller/sloconfig.go:40-58 | the same through the controller, where a spec that passes validation with a target of zero or more asks for no warning of zero: it is quiescent and keeps its id unless the first reconcile overlooked or gave away the SLO |
| `SloController.Provider.FindSLOByTag` | src/internal/observability/datadog/slo.go:103-115 | the first SLO that carries the tag |
| `SloController.DecodeSLO` | src/internal/observability/datadog/slo.go:175-196 | the first threshold, a zero warning read as none, the service of the last `service:` tag |
| `SloController.ExtractUid` | src/internal/slo/service.go:108-113 | the loop keeps the uid of the last uid tag |
| `SloController.Service.CheckExisting` | src/internal/slo/service.go:94-129 | writes to the provider exactly when target or a given warning differ, and what the specification says |
| `SloController.Service.ReconcileResource` | src/internal/slo/service.go:40-92 | the three paths on the live provider refine the specification: store, status and writes |
| `SloContract.CreatesForResource` | src/internal/slo/service.go:64-91 | a reconcile that finds nothing and creates adds one SLO behind the others and reports its id: named after service and framework, of type `metric` and timeframe `30d` where these are empty, with target, warning and tags of the spec, owned by the resource, and with the query (numerator, denominator) exactly when both are given; a create that fails changes nothing and is returned |
| `SloContract.DetectsFirst` | src/internal/slo/service.go:131-152 | the framework is the first of the spec, an annotation that is not empty, what the catalog answered, and `wsgi` |
| `SloContract.MissingServiceStops` | src/internal/slo/service.go:65-75 | a service that must be in the catalog and is not: nothing is written, and the status is an error without an id |
| `SloContract.UpdatesFound` | src/internal/slo/service.go:94-129 | a reconcile that finds an SLO of the resource reports its id, and writes to it exactly when target or a given warning differ: then name, thresholds and tags are those of the spec, for the owner its last uid tag names, type and query stay, and so do all other SLOs |
| `SloContract.LastUidExact` | src/internal/slo/service.go:108-113 | the owner is what follows the prefix in the last uid tag, and empty without one |
| `SloContract.ServiceExact` | src/internal/observability/datadog/slo.go:190-194 | the service is that of the last `service:` tag, and empty without one |
| `SloContract.ValidationStops` | src/internal/controller/sloconfig.go:36-44 | a resource without a service, or with a warning not above the target, is not reconciled: only state and error of its status change |
| `SloContract.OthersAreReconciled` | src/internal/controller/sloconfig.go:46-61 | any other is, and its status is replaced as a whole, by the error alone when one was returned |
| `SloController.Controller.ReconcileConfig` | src/internal/controller/sloconfig.go:25-88 | validation keeps the rest of the status, anything else replaces it, with the error that was returned if there was one; a failed patch changes nothing |
| `KubernetesGraph.Dedupe` | src/internal/discovery/kubernetes/builder.go:259-273 | each name that is not empty, exactly once |
| `KubernetesGraph.DedupeInOrder` | src/internal/discovery/kubernetes/builder.go:265-271 | in the order of their first occurrences |
| `KubernetesEdges.IndexExact` | src/internal/discovery/kubernetes/builder.go:164-164 | with unique names per namespace and slash-free namespaces, a key resolves to an object exactly when that object has the namespace and name |
| `KubernetesContract.EdgesExact` | src/internal/discovery/kubernetes/builder.go:119-160 | with names unique per kind and namespace and slash-free namespaces, the six loops emit exactly the relation declared between the listed objects themselves: a selector matching pod labels, an ingress whose backends name the service, a scaler naming kind and name, and ConfigMaps and Secrets that a pod of any of the four kinds uses |
| `KubernetesContract.RefsExact` | src/internal/discovery/kubernetes/builder.go:194-227 | a name is a reference of a workload exactly when it is not empty and an init container or container has it in envFrom or env, or a volume mounts it |
| `KubernetesContract.BackendsExact` | src/internal/discovery/kubernetes/provider.go:231-244 | an ingress leads to a service exactly when it is the default backend or the backend of a path of an HTTP rule |
| `KubernetesContract.AssetsExact` | src/internal/discovery/kubernetes/provider.go:72-323 | the assets are exactly the listed objects outside the excluded namespaces, each under its kind, with its own uid, name, namespace and labels; a workload's Datadog service is its own label, or else that of its pod template |
| `KubernetesContract.AssetsNumber` | src/internal/discovery/kubernetes/provider.go:72-323 | and as many as the kept objects of the twelve lists |
| `KubernetesContract.ErrorsExact` | src/internal/discovery/kubernetes/provider.go:45-66 | the errors are those of the lists that failed, each under the name of its resource |
| `KubernetesEdges.EdgesWithinNamespace` | src/internal/discovery/kubernetes/builder.go:119-160 | with such names, both ends of every edge are assets of one and the same namespace |
| `KubernetesEdges.NoDanglingEdges` | src/internal/discovery/kubernetes/provider.go:42-68 | whichever lists failed, and with no assumption on names, both ends of every edge are assets |
| `KubernetesEdges.NoRepeatedEdges` | src/internal/discovery/kubernetes/builder.go:119-160 | with unique UIDs, no relation is emitted twice across all the loops |
| `KubernetesEdges.SubsetIsInclusionIff` | src/internal/discovery/kubernetes/builder.go:181-191 | the label test is inclusion of the selector in the labels, for all labels, exactly when the selector asks for no empty value |
| `KubernetesEdges.PartialIff` | src/internal/discovery/kubernetes/provider.go:62-66 | the status is partial exactly when one of the twelve lists failed |
| `KubernetesEdges.NothingExcluded` | src/internal/discovery/kubernetes/provider.go:72-323 | no asset comes from an excluded namespace |
| `KubernetesProvider.DedupeNames` | src/internal/discovery/kubernetes/builder.go:259-273 | the loop with its seen map is first occurrences |
| `KubernetesProvider.PodRefs` | src/internal/discovery/kubernetes/builder.go:194-227 | the names from envFrom, env and volumes, init containers first, each once |
| `KubernetesProvider.MatchesLabels` | src/internal/discovery/kubernetes/builder.go:181-191 | the loop over the selector, in any order, is the label test |
| `KubernetesProvider.GatherBackends` | src/internal/discovery/kubernetes/provider.go:231-244 | the service of the default backend, then those of the paths of the HTTP rules |
| `KubernetesProvider.KeepWorkloads` | src/internal/discovery/kubernetes/builder.go:88-105 | one asset and one reference record for each workload outside the excluded namespaces |
| `KubernetesProvider.KeepIngresses` | src/internal/discovery/kubernetes/provider.go:225-251 | the same for ingresses, each backend once |
| `KubernetesProvider.Builder.ResolveEdges` | src/internal/discovery/kubernetes/builder.go:119-160 | the nested loops over the builder's slices and maps append exactly the specified edges |
| `KubernetesProvider.Builder.Sweep` | src/internal/discovery/kubernetes/provider.go:45-58 | the twelve listings in order, with the indexes before the workloads |
| `KubernetesProvider.Discover` | src/internal/discovery/kubernetes/provider.go:42-68 | the mutable builder gives the specified subgraph, for every pattern of failing lists |
| `Registry.Registry.DiscoverAll` | src/internal/discovery/provider.go:36-65 | the merge loop and the correlators give the specified snapshot |
| `Registry.MergedExact` | src/internal/discovery/provider.go:52-59 | before correlating, the snapshot has every asset and relation that some provider found, and no others |
| `Registry.StatusExact` | src/internal/discovery/provider.go:42-59 | the status of a provider name is that of the last provider of the name: not configured when disabled, failed with its error, or its own, ok when unset, with the number of its assets |
| `Discovery.SweepStatusExact` | src/internal/discovery/datadog/provider.go:79-83 | a sweep without errors is ok; otherwise it is partial, and its error is all the errors in order, joined by a semicolon and a space |
| `Registry.FailureIsIsolated` | src/internal/discovery/provider.go:42-52 | whatever happens to one provider, the assets, relations and statuses of the others are as if it were absent |
| `Registry.CountsAddUp` | src/internal/discovery/provider.go:52-59 | with distinct provider names, the asset counts of the statuses add up to the assets of the snapshot |
| `Registry.LinkedKeeps` | src/internal/discovery/provider.go:61-63 | correlators only append their own links |
| `Registry.EndsSurvive` | src/internal/discovery/provider.go:52-63 | a relation with both ends in its own subgraph has both ends in the snapshot, and so has every correlated link |
| `Correlator.IndexServices` | src/internal/discovery/correlator.go:16-22 | the last service of a name wins |
| `Correlator.Correlate` | src/internal/discovery/correlator.go:15-61 | the loops with their index and seen maps give the specified links |
| `Correlator.CorrelateSound` | src/internal/discovery/correlator.go:29-60 | only declared links (tag attribute first, name only when it is empty) are emitted, none twice, and every declared link has its key among them |
| `Correlator.CorrelateCompleteIff` | src/internal/discovery/correlator.go:49-53 | every declared link is emitted exactly when the deduplication keys tell the declared links apart |
| `Correlator.CorrelateExact` | src/internal/discovery/correlator.go:15-61 | workload ids without `>` make the emitted links exactly the declared ones |
| `Correlator.CollidingKeysLoseALink` | src/internal/discovery/correlator.go:49-53 | without that, one link can hide another: a family of inputs |
| `Correlator.LinksAreGrounded` | src/internal/discovery/correlator.go:54-58 | both ends of every link are assets |
| `TopologySweep.Sweep` | src/cmd/operator/main.go:187-204 | the sweep as the operator wires it: Kubernetes, the selected ones of Datadog and OpenTelemetry, and the correlator |
| `TopologySweep.NothingDangles` | src/internal/discovery/provider.go:36-65 | whatever lists, pages or requests failed: after merging and correlating, every Kubernetes, `describes` and `based_on` edge has both ends among the assets |
| `TopologySweep.NothingExcluded` | src/internal/discovery/provider.go:36-65 | and no namespaced Kubernetes asset comes from an excluded namespace |
| `TopologySweep.KubernetesPartialIff` | src/internal/discovery/provider.go:36-65 | in the merged, correlated snapshot the Kubernetes status is partial exactly when one of the twelve lists failed |
| `TopologyContract.LinksExact` | src/internal/discovery/correlator.go:15-61 | over a whole sweep, with uids without `>`: the correlator links exactly the services read from Datadog to the listed workloads that name them, or that name none and are called the same |
| `TopologyContract.RelationsExact` | src/cmd/operator/main.go:187-204 | and the relations of the snapshot are exactly those declared in the cluster, those Datadog's own answers give, and these links |
| `TopologyContract.StatusesExact` | src/cmd/operator/main.go:187-204 | Kubernetes always has a status, the other two exactly when they are selected |
| `Paging.SweepExact` | src/internal/discovery/datadog/provider.go:92-125 | a loop over a stable list reads its first min(n, limit·size) items once each and in order with min(limit, n div size + 1) requests; a failure on page k leaves exactly k·size items and one failure |
| `Paging.TruncationIsSilent` | src/internal/discovery/datadog/provider.go:92-125 | items are left behind, with nothing recorded, exactly when there are more than limit·size |
| `DatadogProvider.ListServiceTags` | src/internal/discovery/datadog/provider.go:257-265 | the values of the `service:` tags that have one, in order |
| `DatadogProvider.TagSliceToMap` | src/internal/discovery/datadog/provider.go:268-281 | the last tag of each key, cut at its first colon |
| `DatadogProvider.Builder.DiscoverServices` | src/internal/discovery/datadog/provider.go:89-126 | the services of the pages read, one failure at most, the number of page requests, and which services were queried for metrics: every one in order when metrics are included |
| `DatadogProvider.Builder.DiscoverMonitors` | src/internal/discovery/datadog/provider.go:128-158 | the same for monitors, with their service edges and the set of those that exist |
| `DatadogProvider.Builder.DiscoverSLOs` | src/internal/discovery/datadog/provider.go:160-196 | the same for SLOs, with their service and monitor edges |
| `DatadogProvider.Builder.DiscoverMetrics` | src/internal/discovery/datadog/provider.go:198-217 | the first 5000 metric names, and an error when there are more |
| `DatadogProvider.Discover` | src/internal/discovery/datadog/provider.go:59-85 | the whole sweep, including credentials that are missing or cannot be fetched |
| `DatadogProperties.TagMapExact` | src/internal/discovery/datadog/provider.go:268-281 | a key is in the map exactly when a tag has it, with the value of its last tag |
| `DatadogProperties.ServiceTagsExact` | src/internal/discovery/datadog/provider.go:257-265 | a service is listed exactly when the tag `service:` followed by it is there and it is not empty |
| `DatadogProperties.SweepEdgesExact` | src/internal/discovery/datadog/provider.go:128-196 | the relations are exactly the tagged, targeted and based_on ones over what was read; based_on reaches only monitors read in the same sweep |
| `DatadogProperties.SweepEndsKept` | src/internal/discovery/datadog/builder.go:18-34 | Datadog edges stay within Datadog, start at an asset, and a based_on edge also ends at one, whatever the requests answered |
| `DatadogProperties.SweepStatusIff` | src/internal/discovery/datadog/provider.go:59-85 | failed, not configured and partial, each exactly when |
| `DatadogContract.ListsReadAs` | src/internal/discovery/datadog/provider.go:46-55 | services come by the hundred, monitors and SLOs by the thousand, at most fifty pages when no limit is set; reading stops at that limit, at a page that fails, or after one that is not full |
| `DatadogContract.AssetsExact` | src/internal/discovery/datadog/provider.go:89-216 | with credentials, the assets are exactly the services, monitors and SLOs read, and the first 5000 metrics when these are included, under their ids, names and tags; a service is called by the first name its schemas give, or else by its id |
| `DatadogContract.AssetsNumber` | src/internal/discovery/datadog/provider.go:89-216 | and one for each item read |
| `DatadogContract.EdgesExact` | src/internal/discovery/datadog/provider.go:128-196 | with credentials, the relations are exactly these: a monitor or SLO to each service its tags name, an SLO to each of its monitors that was read |
| `DatadogContract.ErrorsExact` | src/internal/discovery/datadog/provider.go:93-209 | each list that failed is reported once under its name, and so is a metric list that was cut off, with its length |
| `DatadogContract.WithoutCredentials` | src/internal/discovery/datadog/provider.go:60-67 | credentials that cannot be read are a failure, incomplete ones mean not configured; either way nothing is found |
| `DatadogContract.QueriedExact` | src/internal/discovery/datadog/provider.go:102-108 | every service is queried for its metrics, in order and by its name, when metrics are included, and none otherwise |
| `DatadogContract.TagParts` | src/internal/discovery/datadog/provider.go:273-279 | a tag is cut at its first colon, and without one is a key with an empty value |
| `NamespaceBuffer.Buffer.Add` | src/internal/notification/buffer.go:29-47 | an Add has the specified effect, and a batch that is handed out is no longer part of the buffer's storage |
| `NamespaceBuffer.HandedOutIsFinal` | src/internal/notification/buffer.go:41-44 | no later Add changes a batch that was handed out |
| `NamespaceBuffer.Conservation` | src/internal/notification/buffer.go:38-44 | for every sequence of Adds, the batches handed out for a namespace followed by its bucket are the items added, in order |
| `NamespaceBuffer.BucketsStayShort` | src/internal/notification/buffer.go:40-44 | after every Add a bucket is empty or shorter than the batch size |
| `NamespaceBuffer.NamespacesAreIndependent` | src/internal/notification/buffer.go:29-47 | batches, bucket and flush time of a namespace depend on its own Adds alone |
| `NamespaceBuffer.HeldItemsAreYoung` | src/internal/notification/buffer.go:33-45 | under a clock that never goes back, items are still held after an Add only if less than the interval has passed since the last flush, or since the first item |
| `QueueLink.CacheKeyInjective` | src/internal/controller/queue_link_runner.go:142-142 | the cache key tells ConfigMaps apart because namespaces have no slash |
| `QueueLink.Scan.GetConfigMap` | src/internal/controller/queue_link_runner.go:141-153 | a cached answer, a miss included, is what the store would answer, and no ConfigMap is asked for twice |
| `QueueLink.Scan.CollectEnvValues` | src/internal/controller/queue_link_runner.go:107-139 | the values collected are those the containers can see, Secrets apart, in whatever order the data is visited |
| `QueueLink.MatchesAny` | src/internal/controller/queue_link_runner.go:157-170 | some value refers to the queue: by its external id, or by a display name of at least four bytes |
| `QueueLink.Run` | src/internal/controller/queue_link_runner.go:51-104 | the scan with its cache posts what reading every ConfigMap anew would post |
| `QueueLink.FirstsExact` | src/internal/controller/queue_link_runner.go:84-88 | a match is kept exactly when it is the first of its queue and workload |
| `QueueLink.PostedExact` | src/internal/controller/queue_link_runner.go:74-103 | the hints are matching pairs, no two for one queue and workload, every matching pair is covered, and nothing is posted exactly when nothing matches |
| `QueueLinkContract.CandidatesExact` | src/internal/controller/queue_link_runner.go:107-139 | a value is collected exactly when a container or init container has it in a variable, in the key of a ConfigMap that a variable without value refers to, or in a ConfigMap it takes whole |
| `QueueLinkContract.UsesIff` | src/internal/controller/queue_link_runner.go:157-170 | a deployment uses a queue exactly when such a value is one of its names, or contains its id, or its display name of at least four bytes |
| `QueueLinkContract.HintsSound` | src/internal/controller/queue_link_runner.go:74-97 | every hint tells of a listed deployment and a queue it uses, and no two of the same queue and workload |
| `QueueLinkContract.HintsComplete` | src/internal/controller/queue_link_runner.go:74-97 | every deployment that uses a queue has a hint for it |
| `QueueLinkContract.MatchesInOrder` | src/internal/controller/queue_link_runner.go:74-97 | matches come in the order of the deployments |
| `QueueLinkContract.OneMatch` | src/internal/controller/queue_link_runner.go:80-96 | one deployment and one queue give one match, with both their names, when it uses the queue, and none otherwise |
| `QueueLinkContract.NothingPosted` | src/internal/controller/queue_link_runner.go:54-67 | without queue names or deployments nothing is posted, and an empty list never is |
| `ClusterIdentity.Cluster.ResolveFromNodeLabels` | src/internal/cluster/resolver.go:57-69 | the first label, in priority order, that has a value |
| `ClusterIdentity.Cluster.SealIdentity` | src/internal/cluster/resolver.go:71-92 | create when the ConfigMap is absent, update when it could be read |
| `ClusterIdentity.Cluster.ResolveClusterName` | src/internal/cluster/resolver.go:36-55 | the four sources in order, and what is sealed |
| `ClusterIdentity.NodeNameExact` | src/internal/cluster/resolver.go:57-69 | the name on the nodes is that of the first listed node, from the first of the EKS, eksctl, GKE and AKS labels that has a value |
| `ClusterIdentity.ResolvesInOrder` | src/internal/cluster/resolver.go:36-55 | the name and its source: the environment, the sealed name when it can be read, the nodes, `unknown`; only a name from the nodes is sealed |
| `ClusterIdentity.SealsExact` | src/internal/cluster/resolver.go:71-92 | a name from the nodes is written into the ConfigMap when it can be read, or into a new one when there is none, and nowhere if the write fails |
| `ClusterIdentity.SealKeptIff` | src/internal/cluster/resolver.go:41-52 | the ConfigMap keeps a sealed name through a start exactly unless the first read fails and a different name found on the nodes can be written |
| `ClusterIdentity.ReturnsIff` | src/internal/cluster/resolver.go:36-55 | a start returns the sealed name exactly when the environment says so, or, without one, when it can read the ConfigMap or finds that same name anyway; and then the ConfigMap keeps it |
| `ClusterIdentity.SealedNameForeverIff` | src/internal/cluster/resolver.go:36-55 | all starts of a run return the sealed name, whatever the labels become, exactly when each of them can do so by that condition |
| `ClusterIdentity.UnreadableSealIsIgnored` | src/internal/cluster/resolver.go:41-52 | a family of inputs on which the sealed name is kept and yet not returned: neither read of the ConfigMap succeeds and the nodes answer otherwise |
| `ClusterIdentity.IdentityIsStableIff` | src/internal/cluster/resolver.go:36-55 | once a start has sealed the name it found on the nodes, all later starts return it exactly when each can read the ConfigMap or finds that same name anyway |
| `ClusterIdentity.FirstNameForever` | src/internal/cluster/resolver.go:36-55 | with every call succeeding, the first name found is the name forever |
| `ClusterIdentity.OtherEntriesKept` | src/internal/cluster/resolver.go:87-91 | sealing keeps the other entries of the ConfigMap |
| `JsonPath.Extract` | src/internal/synthetic/checks/json_value.go:12-36 | the loop over the parts is recursive lookup in the tree, then the leaf as a number |
| `JsonPath.ExtractAt` | src/internal/synthetic/checks/json_value.go:12-24 | at the dot-joined path of any keys without a dot, it finds what the keys lead to |
| `JsonPath.FoundIff` | src/internal/synthetic/checks/json_value.go:12-36 | a number is found at a path exactly when the tree holds one under dot-free keys that join to that path |
| `JsonPath.LookupConcat` | src/internal/synthetic/checks/json_value.go:15-24 | following one path and then another is following their concatenation |
| `JsonPath.LookupOne` | src/internal/synthetic/checks/json_value.go:15-24 | one key leads to what an object has under it, and nowhere from anything else |

## Left out

- HTTP, JSON and the client libraries, timeouts, retries and rate limits: a remote call either takes effect and succeeds, or fails and changes nothing. A create that takes effect and still reports an error is not modelled; an empty answer to an SLO create counts as a plain failure.
- Normalisation and comma escaping of tags in Datadog queries: a tag filter is exact containment of every tag.
- titlis-api's own transitions and threshold calculation: the lifecycles of a cycle are an arbitrary input, without null entries. The lifecycle state of a queue does not change during a cycle.
- Two reconciles of SLOs, and the lookup and write inside one, do not interleave: each reconcile is one step. Queue cycles interleave with each other only in that one may stop anywhere before the next begins.
- Convergence of SLO name, timeframe, tags and of a warning removed from the spec: the code compares only target and a given warning.
- `lastSync`, notifications and the payload posted after an SLO reconcile; escaping done by the `%q` verb in an error text.
- Asset attributes other than `ddService` (replicas, images, probes, ports, capabilities of services), the cluster field, and the snapshot's version field.
- Namespace exclusion is a set of names; the patterns it is configured with are not part of this model.
- Datadog `monitors` and `targets` edges may end at services that were not found, by design of the source; no claim is made about those ends.
- What the metric query of a Datadog service adds to its attributes: which services are queried is modelled, the answers are not.
- The backing array of a Go slice and the maps shared between a snapshot and its labels: only the batches of the digest buffer are modelled as storage.
- Unicode case folding: lower-casing covers ASCII letters, which decides whether a name contains `dlq`, since no other letter has one of these three as its lower case.
- The Datadog collection window, time stamps, and the mutex of the digest buffer: each Add is one step with three readings of the clock.
- 64-bit overflow when a metric is converted to an integer: integers are unbounded.
- Conversion of a JSON numeral to a float: an arbitrary partial function.
- Scorecard extraction, payload builders, settings, log lines, Slack messages, Helm charts: copying and text without a property that spans functions.
