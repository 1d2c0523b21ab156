# Jettison controller: a verified model

The Jettison controller turns a `Flow`, a small graph of build and deploy steps, into Argo resources, and shows what
becomes of them over websockets. This Dafny project models its three difficult parts and proves what they promise.

**The watcher hub.** One goroutine owns the registered connections and their pod subscriptions. It talks over
unbuffered channels to a writer and a reader per connection, to informers, and to goroutines that send on their own.
`HubProtocol` is that protocol as a step relation; an unbuffered send and its receive are one step, and a select with a
cancelled context may skip. `HubModel` is the hub with every request handled at once, once with the lazy cleaning of
subscriptions that the program does and once with the eager cleaning one would write first. `FlowWatchers` holds the
handlers as the imperative code they are. `HubSafety`, `HubProgress`, `HubViews` and `HubRefinement` prove the safety,
progress, completeness and refinement results; `HubAnswers` adds what request goroutines send on the same connection,
`HubArchive` follows the archived workflows, `HubFarewells` the connections that leave or that asked for nothing,
`HubExceptions` says exactly when a client can rely on what it received, and `HubFailures` gives the runs in which the
hub is lost. `LogStream` is the debounced log streamer with its scanning goroutine.

**The workflow compiler.** `FlowDefaulter` fills in what a Flow leaves out, and `FlowProcessor` is the preprocessing
around it, validation included. `DockerfileSearch` finds the one image a deploy step consumes, on any graph.
`Expressions` prints `depends` and `when` and reads them back as the workflow engine does; `WorkflowCompiler` and
`WorkflowRuns` relate the generated workflow to the graph of steps over whole runs, `TaskParameters` to the fields of
the steps, and `CompileOutcomes` says which steps compile. `Templates` copies the global templates on the heap.
`AppBuilder`, `GitUrl` and `DockerfileDir` make the projects, applications, repository names and image names that have
to fit together, and `Applications` says what the names of applications tell apart.

**The reconciler.** `Cluster` has objects with a history of versions. A read may return any of them, an update is
accepted only for the last one, a delete always is, and every call may fail before or after taking effect.
`ReconcilerModel` says what one reconcile does, as a function of the world and of what goes wrong with its calls;
`Reconciler` is the long read, compare and write sequence with its three caches, proved to be that function.
`ReconcilerLaws` follows one object and one repository through it, and `ReconcilerRuns`, `StaleBinding` and
`ReconcilerResults` prove what holds over runs with failures, stale reads and restarts; `ReconcilerRejects` is about
the status of Flows that cannot be built, and `CachedCalls` about what the caches save. `FlowWants` derives what a Flow
asks for, with preprocessing, the workflow compiler and the application builder above. `Deployments`,
`DeployedWorkflows` and `DeployedObjects` follow a Flow through all of it: to what its stored workflow deploys, to what
that workflow says, and to the objects and settings that are there. `EventSourceMerge` and `EventSourceRuns` treat the
EventSource that all Flows share, with other writers as well. `GitHubSettings`, `GitHubSync` and `GitHubServer` are the
settings normaliser.

Some promises turned out to hold only under a condition. For each there is a lemma that gives the condition, and a
lemma with a run or an input that fails it:

- The hub can return to its select exactly when it is not wedged (`ReturnsExactlyWhenNotWedged`); a failed List and a
  failed WriteJSON each wedge it (`FailedListWedges`, `FailedWriteWedges`).
- A send on a closed channel is possible exactly when a request goroutine is between its context check and its select
  (`PanicsExactlyWhenSomeoneIsLate`, `ALateSenderPanics`).
- What clients received shows the informer's store for a key, in all runs, exactly when no request goroutine answers
  about that key and no change of it goes without an event (`ClientsAreRightExactly`). An answer about a pod can overtake
  its deletion (`AnAnswerOutlivesItsPod`); a pod that loses its label, or a delete whose last state is unknown, has no
  event (`AnUntoldDeleteIsNeverSeen`).
- The image search is right exactly when no reachable publish step has an empty Dockerfile path, the "not found" value
  (`SearchIsRight`, `OrderMattersWithAnEmptyPath`).
- ArgoCD tasks name a built application exactly when an application name decides its organisation
  (`ArgoTasksAreLinkedExactly`, `TasksCanMissTheirApplication`).
- Every ArgoCD step has an application that deploys its repository and path exactly when application names decide what
  is deployed; within one repository a name tells paths apart, but for the separators '/' and '-' in them
  (`AllHaveTheirOwnExactly`, `NamesTellPathsApart`, `DashesHideADeployment`).
- A Flow is rejected exactly when it does not preprocess, build its applications, build its sensor or name its
  repository, and is retried instead when an application belongs to another organisation or a missing dependency
  crashes the compiler (`RejectionsSayWhy`).
- EventSource updates for an owner are asked for exactly when a pair is missing, if and only if the owner's first entry
  has all the names that its other entries have (`NeededExactlyWhenMissing`, `HiddenPairsAreAddedAgain`).
- The merge crashes exactly when the fetched EventSource has no map of GitHub sections (`MergeOwnedRepos`), and an
  undisturbed reconcile of a buildable Flow succeeds exactly when it has one and the app is installed
  (`UndisturbedSucceeds`, `OnlyTheMapIsMissing`, `NilMapBlocksEveryJob`).
- The namespace cache is right in every run, stale reads included, exactly when the namespace's role binding was absent
  or had the right role at the start (`NamespacesAreSoundExactly`, `TheBindingGetsLost`); the other two caches always
  are (`CachesNeverLie`).
- After a successful reconcile the Flow is Ready exactly when it was before, or when before it the cluster lacked
  something of what the Flow asks for and the fetched copy of the Flow did not say Ready (`ReadyAfterSuccess`,
  `ASuccessThatIsNotReady`).

## Model

| member | source | states |
|---|---|---|
| HubSafety.StepKeepsSafe | internal/webserver/flow_watcher.go:87-160 | every step of the protocol keeps the invariant that ties contexts, channels, registration and program points together |
| HubSafety.RunIsSafe | internal/webserver/flow_watcher.go:87-111 | the invariant holds after every run from the start |
| HubSafety.RegisteredExactlyWhenOpen | internal/webserver/flow_watcher.go:384-401 | at the hub's select a connection is registered exactly when its context is live and exactly when its channel is open, and its channel was closed at most once |
| HubSafety.NoSendMeetsAClosedChannel | internal/webserver/flow_watcher.go:115-160 | in every run no channel is closed twice, and hub sends, initial sends and sends already blocked in the select only ever meet open channels |
| HubProgress.StaysWedged | internal/webserver/flow_watcher.go:139-160 | a hub that waits for a goroutine that waits for the hub does so after every further step |
| HubProgress.WayBack | internal/webserver/flow_watcher.go:87-111 | from every safe state that is not wedged, a run no longer than a decreasing backlog leads back to the select |
| HubProgress.ReturnsExactlyWhenNotWedged | internal/webserver/flow_watcher.go:87-160 | in every reachable state the hub can return to its select if and only if it is not wedged |
| HubProgress.AwayIsBounded | internal/webserver/flow_watcher.go:115-160 | under every scheduler, away from its select the hub takes no more steps than its backlog plus one for each turn of a writer that a request goroutine took meanwhile |
| HubProgress.NeverStuckWithoutFailures | internal/webserver/flow_watcher.go:244-266 | in every run without failing List or WriteJSON calls the hub can return to its select |
| HubFailures.FailedListWedges | internal/webserver/weberror.go:78-94 | a failed List during registration leaves the hub waiting for a sender that waits for the hub, for ever |
| HubFailures.FailedWriteWedges | internal/webserver/flow_watcher.go:244-256 | with all List calls succeeding, a failed WriteJSON can leave the hub offering to the writer that waits for it |
| HubFailures.OnlyLateTasksPanic | internal/webserver/flow_watcher.go:148-160 | the only step of a reachable panic-free state that panics is a late request goroutine's send |
| HubFailures.PanicsExactlyWhenSomeoneIsLate | internal/webserver/flow_watcher.go:148-160 | a panic can come next if and only if some request goroutine passed its context check and its channel is closed by now |
| HubFailures.ALateSenderPanics | internal/webserver/flow_watcher.go:148-160 | a reachable run in which that happens |
| HubModel.LazyHandsWhatEagerHands | internal/webserver/flow_watcher.go:380-429 | for every orderly history, the hub that cleans subscriptions lazily hands every connection the same messages as one that cleans them at unregister |
| HubModel.EachConnectionGetsItsOwnLife | internal/webserver/flow_watcher.go:99-107 | what a connection was handed is its initial lists and then, in hub order and once each, the broadcasts (unless aux) and the pod messages of topics it had subscribed to |
| HubRefinement.ProtocolRefinesHub | internal/webserver/flow_watcher.go:87-146 | at the select of every interleaving, connections, subscriptions and handed messages are those of the sequential hub on the finished requests, and each registration handed over one list of each kind |
| HubRefinement.EveryRunHandsEachConnectionItsLife | internal/webserver/flow_watcher.go:337-429 | in every interleaving the lists that a writer received from the hub are exactly its connection's own life, which is also what eager cleaning would have handed it |
| HubViews.SnapshotShows | internal/webserver/flow_watcher.go:222-242 | a List answer behind the archived workflows, followed by the events still queued, merges to the store |
| HubViews.StepKeepsViews | internal/webserver/flow_watcher.go:497-682 | every step keeps every follower's view complete, changes in the informers included |
| HubViews.HubLosesNothing | internal/webserver/flow_watcher.go:115-146 | in every reachable state, for every follower, topic and key whose last change had an event: what the hub and its initial senders handed over, the event being distributed and the queued events merge to the stored object, or to nothing for keys that are not archived (for those see HubArchive) |
| HubArchive.StepKeepsArchive | internal/webserver/flow_watcher.go:222-242 | every step keeps the archived workflows in front of what the sender of the workflow list holds or has handed over, and of what every follower of workflows was handed |
| HubArchive.TheArchiveComesFirst | internal/webserver/flow_watcher.go:239-239 | in every run, all that a follower of workflows received begins with the archive that the hub started with |
| HubArchive.ArchivedWorkflowsAreShown | internal/webserver/flow_watcher.go:239-239 | so a key that nothing later mentions, received or on its way, is shown as it was archived |
| HubFarewells.PartedConnectionsAreUnregistered | internal/webserver/weberror.go:78-94 | in every run, once its reader has left or a goroutine that was to close it is over, a connection is unregistered, cancelled and closed exactly once whenever the hub is at its select |
| HubFarewells.WhoChecksInTimeStaysQuiet | internal/webserver/flow_watcher.go:148-160 | a request goroutine that finds its connection cancelled when it calls sendConn neither sends nor panics, however the run goes on |
| HubFarewells.AuxiliaryConnectionsAreSpared | internal/webserver/flow_watcher.go:115-146 | in every run a connection opened with aux=true receives no list and no event of a broadcast kind from anyone |
| HubAnswers.StepKeepsLogs | internal/webserver/container_log_message_handler.go:239-243 | every step keeps the hub's messages a subsequence of all that a writer received, and every other message one that a request goroutine of that connection had to send |
| HubAnswers.NothingIsLost | internal/webserver/container_log_message_handler.go:239-243 | the same of everything a writer received, the lists that request goroutines send included, for every key that the connection did not ask about |
| HubAnswers.OnlyPodsAreAskedAbout | internal/webserver/container_log_message_handler.go:239-243 | nobody ever asks about a flow, application, rollout or workflow, so for these nothing is excepted |
| HubExceptions.ClientsAreRightExactly | internal/webserver/flow_watcher.go:115-146 | for any set of keys that request goroutines answer about and any set of keys that may change without an event: over all such runs and connections, what was received shows the store for a key if and only if it is in neither set (broadcast kinds are never answered about) |
| HubExceptions.AnAnswerOutlivesItsPod | internal/webserver/container_log_message_handler.go:239-243 | for every pod topic and pod that may be asked about, a run to an idle hub without pending events in which the pod is deleted and a subscriber that asked for its logs shows it |
| HubExceptions.AnUntoldDeleteIsNeverSeen | internal/webserver/flow_watcher.go:709-765 | for every topic and key that may go without an event, a run to an idle hub without pending events in which it is gone and a follower shows it |
| FlowWatchers.FlowWatcher.SendConn | internal/webserver/flow_watcher.go:148-160 | a live connection's writer gets the message, a cancelled one's does not; only the hub cancels, so for the hub and the senders it waits for nothing comes between the check and the select (other senders are in HubProtocol) |
| FlowWatchers.FlowWatcher.RegisterConn | internal/webserver/flow_watcher.go:115-146 | for any answers of the List calls, failing ones included: each is handed over, as a list or as an error, unless aux; the hub waits for ever exactly when one failed, and otherwise the new state is the specification's |
| FlowWatchers.FlowWatcher.UnregisterConn | internal/webserver/flow_watcher.go:384-401 | the new state is the specification's; the channel is closed only once and after cancelling |
| FlowWatchers.FlowWatcher.RegisterResourceSubscription | internal/webserver/flow_watcher.go:337-378 | the new state is the specification's, or the hub waits for itself exactly when a List of a new subscription fails, with the subscribers as before |
| FlowWatchers.FlowWatcher.NotifyAll | internal/webserver/flow_watcher.go:99-104 | ranging in any order hands the message to exactly the registered connections that are not aux |
| FlowWatchers.FlowWatcher.NotifyResourceSubscriptions | internal/webserver/flow_watcher.go:405-429 | ranging and deleting in any order hands the message to exactly the registered subscribers and keeps exactly those |
| LogStream.StepConserves | internal/webserver/container_log_message_handler.go:101-174 | every step of streamer and scanner keeps the conservation invariant, a Scan that returns after the context was cancelled included |
| LogStream.BatchesPlusBufferAreWhatWasReceived | internal/webserver/container_log_message_handler.go:110-125 | while the context lives, batches and buffer are the received lines, and a non-empty buffer has a timer that will flush it |
| LogStream.BatchesAreAPrefix | internal/webserver/container_log_message_handler.go:101-174 | in every run, cancelled and failing ones included, the batches form a prefix of the log |
| LogStream.EndMarkerMeansComplete | internal/webserver/container_log_message_handler.go:144-150 | the empty batch comes at most once, last, and only after the whole log; a clean end with a live context hands it over |
| LogStream.FailureDropsTheBuffer | internal/webserver/container_log_message_handler.go:127-142 | a scan error loses exactly the buffered lines |
| LogStream.ReaderNeverLeaks | internal/webserver/container_log_message_handler.go:163-174 | however the streamer returned, the scanner can return with its next step from wherever it is, blocked in Scan or on its channel, and cannot go round its loop again |
| LogStream.LinesAreOnlyPutAside | internal/webserver/container_log_message_handler.go:115-120 | a line that arrives goes behind the buffered ones and sets the timer, and nothing is handed over |
| LogStream.TheTimerHandsOneBatch | internal/webserver/container_log_message_handler.go:110-114 | the timer hands over all buffered lines as one batch, or nothing |
| LogStream.BatchesAreDebounced | internal/webserver/container_log_message_handler.go:110-150 | in every run, however many lines arrive, there is at most one message for each time the timer fired, and two more for the end of the log |
| LogStream.LogStreamer.StreamLogLines | internal/webserver/container_log_message_handler.go:110-160 | the select loop does to its fields what the reaction function says, and stops at the first outcome that ends it; what is promised of that function, debouncing included, is proved over all its runs |
| DockerfileSearch.GetDockerfilePathDependency | internal/controller/sensorbuilder/sensor_trigger_tasks.go:476-506 | the queue loop ends on any graph, "multiple" is always right, and any other answer that does not crash is right exactly when no reachable publish step has an empty path |
| DockerfileSearch.SearchIsRight | internal/controller/sensorbuilder/sensor_trigger_tasks.go:476-506 | the same of the search, against reachability by one or more edges |
| DockerfileSearch.SearchDecides | internal/controller/sensorbuilder/sensor_trigger_tasks.go:483-505 | on closed graphs with non-empty paths: path p exactly when one publish step is reachable and p is its path, "multiple" exactly for two or more, "not found" exactly for none |
| DockerfileSearch.MissingNamesCrash | internal/controller/sensorbuilder/sensor_trigger_tasks.go:497-497 | a crash means that a missing name is reachable; with at most one reachable publish step a reachable missing name always crashes, and with two the search either crashes or reports "multiple" |
| DockerfileSearch.OrderDoesNotMatter | internal/controller/sensorbuilder/sensor_trigger_tasks.go:479-498 | where all reachable names are known and no reachable path is empty, reordering or repeating entries of any dependsOn list leaves the outcome as it is |
| DockerfileSearch.OrderMattersWithAnEmptyPath | internal/controller/sensorbuilder/sensor_trigger_tasks.go:492-495 | with an empty path the order decides between success and "multiple" |
| Expressions.GetDepends | internal/controller/sensorbuilder/sensor_trigger_tasks.go:562-574 | the loop prints the conjunction of the dependencies' success |
| Expressions.GetWhen | internal/controller/sensorbuilder/sensor_trigger_tasks.go:533-557 | the loop prints the conjunction over exactly the gating dependencies |
| Expressions.GatesAre | internal/controller/sensorbuilder/sensor_trigger_tasks.go:537-555 | the gates are the direct dependencies that are build or ArgoCD steps |
| Expressions.DependsRoundTrip | internal/controller/sensorbuilder/sensor_trigger_tasks.go:562-574 | the printed depends reads back as the dependencies if and only if all of them are task names |
| Expressions.WhenRoundTrip | internal/controller/sensorbuilder/sensor_trigger_tasks.go:533-557 | the printed when reads back as the gates if and only if all of them are task names |
| WorkflowCompiler.GetWorkflowTemplateDAGTasks | internal/controller/sensorbuilder/sensor_trigger_tasks.go:105-442 | the loop over the steps gives the compiled tasks, or the first failure; what those tasks say is in the rows of TaskParameters, and when there are any in those of CompileOutcomes |
| WorkflowCompiler.TaskOfStep | internal/controller/sensorbuilder/sensor_trigger_tasks.go:117-440 | one task per step, in order, each compiled from its own step |
| CompileOutcomes.FirstFailureIsReported | internal/controller/sensorbuilder/sensor_trigger_tasks.go:105-442 | compilation fails exactly when some deploy step finds no single image or has a bad repository url; the first such step is reported, and the missing image before the url |
| CompileOutcomes.CompilesExactly | internal/controller/sensorbuilder/sensor_trigger_tasks.go:319-383 | with known dependencies and non-empty paths, steps compile if and only if every deploy step reaches exactly one publish step and names a repository |
| TaskParameters.BuildTasksSay | internal/controller/sensorbuilder/sensor_trigger_tasks.go:117-318 | the task of every build step builds the Dockerfile and the context that the step gives, of the revision that the workflow is for, and refers to the shared template of its kind, or to one of its own if the step adds anything to its container |
| TaskParameters.DeployTasksSay | internal/controller/sensorbuilder/sensor_trigger_tasks.go:319-434 | the task of every deploy step edits the repository, branch and path or files that the step gives, for the revision that was built, with the template of its kind, and names the application of the step |
| TaskParameters.FilesAreReadBack | internal/controller/sensorbuilder/sensor_trigger_tasks.go:402-405 | the files of a create-PR step are read back from its task, unless one of them has a blank in it |
| TaskParameters.NamedApplicationsWatchExactly | internal/controller/sensorbuilder/sensor_trigger_tasks.go:331-371 | the application that an ArgoCD task names watches the files that the task edits if and only if the first step of its name edits the same ones |
| WorkflowCompiler.TemplateNamesAreDistinct | internal/controller/sensorbuilder/sensor_triggers.go:56-70 | for any number of steps the template names of the workflow are distinct, inline ones of both bases and "main" included |
| WorkflowCompiler.InlineTemplatesResolve | internal/controller/sensorbuilder/sensor_trigger_tasks.go:161-219 | every task that uses an inline template finds exactly one of its name |
| WorkflowCompiler.ArgoTasksAreLinkedExactly | internal/controller/sensorbuilder/sensor_trigger_tasks.go:320-371 | every ArgoCD task names the namespace and name of a built application if and only if application names decide organisations |
| WorkflowCompiler.TasksCanMissTheirApplication | internal/controller/sensorbuilder/sensor_trigger_tasks.go:320-371 | for any two organisations, repositories of one name deployed from one path give steps that compile and build applications, and an ArgoCD task whose application is not among them |
| WorkflowRuns.VerdictsAgree | internal/controller/sensorbuilder/sensor_trigger_tasks.go:533-574 | on every board, reading the two printed strings gives the decision the graph of steps means |
| WorkflowRuns.EngineFollowsFlow | internal/controller/sensorbuilder/sensor_trigger_tasks.go:105-442 | a sequence of events is a run of the generated workflow exactly when it is one of the graph, with the same statuses |
| WorkflowRuns.CyclesNeverStart | internal/controller/sensorbuilder/sensor_trigger_tasks.go:562-574 | a step that depends on itself never starts |
| WorkflowRuns.DeploysOnlyWhatWasBuilt | internal/controller/sensorbuilder/sensor_trigger_tasks.go:320-436 | in every run, a started deploy task has all transitive dependencies succeeded, no gating dependency that reported Skipped, and the image directory of the one publish step among them |
| WorkflowRuns.DeploysWhatItsDependencyPushes | internal/controller/sensorbuilder/sensor_trigger_tasks.go:219-436 | repository, directory and revision of the image that a deploy task consumes are those that the one publish task among its dependencies pushes |
| WorkflowRuns.BuildThenDeploy | internal/controller/sensorbuilder/sensor_trigger_tasks.go:533-574 | a publish step and the ArgoCD step that depends on it compile, and after the build has succeeded the deploy may start if and only if the build did not report Skipped |
| WorkflowRuns.ImageDirectoryIsRight | internal/controller/sensorbuilder/sensor_trigger_tasks.go:320-325 | that image directory, for every deploy step of every compiled Flow |
| Templates.GetStepArtifacts | internal/controller/sensorbuilder/sensor_trigger_tasks.go:198-210 | the loop gives every artifact its name, prefixed path and prefixed key, in order |
| Templates.Specialise | internal/controller/sensorbuilder/sensor_trigger_tasks.go:173-211 | the copy has new container objects and the specialised contents; nothing that existed is written |
| Templates.GetAdditionalTemplates | internal/controller/sensorbuilder/sensor_trigger_tasks.go:117-318 | the global templates stay as they were, and no container set or container array is shared between inline templates |
| Templates.CompileTwice | internal/controller/sensorbuilder/sensor_trigger_tasks.go:117-318 | compiling twice gives equal contents and shares nothing |
| Templates.ContentsAreNamed | internal/controller/sensorbuilder/sensor_trigger_tasks.go:173-175 | the inline templates carry the names that tasks refer to |
| Templates.ExtrasStayWithTheirStep | internal/controller/sensorbuilder/sensor_trigger_tasks.go:177-211 | what a step adds reaches only its own template: mounts only the first container, volumes, and one output for each artifact with the artifact's path, key and optionality |
| GitUrl.ParsedExactly | internal/gitutil/gitutil.go:13-31 | a URL parses to an organisation and a name exactly when it spells them, with or without ".git" |
| GitUrl.ParseInvertsPrint | internal/gitutil/gitutil.go:13-31 | parsing inverts printing; without the suffix exactly when the name does not itself end in it |
| GitUrl.GlobCovers | internal/gitutil/gitutil.go:33-39 | an organisation's glob covers every URL that parses to it |
| GitUrl.GlobCoversNoOther | internal/gitutil/gitutil.go:33-39 | and no URL of another organisation |
| AppBuilder.BuildArgoApps | internal/controller/appbuilder/app_builder.go:39-129 | one pass gives one project per organisation and one application per name, each from the first step that has it, in order of those steps, or the first URL error; what names tell apart and what is built say is in the rows of Applications |
| AppBuilder.BuiltAsItShould | internal/controller/appbuilder/app_builder.go:39-129 | the lists of that pass have each organisation and each name once, each from its first step, and leave none out |
| AppBuilder.EveryApplicationIsAdmitted | internal/controller/appbuilder/app_builder.go:52-81 | every application is admitted by a project of the same output |
| AppBuilder.LinkedExactlyWhenNamesDecideOrgs | internal/controller/appbuilder/app_builder.go:84-90 | every ArgoCD step's namespace and name belong to an application if and only if steps that share a name share an organisation |
| Applications.NamesTellPathsApart | internal/controller/appbuilder/app_builder.go:131-137 | two deploy steps of one repository name have the same application name if and only if their paths are the same but for which of the two separators stands where |
| Applications.NamesStartWithTheRepository | internal/controller/appbuilder/app_builder.go:131-137 | a name is that of the repository, without the suffix of configuration repositories, and then the path |
| Applications.ApplicationsSay | internal/controller/appbuilder/app_builder.go:84-124 | every application deploys the repository and path of the first step of its name, within its own organisation throughout, and syncs by itself exactly when that step gives no pause reason that says anything |
| Applications.ProjectsSay | internal/controller/appbuilder/app_builder.go:52-81 | every project is that of one organisation and admits only its repositories, applications and namespace |
| Applications.OneHasItsOwnExactly | internal/controller/appbuilder/app_builder.go:84-90 | a step has an application that deploys its repository and path if and only if the first step of its name deploys the same |
| Applications.AllHaveTheirOwnExactly | internal/controller/appbuilder/app_builder.go:84-90 | every deploy step has one if and only if application names decide repository url and path |
| Applications.DashesHideADeployment | internal/controller/appbuilder/app_builder.go:131-137 | for every repository, two steps of which only the first gets an application |
| DockerfileDir.SuffixIsWellFormed | internal/controller/sensorbuilder/sensor_trigger_tasks.go:510-529 | the image suffix is empty, or starts with a slash and does not end with one |
| DockerfileDir.SuffixOfDefaultPath | api/v1alpha1/flow_defaulter.go:86-91 | the suffix of the default path is the context directory with a leading slash ensured and trailing slashes removed |
| DockerfileDir.SuffixOfNamedFile | internal/controller/sensorbuilder/sensor_trigger_tasks.go:510-529 | a Dockerfile called "Dockerfile.x" has its directory and x as its suffix |
| FlowDefaulter.ApplyDefaults | api/v1alpha1/flow_defaulter.go:29-84 | triggers, steps and deadline are completed in place up to the first unknown kind; what follows it stays as it was, and the deadline is set exactly when all triggers are known |
| FlowDefaulter.DefaultTriggers | api/v1alpha1/flow_defaulter.go:30-47 | triggers are completed up to the first unknown kind; the deadline is the longer one exactly when some trigger is a push, wherever it stands |
| FlowDefaulter.DefaultsComplete | api/v1alpha1/flow_defaulter.go:53-82 | defaulting sets all the compiler dereferences, overrides nothing, and changes a step exactly when it was incomplete |
| FlowDefaulter.TriggersKeepWhatIsGiven | api/v1alpha1/flow_defaulter.go:31-43 | given events and base refs are kept, and missing ones become the default of the kind of trigger |
| FlowDefaulter.StepsSayWhatIsGiven | api/v1alpha1/flow_defaulter.go:52-82 | every field of a step that the workflow compiler reads is what the Flow gives, or its default |
| FlowDefaulter.ImagesAreNamedAfterTheContext | api/v1alpha1/flow_defaulter.go:56-70 | a build step that gives only its context directory is published under that directory |
| FlowDefaulter.EmptyPathsNeedAnEmptyField | api/v1alpha1/flow_defaulter.go:61-69 | a Dockerfile path is empty after defaulting if and only if it was given as empty |
| FlowDefaulter.PreprocessedPathsAreNotEmpty | api/v1alpha1/flow_defaulter.go:53-82 | in the steps that preprocessing hands to the workflow compiler no publish step has the path that the image search mistakes for "not found", unless the Flow gives it |
| FlowProcessor.PreProcessFlow | api/v1alpha1/flow_processor.go:10-30 | parsed objects are completed in place and validated; the result is the specification's, or none exactly when a kind is unknown or validation fails |
| FlowProcessor.PreprocessesExactly | api/v1alpha1/flow_validator.go:9-34 | a Flow preprocesses if and only if it has triggers and steps of known kinds only, and no pull request trigger with an empty list of events |
| FlowProcessor.DeadlinesAre | api/v1alpha1/flow_defaulter.go:30-50 | the deadline is the given one, or an hour if any trigger is a push and a quarter of an hour otherwise |
| FlowProcessor.ProcessedSaysWhatIsGiven | api/v1alpha1/flow_processor.go:10-30 | triggers and steps reach the builders in order, each saying what the Flow says |
| EventSourceMerge.MergeOwnedRepos | internal/controller/flow_controller.go:647-674 | the loop does what merging means in place, reports whether an update is needed, and crashes exactly when the object has no map |
| EventSourceMerge.MergeAddsOnePair | internal/controller/flow_controller.go:655-673 | merging adds the pair asked for, adds no other and forgets none |
| EventSourceMerge.NeededExactlyWhenMissing | internal/controller/flow_controller.go:655-660 | for every list and owner: for all names an update is needed exactly when the pair is missing, if and only if the owner's first entry has every name that another entry of it has; distinct owners suffice |
| EventSourceMerge.NeededUnlessHidden | internal/controller/flow_controller.go:655-660 | for one pair: an update is needed exactly when it is missing, unless it stands in a later entry of the owner and not in the first |
| EventSourceMerge.MergeIsIdempotent | internal/controller/flow_controller.go:647-674 | merging again changes nothing and asks for nothing |
| EventSourceMerge.MergeKeepsOwnersUnique | internal/controller/flow_controller.go:655-670 | owners that are distinct stay distinct, in the same order |
| EventSourceMerge.HiddenPairsAreAddedAgain | internal/controller/flow_controller.go:656-662 | a repository list in which a listed pair is added once more |
| EventSourceRuns.StepKeepsInv | internal/controller/flow_controller.go:531-571 | reads of any version, accepted and refused writes, lost answers and other writers keep the invariant |
| EventSourceRuns.RepositoriesAreConserved | internal/controller/flow_controller.go:531-571 | after any interleaving the listed repositories are the initial ones and those whose write took effect; all reported as synced are listed; the section's settings, the other sections and the rest of the object are their last writer's |
| EventSourceRuns.ListsNeverShrink | internal/controller/flow_controller.go:557-565 | a repository listed at some point of a run stays listed |
| EventSourceRuns.AFreshRoundSucceeds | internal/controller/flow_controller.go:533-571 | from every state with its map, one undisturbed round lists the repository |
| GitHubSettings.NormalRulesetsConform | internal/controller/ghsettings/ghsettings.go:279-521 | a ruleset is as desired exactly when normalising leaves it alone, and normalising gets there in one go |
| GitHubSettings.SyncNormalises | internal/controller/ghsettings/ghsettings.go:98-533 | a sync makes a repository conform, changes nothing exactly when it conformed, twice is once, other rulesets and settings stay |
| GitHubSync.CorrectSettings | internal/controller/ghsettings/ghsettings.go:127-227 | the fetched flags end as desired with the rest unchanged; a difference is reported exactly when they were not |
| GitHubSync.CorrectConditions | internal/controller/ghsettings/ghsettings.go:324-366 | the same for conditions; a missing object is replaced by the shared one |
| GitHubSync.CorrectRules | internal/controller/ghsettings/ghsettings.go:368-521 | the same for rules, pull request rule and status checks |
| GitHubSync.CorrectRuleset | internal/controller/ghsettings/ghsettings.go:279-521 | the fetched ruleset ends as desired, a difference is reported exactly when it was not, and the shared desired objects are never written |
| GitHubServer.SyncRepoRulesets | internal/controller/ghsettings/ghsettings.go:244-533 | list, fetch, correct in place and write have the effect of the specification: the first ruleset called "default" is normalised, or one is created |
| GitHubServer.SyncGitHubSettingsForRepo | internal/controller/ghsettings/ghsettings.go:98-547 | the sync has the effect of the specification whichever calls fail, and leaves the shared desired objects as they were |
| GitHubServer.SyncRepositoryIs | internal/controller/ghsettings/ghsettings.go:98-547 | that effect: success means the repository conforms, one write for the settings and one for the rulesets were issued exactly when they did not, a conforming repository is not written and others never are; without failures it succeeds exactly for installed repositories |
| GitHubServer.SyncMany | internal/controller/ghsettings/ghsettings.go:26-81 | any sequence of syncs composes their effects and leaves the shared objects as they were |
| GitHubServer.SyncAllIs | internal/controller/ghsettings/ghsettings.go:26-81 | such a sequence changes no repository that it does not name and none that conforms; without failures every named installed one ends conforming |
| Cluster.SyncOneOwn | internal/controller/flow_controller.go:276-332 | fetching one object and bringing it to its desired form gets there on success and leaves it alone if it is there, if reads are fresh or no older version misleads; it keeps older versions from misleading |
| Cluster.SyncListKeeps | internal/controller/flow_controller.go:141-343 | a list of objects brought to their forms in order, up to the first failure, does that for each of them |
| Cluster.SyncListIsQuiet | internal/controller/flow_controller.go:141-343 | a list that is there stays unchanged whatever fails; with fresh reads, or on success, no write is attempted |
| FlowWants.WantsAreCoherent | internal/controller/flow_controller.go:143-343 | within a Flow each object key is wanted in one form, and all Flows want the shared objects of a namespace or organisation in the same form |
| FlowWants.ApplicationKeysDiffer | internal/controller/appbuilder/app_builder.go:84-124 | the applications built for a Flow have distinct keys, so every Flow gives a job in which each object is wanted in one form |
| FlowWants.BuildableFlows | internal/controller/flow_controller.go:346-529 | a Flow can be reconciled exactly when it preprocesses to triggers of one kind and steps that compile, its repositories parse, the first step of each application name is in the Flow's own organisation, and its trigger names a repository |
| Reconciler.FlowReconciler.Sync | internal/controller/flow_controller.go:276-332 | one object's fetch, comparison and create, update or recreate has the model's effect, and drift is reported exactly when a write was sent |
| Reconciler.FlowReconciler.ReconcileNamespace | internal/controller/flow_controller.go:141-343 | the five objects in order, with the cache, have the model's effect; drift is reported exactly when a write was sent |
| Reconciler.FlowReconciler.ReconcileProjects | internal/controller/flow_controller.go:362-410 | the loop over the projects, with the cache, has the model's effect; drift is exact |
| Reconciler.FlowReconciler.ReconcileApplications | internal/controller/flow_controller.go:412-455 | the loop over the applications has the model's effect, the refusal of an owner in another namespace after fetching included; drift is exact |
| Reconciler.FlowReconciler.ReconcileSensor | internal/controller/flow_controller.go:457-511 | the sensor, whose specification holds the workflow compiled from the steps, is synced, rejected or crashes as the model says |
| Reconciler.BuildSensor | internal/controller/sensorbuilder/sensor_builder.go:14-40 | building a sensor fails, crashes or gives the specification with the compiled workflow as the model says |
| Reconciler.FlowReconciler.ReconcileEventSource | internal/controller/flow_controller.go:534-571 | fetch of any version, merge in place and version-checked write have the model's effect |
| Reconciler.FlowReconciler.ReconcileRepo | internal/controller/flow_controller.go:531-589 | EventSource, GitHub settings and cache together have the model's effect |
| Reconciler.FlowReconciler.SetCondition | internal/controller/flow_conditions.go:13-36 | the status update, skipped if the copy in hand has the condition and refused if that copy is old, and the fetch after it have the model's effect |
| Reconciler.FlowReconciler.Reconcile | internal/controller/flow_controller.go:106-606 | for every Flow, whichever calls fail and whichever reads are stale, the outcome and the whole new world are those of the model, rejections included (see ReconcilerRejects); a Flow that is gone is ignored |
| Reconciler.ReconcileAll | internal/controller/flow_controller.go:106-606 | any sequence of reconciles by one controller is a run of the model |
| Reconciler.ReconcileAfterRestart | internal/controller/flow_controller.go:106-606 | whatever earlier reconciles left behind, an undisturbed reconcile by a new controller succeeds exactly for Flows that can be built and served, brings about all they ask for, and writes nothing if it is already there; it rejects exactly the Flows that get rejected, and leaves them not Ready and saying why |
| ReconcilerRuns.ReconcileStaysSure | internal/controller/flow_controller.go:50-67 | a reconcile of any job, failing or not and with stale reads, keeps what the caches say of an object true, if reads are fresh or no older version misleads, and keeps older versions from misleading |
| ReconcilerRuns.ReconcileStaysSureOfRepo | internal/controller/flow_controller.go:531-589 | the same of a repository, its entry in the EventSource and its settings |
| ReconcilerRuns.CachesNeverLie | internal/controller/flow_controller.go:50-67 | over every run with failures, stale reads and restarts, from a start without older versions: a remembered project or repository is there as wanted, and so is a remembered namespace whose role binding was absent or right at the start |
| ReconcilerRuns.FreshCachesNeverLie | internal/controller/flow_controller.go:50-67 | with fresh reads all three caches are right in every run from any cluster whatsoever |
| StaleBinding.NamespacesAreSoundExactly | internal/controller/flow_controller.go:308-320 | the namespace cache is right in every run if and only if the role binding was absent or had the wanted role at the start |
| StaleBinding.TheBindingGetsLost | internal/controller/flow_controller.go:308-320 | for every cluster with a binding to another role, a run of failures and stale reads after which the namespace is remembered and its binding is gone |
| ReconcilerResults.SyncedMeansDesired | internal/controller/flow_controller.go:591-606 | every successful reconcile, whatever the caches skipped, ends with all the Flow asks for there, if reads can be trusted |
| ReconcilerResults.NothingToDo | internal/controller/flow_controller.go:106-606 | when all is there a reconcile changes nothing, whatever fails and whatever is read stale; it attempts no write if it succeeds or reads nothing stale |
| ReconcilerResults.UndisturbedSucceeds | internal/controller/flow_controller.go:106-606 | without failures a reconcile succeeds exactly when the Flow can be built, the EventSource can be merged into and the app is installed for the repository |
| ReconcilerResults.OnlyTheMapIsMissing | internal/controller/flow_controller.go:652-673 | for every buildable Flow: it fails with an EventSource without its map and succeeds with an empty one |
| ReconcilerResults.NilMapBlocksEveryJob | internal/controller/flow_controller.go:652-673 | while the EventSource has no map, no Flow with a new repository succeeds, whichever calls fail and whatever is read, unless a stale read shows a version that lists the repository |
| ReconcilerResults.DesiredStays | internal/controller/flow_controller.go:412-455 | reconciles of Flows that want shared keys in the same form keep what this one wants, through failures, stale reads and restarts |
| ReconcilerResults.StartIsSteady | internal/controller/flow_controller.go:308-320 | from a start with a good role binding no older version misleads, which is what the results above ask of stale reads |
| ReconcilerResults.OneSuccessIsEnough | internal/controller/flow_controller.go:106-606 | after one success all the Flow asks for stays there and its later reconciles change nothing, through failures, restarts, stale reads and agreeing Flows |
| ReconcilerResults.ReadyAfterSuccess | internal/controller/flow_controller.go:591-603 | after a success the Flow is Ready if and only if it was before or the cluster lacked, before the reconcile, something of what the Flow asks for and the fetched copy of the Flow did not say Ready; with fresh reads the copy does not matter |
| ReconcilerResults.ASuccessThatIsNotReady | internal/controller/flow_controller.go:571-603 | for every buildable Flow that is not Ready: a first reconcile that stops at GitHub, and a retry that succeeds without reporting Ready |
| ReconcilerRejects.UnbuildableIsNotMadeReady | internal/controller/flow_controller.go:121-138 | whichever calls fail and whatever is read stale, a reconcile never makes a Flow Ready that cannot be built, and touches the status of no other Flow |
| ReconcilerRejects.RejectionsSayWhy | internal/controller/flow_controller.go:121-138 | a rejection with fresh reads leaves the newest condition False, with the reason of the first stage that fails; without failures a Flow is rejected if and only if some stage does |
| ReconcilerRejects.NewRejectionsTakeThreeCalls | internal/controller/flow_conditions.go:13-36 | a new rejection fetches the Flow, updates its status and fetches it again; it is retried exactly when one of these fails, and recorded exactly when the update took effect |
| ReconcilerRejects.FlowsAreRejectedFor | internal/controller/flow_controller.go:121-529 | in terms of the Flow: which of the four reasons applies first, to ill-formed Flows, bad repository urls, mixed triggers or steps that do not compile, and a first trigger without a repository |
| ReconcilerRejects.NothingIsSaidTwice | internal/controller/flow_conditions.go:13-36 | a rejection with fresh reads leaves a status alone that says so already |
| ReconcilerRejects.ReadyFlowsWereBuilt | internal/controller/flow_controller.go:591-603 | over every run, a Flow is Ready at the end only if it was at the start or could be built when it was reconciled |
| ReconcilerRejects.RejectedFlowsGetThisFar | internal/controller/flow_controller.go:345-529 | what a rejected Flow has in the cluster nevertheless, for each of the four reasons |
| CachedCalls.SuccessIsRemembered | internal/controller/flow_controller.go:341-343 | a successful reconcile is remembered in all three caches, and no reconcile forgets anything |
| CachedCalls.OnlyRestartsForget | internal/controller/flow_controller.go:50-67 | over every run without restarts what was remembered stays so |
| CachedCalls.RememberedFlowsCostLittle | internal/controller/flow_controller.go:106-606 | a reconcile of a remembered Flow whose applications and sensor are in order makes exactly one call for the Flow, one per application and one for the sensor |
| Deployments.DesiredCarriesTheWorkflow | internal/controller/sensorbuilder/sensor_triggers.go:45-97 | while all that a Flow asks for is in the cluster, its stored sensor holds the text of exactly one workflow, the one compiled from the preprocessed Flow |
| Deployments.SuccessStoresTheWorkflow | internal/controller/flow_controller.go:457-511 | every successful reconcile leaves that workflow in the cluster |
| Deployments.StoredWorkflowsDeployWhatTheyBuilt | internal/controller/flow_controller.go:457-511 | in every run of whatever workflow the stored sensor of such a Flow starts, a started deploy task has had all transitive dependencies succeed and deploys the image directory of the one publish step among them |
| DeployedWorkflows.OnlyItIsStored | internal/controller/sensorbuilder/sensor_triggers.go:45-97 | the stored sensor starts no workflow but the one compiled from the preprocessed Flow, to which the next three rows apply |
| DeployedWorkflows.WorkflowIsTheFlows | internal/controller/sensorbuilder/sensor_triggers.go:45-97 | the stored workflow carries the name, the kinds of triggers and the deadline of the Flow |
| DeployedWorkflows.TaskSaysWhatTheStepGives | internal/controller/sensorbuilder/sensor_trigger_tasks.go:105-442 | every step of the Flow has its task in the stored workflow, whose parameters are the fields that the Flow gives, or their defaults |
| DeployedWorkflows.TemplateHasWhatTheStepAdds | internal/controller/sensorbuilder/sensor_trigger_tasks.go:161-219 | a task with a template of its own finds exactly one in the stored workflow, with what the Flow's step adds to its container and nothing else |
| DeployedObjects.NamespaceIsSetUp | internal/controller/flow_controller.go:141-343 | while all that a Flow asks for is there, its namespace has its event bus, cache volume, account, role and binding |
| DeployedObjects.ProjectStands | internal/controller/flow_controller.go:362-410 | every organisation that it deploys for has its project among the ArgoCD ones |
| DeployedObjects.EveryDeployStepHasItsApplication | internal/controller/flow_controller.go:412-455 | if names decide deployments, every ArgoCD step has an application in the Flow's namespace that deploys the step's repository and path |
| DeployedObjects.SensorStands | internal/controller/flow_controller.go:457-511 | the Flow has its sensor, built for its triggers |
| DeployedObjects.RepositoryIsListed | internal/controller/flow_controller.go:618-646 | the repository of the Flow's first trigger is listed in the shared EventSource |
| DeployedObjects.RepositoryIsProtected | internal/controller/ghsettings/ghsettings.go:98-533 | and its settings on GitHub allow squashed pull requests only, and demand the check of the Flow on the default branch, each value spelled out |
| Text.SplitUndoesJoin | internal/controller/sensorbuilder/sensor_trigger_tasks.go:557-573 | splitting at the separator undoes joining, for separators that no part contains |
| Text.DecimalIsInjective | internal/controller/sensorbuilder/sensor_trigger_tasks.go:174-174 | different numbers are printed differently in template names |

## Left out

- HTTP handlers, websocket input and output, JSON, logging and MySQL access. A message is a topic with items, an error or an opaque value; a client message is well formed.
- HubFailures.ALateSenderPanics: the atomic check-and-select of `sendConn` is granted only to the hub and the senders it waits for; other goroutines can meet a closed channel, and the lemmas say exactly when.
- HubProgress.ReturnsExactlyWhenNotWedged: says that the hub can return, by a run that it gives; request goroutines that take a writer's every turn can hold the hub up, and the bound of HubProgress.AwayIsBounded counts those turns.
- LogStream.BatchesAreAPrefix: batch contents are those at the moment of handing over; the program reuses the slice afterwards. Time is an armed or fired timer.
- Initial and final tasks of a workflow, trigger parameter tables, and the literal bodies of the cluster workflow template.
- WorkflowRuns.EngineFollowsFlow: dependency names are task names as the workflow engine requires; retries, timeouts and workflow-wide failure are not modelled.
- Templates.Specialise: volume mounts and volumes are values; the program allocates new slices when it appends to them.
- DockerfileDir.SuffixIsWellFormed: lower-casing is ASCII only.
- ReconcilerRuns.CachesNeverLie: nobody but the controller writes the objects it manages; other writers are modelled for the EventSource only, in EventSourceRuns.
- GitHubServer.SyncRepositoryIs: GitHub is not read through a cache, so its reads are current.
- The comparison of objects is field by field on string maps, ignoring unset desired fields; the server fills only unset fields. A drift in a field that is desired as unset is never seen, as in the program.
- What the builders of cluster objects fill in is a parameter, and so is whether the JSON of a Flow's triggers and steps decodes.
- Deployments.DesiredCarriesTheWorkflow: marshalling workflows to JSON is a parameter, assumed to write different ones differently.
- Owner references, except that one across namespaces is refused.
- GitHubServer.SyncGitHubSettingsForRepo: the server stores what it is sent, and the list of rulesets comes in one page.
- The ArgoCD token cache, the MySQL workflow index, `backfill` functions, generated deep copies and CRD files.
