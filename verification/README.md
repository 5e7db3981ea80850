# The K8Boss operator: its reconcile protocol, modelled and proved

The operator turns `SegmentationPolicy` and `RuntimeSecurityPolicy` objects into
edges of a knowledge graph, through a control-plane API, and drives that API's kill
switch from a singleton `PlatformConfig`. Its code is short, but what its comments
promise is about whole runs: no edge without an object whose finalizer will close it,
no Ready=True without a confirmed answer behind it, nothing changes while the switch
is on or cannot be read. This project states those promises over every run of the
whole system and proves them, or proves exactly when they hold.

Check it with `dafny verify dfyconfig.toml` (Dafny 4.11). A few proofs are large; add
`--resource-limit 2000000 --verification-time-limit 0` for a fixed budget.

## How it is built

| layer | files |
|---|---|
| values: objects, conditions, errors, results | `Types` |
| decisions: error reasons, wire form, error envelope, client outcome, provider health, condition list, startup | `Errors`, `Wire`, `Envelope`, `Client`, `Providers`, `Conditions`, `Startup` |
| one policy pass as micro-steps, and everything about one policy key | `PolicyMachine`, `PolicyCell` |
| one PlatformConfig: its pass and everything about its name | `ConfigCell` |
| the code itself: classes and methods, each taking exactly those micro-steps | `Reconciler`, `ConfigReconciler` |
| the control planes: their flags and what their answers promise | `ControlPlane` |
| the system: all keys, all names, crashes, restarts, users, the flags | `System` |
| what every run keeps | `PolicyHistory`, `ConfigCell`, `Orphans`, `Schedules`, `KillSwitch`, `Inert` |
| progress and convergence | `Progress`, `Convergence`, `SwitchFollows` |
| quiescence, independence | `Quiescence`, `Independence` |

A *cell* is one key: the object's versions in the API server (`versions[rv]` is the
object at resourceVersion `rv`), how far the cache is known to have come, the pass in
progress, the request in flight, the open edges by target (backend and cluster id),
and a log of opened gates and answered calls. A *step* is one micro-step of a pass,
one thing the control plane does, or one thing a user does. The *system* interleaves
the steps of any number of cells, and can restart the process between any two, with another backend, cluster
id or singleton name, or unconfigured.

`Reconciler` and `ConfigReconciler` are the Go methods as Dafny methods over a mutable
copy of the object and a world that answers arbitrarily. Between any two calls of a
pass the world may move: users act, PlatformConfigs and flags change, a predecessor's
request is served. The contracts say that a pass, whatever it is answered, is a
sequence of enabled micro-steps, its own and others', from the state it started in,
that it runs to its end, and that it returns the specified outcome of its answers. So
every invariant of the steps is one of the code (`RunsKeep`, `PassesKeep`). The two
policy reconcilers run the same steps in the repository; they are one class here,
which branches on the kind of spec where they differ (consistency check, error branch,
confirmed status field).

## What is assumed of the environment

- One active manager, and one pass at a time for a key. A process stops between any
  two steps; what it had sent stays in flight.
- A policy is read from a cache that may lag without bound but never goes behind what
  was read before, also across restarts. The PlatformConfig a gate reads may be any
  version there ever was of the name its process answers to.
- Writes use optimistic concurrency on resourceVersion. They may be refused, fail
  unapplied, or be applied with the answer lost. A write that changes nothing makes no
  new version. A deleting object without finalizers is gone. Marking an object for
  deletion, like a spec change, raises its generation, as Kubernetes does.
- Users create, edit and delete anything, and add and remove finalizers, but do not
  write `k8boss.io/cr-edges` or status. A re-created name has a new uid.
- A request is served at any later time, or never, at most once, and before the next
  call for its key; its answer may be lost. Only the client itself answers
  `UnconfiguredError` (`Client.ReasonsFollowTheExchange`).
- The control plane keeps the contract written beside the client's calls, and may do
  anything else: a paused server applies nothing and answers with an error; an error
  that says paused or provider-unavailable means nothing was written; a close opens
  nothing, and if it answers ok with no unverified keys the edges are closed; setting
  the flag is not gated by it, and its answer reports the flag as it is. Any other
  error may have changed the edges in any way.
- A control plane is known by its URL, as the client keeps it: no two URLs lead to the
  same one, and there may be one behind any URL a process is configured with. Each has its own pause flag, of any initial value; one whose flag was
  never set is paused.
- Conditions follow apimachinery's `SetStatusCondition`.

## Where the code does not do what is written about it

- *Unconfigured release.* Releasing the finalizer without a close call is said to be
  safe because an unconfigured operator never reconciled the object
  (`internal/controller/segmentationpolicy_controller.go:239-255`), but being
  configured is a fact about one process. A process configured elsewhere is no better:
  it closes edges where they are not, and releases.
  `Schedules.NeverOrphansIff`: edges are never orphaned if and only if, once a process
  was configured and had a singleton name, every later one is configured for the same
  backend and cluster id. `Schedules.NewBackendOrphans` is one input that fails.
- *Provider unavailable.* A 503 of any category counts
  (`internal/backendclient/client.go:142-146`), also the one for a missing operator
  token (`cmd/main.go:124-128`). `Errors.ProviderClaimIsFaithfulIff` says for which
  answers the reason is right, and has the token's.
- *Unreachable.* BackendUnreachable is meant for an API that was never reached
  (`internal/controller/segmentationpolicy_controller.go:199-203`,
  `internal/backendclient/client.go:358-361`), but is also the reason for a call the
  API served and whose answer was lost, and for a body that could not be read or, in a
  2xx, decoded (`internal/backendclient/client.go:357-380`).
  `Client.UnreachableClaimIsFaithfulIff` says when it is right;
  `Client.ServedIsUnreachable` and `Client.UndecodableIsUnreachable` are inputs on
  which it is not, and `PolicyCell.ServedAndUnreachable` has the edges to show for it.
- *Reason and lastQueryError.* The type's comments ask for an empty `lastQueryError`
  only on a healthy entry of a query that succeeded, and for `reason` on every entry
  that is not healthy (`api/v1alpha1/platformconfig_types.go:62-70`). The code fills
  exactly one of the two: `Providers.LastQueryErrorContractIff` and
  `Providers.ReasonContractIff` say when each comment holds, `Providers.CommentsFail`
  has an input for each.
- *No hot loop.* An unconfigured operator is said to be paced and not to return errors
  (`internal/controller/common.go:90-95`), but PlatformConfig's `notReady` always
  returns one (`internal/controller/platformconfig_controller.go:217-226`):
  `ConfigCell.UnconfiguredIsSilentIff`, against `PolicyMachine.RequeueIsExact`, and
  `ConfigCell.UnconfiguredFails` for an input.
- *Singleton filter.* With an empty `PlatformConfigName` an object of any name drives
  the flag (`internal/controller/platformconfig_controller.go:64`):
  `KillSwitch.OnlyTheSingletonDrivesIff`.
- *Every path writes a condition.* So says the status comment
  (`api/v1alpha1/segmentationpolicy_types.go:39`), but a pass leaves none if it cannot
  read the object, or is refused any of its writes: the one that attaches the
  finalizer, the one that lets go of it, or the status write itself
  (`internal/controller/segmentationpolicy_controller.go:52-57`, 86-88, 122-124,
  219-221, 251-253, 276-278). `PolicyMachine.UntoldFailuresIff` says exactly which
  failures go untold; `PolicyMachine.RefusedFinalizerIsUntold` and
  `PolicyMachine.RefusedStatusIsUntold` are two. For PlatformConfig it is the read and
  the status write (`internal/controller/platformconfig_controller.go:54-56`, 137-139,
  222-224): `ConfigCell.UntoldFailuresIff`, `ConfigCell.RefusedStatusIsUntold`.
- *Dead return.* The last return of `reconcileError` is not reachable, because
  `notReady` without a delay returns an error itself
  (`internal/controller/segmentationpolicy_controller.go:200-205`):
  `Reconciler.PolicyReconciler.NotReady`.

## Model

| member | source | states |
|---|---|---|
| Schedules.NeverOrphansIff | internal/controller/segmentationpolicy_controller.go:239-255 | For every schedule of processes: no run leaves an open edge without a live object holding the finalizer, if and only if, once a process was configured with a singleton name, every later one is configured for the same backend and cluster id. |
| Schedules.NewBackendOrphans | cmd/main.go:143-145 | A restart that points the operator at another backend under the same cluster id has a run that orphans an edge. |
| Orphans.NoOrphansWhenDisciplined | internal/controller/common.go:27-32 | No orphaned edges in any reachable state of the interleaved system under a disciplined schedule: crashes, conflicts, stale caches, lost replies, re-creation under the same name. |
| Orphans.StepGuarded | internal/controller/segmentationpolicy_controller.go:63-95 | The inductive invariant behind it survives every step: open edges and requests that may open some belong to an object that holds the finalizer now, and so does whatever the cache may still serve as live. |
| Orphans.ReleaseGuarded | internal/controller/segmentationpolicy_controller.go:275-278 | Dropping the finalizer is safe: optimistic concurrency and the monotone cache leave no pass that could still open an edge for that life of the object. |
| Orphans.RunGuarded | internal/controller/common.go:27-32 | The invariant holds along every run, for every key, as long as the schedule stays disciplined. |
| Orphans.RestartGuarded | cmd/main.go:132-145 | A process that takes over keeps it: either it goes where edges were opened, or none can have been. |
| Orphans.StepCalm | internal/controller/common.go:149-161 | While no process was configured with a name to answer to, no key gets an edge or a reconcile request. |
| Schedules.UndisciplinedOrphans | internal/controller/runtimesecuritypolicy_controller.go:236-250 | Constructs, for every undisciplined schedule, a run of it that ends with an orphaned edge. |
| System.Invariant | internal/controller/segmentationpolicy_controller.go:49-126 | Every reachable state keeps everything PolicyHistory and ConfigCell say, of all keys and names at once, in any interleaving from any initial flag and process. |
| System.StatusIsBackedByHistory | internal/controller/common.go:36-39 | In every reachable state: observedGeneration does not exceed generation and is backed by a confirming answer to that generation's wire form, Ready=True names it, and the last-confirmed value comes from such an answer under an open gate. |
| System.ActionKeeps | internal/controller/segmentationpolicy_controller.go:49-126 | Any single action, a restart or an out-of-band write of the flag included, keeps that invariant. |
| PolicyHistory.StepKeeps | internal/controller/segmentationpolicy_controller.go:49-282 | Every step keeps a key's invariant: how versions follow one another, what the pass in hand knows, what each status is backed by; histories and logs only grow. |
| PolicyHistory.UpsertReplyIsOK | internal/controller/segmentationpolicy_controller.go:91-125 | Any answer leads to a status write that is either backed by that answer or leaves observedGeneration and the confirmed value as they were. |
| PolicyHistory.LifeOnlyAdvances | internal/controller/segmentationpolicy_controller.go:211-214 | Along one uid, generation and observedGeneration never go back, a generation names one spec, and deletion is final. |
| PolicyHistory.LifeIsContiguous | internal/controller/segmentationpolicy_controller.go:52-61 | A name deleted and created again starts a new life: the versions of one uid are consecutive. |
| PolicyHistory.ObservedGenerationIsEarned | internal/controller/segmentationpolicy_controller.go:91-119 | A nonzero observedGeneration g implies a call that sent the wire form of the spec of generation g and got a consistent 200. |
| PolicyHistory.ReadyNamesItsGeneration | internal/controller/common.go:108-120 | Ready=True implies that the condition's generation is status.observedGeneration, and that it is backed. |
| PolicyHistory.ConfirmedValueIsTheLast | internal/controller/runtimesecuritypolicy_controller.go:100-114 | resolvedFlowProvider and correlatedEvidenceCount equal what the most recent stored success of that life confirmed, under the flow provider the answered pass itself had read at its gate; zero if there was none: no failure path touches them. |
| PolicyHistory.EarnedValueIs | internal/controller/segmentationpolicy_controller.go:111-116 | Such a value in the fields of spec, gate and answer: providerRef if it is not empty, else the flow provider of the PlatformConfig the answered pass read; for a runtime policy edges_upserted, which equals matched_workloads. |
| PolicyHistory.OnlySuccessMakesReady | internal/controller/segmentationpolicy_controller.go:211-220 | A version that no success wrote has Ready=True only with the unchanged status of the version before it. |
| PolicyHistory.UngatedIsDeletable | internal/controller/segmentationpolicy_controller.go:63-89 | An object no pass of which read an open gate has no finalizer of ours and no reconcile request in flight, and with no foreign finalizer a delete removes it at once. |
| KillSwitch.BothLocksWereOpen | internal/controller/common.go:122-149 | Edges change only while the flag of their control plane is off, only by serving a request for that key and target, and for a reconcile only if its own pass read spec.paused=false; a close only removes edges. |
| KillSwitch.PausedGraphIsFrozen | internal/controller/common.go:122-125 | While the flag at a backend stays on, no edge of any key there opens or closes, in any run. |
| KillSwitch.ConfirmedPauseHolds | internal/controller/platformconfig_controller.go:70-85 | After a confirmed pause that every version the cache may serve asks for, the flag stays on and the graph frozen over any run in which nobody asks to resume; a restart asks to if it points a process that answers to another name at that backend. |
| KillSwitch.ConfirmationPauses | internal/controller/platformconfig_controller.go:72-85 | The delivered, matching read-back is a step into that state, if what other objects have on its way to that backend, if anything, is a pause too. |
| KillSwitch.PauseRequestPersists | internal/controller/platformconfig_controller.go:58-79 | No action but a request to resume leaves that state: not stale reads, late pushes, crashes, or restarts under any of the names that ask for the pause. |
| KillSwitch.ConfirmedPushConverges | internal/controller/platformconfig_controller.go:79-85 | A pass gets past its push exactly when the push was read back as applied, and then the flag at its process's backend equals the spec it read. |
| KillSwitch.OnlyPushesMoveTheFlag | internal/controller/platformconfig_controller.go:24-27 | A flag changes by a push applied at its server or out of band only: no policy pass, user edit, restart or deletion of a PlatformConfig changes it. |
| KillSwitch.FlagValuesComeFromTheSingleton | internal/controller/platformconfig_controller.go:36-68 | Every value a flag takes after its initial one, out-of-band writes apart, is a spec.paused that an object held at some version, pushed by a process of that run configured for that server; unless its singleton name is empty, the object is the one of that name. |
| KillSwitch.OnlyTheSingletonDrivesIff | internal/controller/platformconfig_controller.go:58-68 | Only the object of the configured name reaches the push, if and only if that name is not empty. |
| Inert.UnconfiguredIsInert | internal/backendclient/client.go:329-334 | Over any run of an unconfigured process nothing is sent, no edge changes, the flags move only out of band, and no policy and no PlatformConfig gets a version with Ready=True that is not the unchanged status of the version before. |
| Inert.IdleConfigStep | internal/controller/platformconfig_controller.go:217-226 | Each step of a PlatformConfig pass of such a process sends no push and makes no Ready=True. |
| Inert.UnconfiguredStartIsInert | internal/backendclient/client.go:63-78 | A freshly installed unconfigured operator is in the state that theorem starts from. |
| Inert.UnconfiguredRestartIsInert | internal/backendclient/client.go:79-81 | So is one restarted without its settings, provided no request of its predecessor is still in flight. |
| Progress.DeletionCompletes | internal/controller/segmentationpolicy_controller.go:230-282 | From any state with a Terminating object, every cooperating schedule longer than the state's rank releases it; with no foreign finalizer it is gone. |
| Progress.SomeStepCooperates | internal/controller/segmentationpolicy_controller.go:230-282 | Some cooperating step is always enabled, unless the close in hand is with a control plane that is paused: there is no other dead end. |
| Progress.PassStepDescends | internal/controller/segmentationpolicy_controller.go:230-273 | Every cooperating step but a write lowers the rank (cache lag, pass phase, request in flight) and keeps the history. |
| Progress.StoreDescends | internal/controller/segmentationpolicy_controller.go:217-282 | An answered write lowers the rank or is the release that ends the wait, with nothing left scheduled. |
| Convergence.ReconciliationCompletes | internal/controller/segmentationpolicy_controller.go:78-125 | From any state of a live policy, every cooperating schedule longer than the state's rank makes it Ready=True with observedGeneration equal to its generation. |
| Convergence.SomeStepHelps | internal/controller/segmentationpolicy_controller.go:78-125 | A configured operator with an open gate always has a cooperating step, unless its call is with a control plane that is paused. |
| Convergence.StepDescends | internal/controller/segmentationpolicy_controller.go:49-126 | Every cooperating step lowers the rank, or the policy is reconciled. |
| SwitchFollows.SwitchFollowsSpec | internal/controller/platformconfig_controller.go:70-85 | Whatever the flag was, after more cooperating steps of the singleton than the rank of its state, with any passes of policies between, the flag is at its current spec.paused, and so is everything that could still move it. |
| SwitchFollows.StepFollows | internal/controller/platformconfig_controller.go:50-144 | Every cooperating step lowers the rank until flag and spec agree, and never ends their agreement. |
| SwitchFollows.SomeStepHelps | internal/controller/platformconfig_controller.go:70-72 | There always is a cooperating step, paused or not: setting the flag is not gated by it. |
| Progress.OnlyAReleaseDropsTheFinalizer | internal/controller/segmentationpolicy_controller.go:275-278 | In any state, only a release write of a deleting object takes the finalizer off. |
| Progress.ReleaseComesFromAConfirmedClose | internal/controller/segmentationpolicy_controller.go:237-273 | A pass gets to that write only by a delivered confirmed close or by finding itself unconfigured. |
| Quiescence.PolicyQuiesces | internal/controller/segmentationpolicy_controller.go:322-327 | Nobody editing, however many passes run at whatever times and whatever fails: from a rested state the object is written at most twice (finalizer, status), and at most twice more for each time a gate or an answer was not the usual one. Usual is any one ending: a success, a gate shut for one reason, an unconfigured client, one same failure. So the unfiltered watch cannot loop in any steady state. |
| Quiescence.PausedPolicyQuiesces | internal/controller/segmentationpolicy_controller.go:63-82 | In a cluster that stays paused, or without a PlatformConfig, a rested policy is written at most once more, however long it goes on. |
| Quiescence.CallSettles | internal/controller/segmentationpolicy_controller.go:78-114 | Of all steps but writes, only such an unusual one adds to the writes still to come. |
| Quiescence.EndingSettles | internal/controller/segmentationpolicy_controller.go:116-125 | A pass that ends, in success or failure, writes a status that the same ending at any later time leaves unchanged. |
| Quiescence.PollIsAFixedPointIff | internal/controller/platformconfig_controller.go:150-176 | Polling the same control plane twice rewrites the same status if and only if no provider is reported or no time passed. |
| Quiescence.ConfigEnqueuesExactlyOnUsers | internal/controller/platformconfig_controller.go:284-302 | With the generation predicate, of all writes that change the object exactly those of users wake the reconciler. |
| Independence.StepsCommute | internal/controller/segmentationpolicy_controller.go:91-92 | Two adjacent steps on different policy keys can be swapped: both stay enabled and the state is the same. |
| Independence.MovePast | internal/controller/runtimesecuritypolicy_controller.go:87-88 | A step moves past a whole block of another key's steps. |
| Independence.InterleavingIsSerial | internal/controller/segmentationpolicy_controller.go:91-92 | Any interleaving of steps on any number of keys ends in the state where the serial order ends: no key comes back once another had its turn, and each key's steps are its own in their order. |
| Independence.OneKeyFirst | internal/controller/segmentationpolicy_controller.go:237-237 | One key's steps can all go first, the others keeping their order. |
| PolicyMachine.SilentIffNothingLeft | internal/controller/segmentationpolicy_controller.go:49-126 | A pass ends with no error and no requeue if and only if the object is absent, deleting without our finalizer, or just released. |
| PolicyMachine.RequeueIsExact | internal/controller/segmentationpolicy_controller.go:167-227 | Which of the delays 90, 300 and 600 seconds a pass asks for, in terms of what it was answered: exactly when each, and never beside an error. |
| PolicyMachine.UnconfirmedCloseIsRetried | internal/controller/segmentationpolicy_controller.go:257-273 | An unconfirmed close keeps the finalizer and the confirmed values, and the key is scheduled again whatever becomes of the status write. |
| PolicyMachine.FailureKeepsLastConfirmed | internal/controller/runtimesecuritypolicy_controller.go:178-190 | notReady leaves observedGeneration and the confirmed value alone and sets Ready to false for the attempted generation. |
| PolicyMachine.SuccessStampsGeneration | internal/controller/segmentationpolicy_controller.go:116-120 | A success stamps the same generation on the status and on Ready=True. |
| PolicyMachine.ConsistentIffConfirms | internal/controller/runtimesecuritypolicy_controller.go:117-140 | The ordered checks let a 200 pass exactly when its status is ok, nothing is unverified, the counts agree and, for a runtime policy, the provider is affirmed. |
| PolicyMachine.CheckPauseGate | internal/controller/common.go:140-179 | The gate opens only on a PlatformConfig that was read and says spec.paused=false; each other reading has its own reason. |
| PolicyMachine.GateSays | internal/controller/common.go:153-178 | What each reading of the PlatformConfig makes of the pass: the Ready condition, its reason, message and generation, the requeue of 90 seconds; and on an open gate nothing but the finalizer. |
| PolicyMachine.AnswerSays | internal/controller/runtimesecuritypolicy_controller.go:87-115 | What each answer to the call makes of the pass, by the error at its root or the result: reason, message, delay or error, the confirmed value and the generation; no other condition moves, and a failure keeps what was confirmed. |
| PolicyMachine.CloseSays | internal/controller/segmentationpolicy_controller.go:237-278 | What each answer to the close call makes of the pass: the finalizer goes exactly on a confirmation or without a client; a blocked deletion says Paused exactly on a pause (status 423 or category "paused"), after 90 seconds, and EdgeCloseFailed otherwise, as an error. |
| PolicyMachine.ConfirmedValueIs | internal/controller/segmentationpolicy_controller.go:111-116 | The provider recorded is the policy's own if it names one, else the cluster's; the evidence recorded is edges_upserted. |
| PolicyMachine.InconsistencyIsTheFirst | internal/controller/runtimesecuritypolicy_controller.go:125-140 | Which shortcoming of a 200 is told, in the order they are checked. |
| PolicyMachine.WriteErrorsAreExact | internal/controller/segmentationpolicy_controller.go:86-88 | Which error a pass returns for a failed read and for each refused write. |
| PolicyMachine.WithoutKeepsOrder | internal/controller/segmentationpolicy_controller.go:275-275 | The other finalizers stay in their order. |
| PolicyMachine.StatusIsAttemptedIff | internal/controller/segmentationpolicy_controller.go:49-126 | Exactly which passes attempt a status write: those over an object that is there, unless they let go of the finalizer, have none to let go of, or are refused when they attach it. |
| PolicyMachine.UntoldFailuresIff | internal/controller/segmentationpolicy_controller.go:52-88 | Exactly which passes end in an error that they know no condition tells of: a failed read, a refused attaching or removing of the finalizer, and a refused status write, lost answers counting as refusals. |
| PolicyMachine.RefusedFinalizerIsUntold | internal/controller/segmentationpolicy_controller.go:84-89 | A conflict on the write that attaches the finalizer is such a failure. |
| PolicyMachine.RefusedStatusIsUntold | internal/controller/segmentationpolicy_controller.go:217-221 | So is a conflict on the status write of a pass that found its gate shut. |
| PolicyMachine.Without | internal/controller/segmentationpolicy_controller.go:275-275 | Removing a finalizer removes every copy of it and nothing else. |
| Reconciler.PolicyReconciler.Reconcile | internal/controller/segmentationpolicy_controller.go:49-126 | Whatever the world answers and does meanwhile, the pass is a run of enabled micro-steps from the state it began in to its end, returns the specified outcome of the answers it had, and attempts a status write exactly when specified. |
| Reconciler.PolicyReconciler.Live | internal/controller/segmentationpolicy_controller.go:78-125 | The part over a live object: gate, finalizer, call. |
| Reconciler.PolicyReconciler.Call | internal/controller/runtimesecuritypolicy_controller.go:87-115 | The call and what follows it, from a held finalizer behind an open gate. |
| Reconciler.PolicyReconciler.Finalize | internal/controller/segmentationpolicy_controller.go:230-282 | finalize takes the steps of a closing pass, whose conditions are those of CloseSays, and returns the specified outcome. |
| Reconciler.PolicyReconciler.Release | internal/controller/segmentationpolicy_controller.go:275-282 | The finalizer is dropped by the write of the copy that was read, and a refused write is an error. |
| Reconciler.PolicyReconciler.ReconcileError | internal/controller/runtimesecuritypolicy_controller.go:160-209 | The branches of the two error maps amount to the classification of Errors, and the last return is dead. |
| Reconciler.PolicyReconciler.NotReady | internal/controller/segmentationpolicy_controller.go:215-227 | One condition write, then a requeue or an error; with no delay always an error. |
| Reconciler.PolicyReconciler.RecordSuccess | internal/controller/segmentationpolicy_controller.go:106-125 | The three assignments and the condition amount to the success status whose content AnswerSays states, and it is written. |
| Reconciler.PolicyReconciler.CheckGate | internal/controller/common.go:149-179 | The read and the switch after it amount to the gate decision. |
| Reconciler.PolicyReconciler.WireOf | internal/controller/runtimesecuritypolicy_controller.go:280-293 | What is sent is the wire form of the spec, for either kind. |
| Reconciler.Resource.AddFinalizer | internal/controller/segmentationpolicy_controller.go:84-85 | The copy gains the finalizer at the end and changes in nothing else. |
| Reconciler.Resource.RemoveFinalizer | internal/controller/segmentationpolicy_controller.go:275-275 | The copy loses the finalizer and changes in nothing else. |
| Reconciler.World.Get | internal/controller/segmentationpolicy_controller.go:52-57 | A read moves the cache forward only, and starts the pass the reply calls for. |
| Reconciler.World.GetConfig | internal/controller/common.go:150-151 | The gate's read: any version, none, or an error, and the pass goes on from its gate accordingly. |
| Reconciler.World.Update | internal/controller/segmentationpolicy_controller.go:86-88 | An update applies only to the version the copy was read at; accepted, the copy becomes the stored object, refused, it is as it was. |
| Reconciler.World.UpdateStatus | internal/controller/segmentationpolicy_controller.go:219-221 | A status write ends the pass as specified, accepted or refused. |
| Reconciler.World.Commit | internal/controller/segmentationpolicy_controller.go:122-124 | The stored history grows exactly as the specification's write step says. |
| Reconciler.World.CallReconcile | internal/backendclient/client.go:386-415 | The call is served, lost with its answer, or never arrives, while anything else moves; an unconfigured client sends nothing. |
| Reconciler.World.CallClose | internal/backendclient/client.go:418-431 | The same for the close endpoint. |
| Reconciler.RunsKeep | internal/controller/segmentationpolicy_controller.go:49-282 | Runs of micro-steps of one key keep PolicyHistory's invariant and, with a consistently configured process, leave no orphan. |
| Reconciler.PassesKeep | internal/controller/segmentationpolicy_controller.go:49-282 | So does every pass of the code: its world ends in a state with both. |
| ConfigCell.StepKeeps | internal/controller/platformconfig_controller.go:50-144 | Every step of one PlatformConfig keeps its invariant: versions follow one another, observedGeneration and Ready=True are backed by a confirmed push, only a governing object's own spec.paused is ever in flight. |
| ConfigCell.ProviderHealthIsTheLast | internal/controller/platformconfig_controller.go:88-112 | status.providerHealth is what the most recent stored poll reported, empty if there was none: a failed read leaves it alone. |
| ConfigCell.PushReplyIsOK | internal/controller/platformconfig_controller.go:72-85 | Any answer to the push leads to a state the invariant allows; only a matching read-back goes on to provider health. |
| ConfigCell.StartSays | internal/controller/platformconfig_controller.go:58-68 | An object of another name is told NotTheConfiguredSingleton and whom the operator answers to, and nothing else of it moves; any other goes to its push. |
| ConfigCell.PushSays | internal/controller/platformconfig_controller.go:72-85 | What each answer to the push makes of the pass: only a matching read-back goes on; a mismatch is WriteNotVerified with both values, an error has the reason of its root. |
| ConfigCell.PollSays | internal/controller/platformconfig_controller.go:105-136 | What a poll records: the entries, the generation, Ready=True with its counts, and ProviderHealthKnown=True exactly if every provider was determined, else False with the list of those that were not; no other condition moves. |
| ConfigCell.HealthSays | internal/controller/platformconfig_controller.go:87-103 | A failed health read sets ProviderHealthKnown=False and Ready=False with the reason of its root, and leaves the entries; a successful one records the poll. |
| ConfigCell.HealthReplyIsOK | internal/controller/platformconfig_controller.go:87-136 | A failed health read keeps the entries and the observed generation; a successful one stamps what it reported. |
| ConfigCell.OutcomeIsExact | internal/controller/platformconfig_controller.go:50-144 | A pass is forgotten if and only if the object is gone or has been told it governs nothing; it is paced at 120 seconds if and only if push, read-back, health read and status write all succeed; every failed call, an unconfigured one included, is an error. |
| ConfigCell.UnconfiguredIsSilentIff | internal/controller/platformconfig_controller.go:217-226 | An unconfigured pass ends without an error if and only if the object is gone or has been told it governs nothing, and is never paced. |
| ConfigCell.StatusIsAttemptedIff | internal/controller/platformconfig_controller.go:50-144 | Every pass over an object that is there attempts a status write, and no other. |
| ConfigCell.UntoldFailuresIff | internal/controller/platformconfig_controller.go:137-139 | A pass ends in an error that it knows no condition tells of if and only if the read failed or the status write was refused. |
| ConfigCell.RefusedStatusIsUntold | internal/controller/platformconfig_controller.go:222-224 | Whatever was answered before it, a refused status write is such a failure. |
| ConfigCell.UnconfiguredFails | internal/controller/platformconfig_controller.go:217-226 | The default object of an unconfigured operator ends its pass in an error, under AwaitingConfiguration. |
| ConfigReconciler.PlatformConfigReconciler.Reconcile | internal/controller/platformconfig_controller.go:50-144 | Whatever else happens meanwhile, the pass is a run of enabled micro-steps to its end and returns the specified outcome of its answers; it pushes at most once, the spec.paused of the governing object it read, and a requeue implies that this push was confirmed. |
| ConfigReconciler.PlatformConfigReconciler.Push | internal/controller/platformconfig_controller.go:70-103 | From the push on: nothing but the spec is pushed, a matching answer is a confirmed push, and the outcome is the specified one. |
| ConfigReconciler.PlatformConfigReconciler.ReadHealth | internal/controller/platformconfig_controller.go:87-103 | The health read and its two endings, with no further push. |
| ConfigReconciler.PlatformConfigReconciler.RecordHealth | internal/controller/platformconfig_controller.go:105-143 | The entries, the two conditions and the generation amount to the status whose content PollSays states, and it is written. |
| ConfigReconciler.PlatformConfigReconciler.NotReady | internal/controller/platformconfig_controller.go:217-226 | One condition write, and always an error. |
| ConfigReconciler.PlatformConfigReconciler.SetNotSingleton | internal/controller/platformconfig_controller.go:232-245 | The object says on itself that it governs nothing; nothing is pushed and nothing is requeued. |
| ConfigReconciler.PlatformConfigReconciler.PauseReason | internal/controller/platformconfig_controller.go:247-256 | The reason of a failed push says which of the three kinds of error is at the root, however wrapped, both ways. |
| ConfigReconciler.World.SetPaused | internal/backendclient/client.go:433-446 | A push is sent at most once; an answer equal to what was asked means that it was applied and that the flag at that backend had the value when it arrived. |
| ConfigReconciler.RunsKeep | internal/controller/platformconfig_controller.go:50-144 | Runs of micro-steps of one PlatformConfig keep ConfigCell's invariant. |
| ConfigReconciler.PassesKeep | internal/controller/platformconfig_controller.go:50-144 | So does every pass of the code. |
| Errors.ReasonsAreExact | internal/controller/runtimesecuritypolicy_controller.go:160-209 | Exactly one reason and delay for every error, decided by the root of its wrapping chain: when each reason is given, and no delay exactly for the three faults. |
| Errors.ReconcilersDifferExactlyOnProvider | internal/controller/segmentationpolicy_controller.go:167-206 | The two policy reconcilers differ on an error if and only if it is provider-unavailable and not paused. |
| Errors.ConfigReasonsAgree | internal/controller/platformconfig_controller.go:247-270 | The PlatformConfig reasons split errors the same three ways as the policy reconcilers. |
| Errors.ConfigReasonsAreExact | internal/controller/platformconfig_controller.go:247-270 | When each PlatformConfig reason is given, by the root of the error, and that the two maps differ on API errors only. |
| Errors.ProviderClaimIsFaithfulIff | internal/backendclient/client.go:138-146 | The reason ProviderUnavailable means what it says if and only if the answer is not an unpaused 503 of another category; the missing-token 503 is such an answer. |
| Errors.RootDecides | internal/backendclient/client.go:99-102 | The error predicates see through any wrapping. |
| Client.Do | internal/backendclient/client.go:329-382 | A call succeeds exactly on a decodable 2xx of a configured client, fails with the one root cause otherwise, and an unconfigured client sends nothing. |
| Client.ReasonsFollowTheExchange | internal/backendclient/client.go:357-381 | From what happened on the wire to the reason on the condition: exactly when each is AwaitingConfiguration, BackendUnreachable, Paused or ProviderUnavailable. |
| Client.StructuredRefusal | internal/backendclient/client.go:180-184 | The category, code and message of a structured detail reach the caller. |
| Client.PlainRefusal | internal/backendclient/client.go:186-196 | So do a string detail and its reason. |
| Client.RawRefusal | internal/backendclient/client.go:174-178 | Of any other body the bytes do, under no category and no code. |
| Client.RawRefusalFails | internal/controller/segmentationpolicy_controller.go:184-198 | Such a refusal is a pause only by status 423 and a missing provider only by status 503; otherwise it ends under ReconcileFailed, as an error. |
| Client.UnreachableClaimIsFaithfulIff | internal/backendclient/client.go:357-380 | BackendUnreachable on a failed call means that the API was never reached if and only if the API did not serve it unheard, and the failure is not a body that could not be read or, in a 2xx, decoded. |
| Client.UndecodableIsUnreachable | internal/backendclient/client.go:376-380 | A 200 that is not JSON is reported as unreachable. |
| Client.ServedIsUnreachable | internal/backendclient/client.go:357-361 | So is a call that timed out after the API had served it. |
| PolicyCell.ServedAndUnreachable | internal/controller/segmentationpolicy_controller.go:199-203 | In any state of a waiting pass at an unpaused server, the call can open any edges and the pass still end up explaining BackendUnreachable. |
| Envelope.ParseApiError | internal/backendclient/client.go:171-200 | The branches of parseAPIError amount to the four shapes of a body, whose content the round trips and FallsBackIff state. |
| Envelope.StructuredRoundTrip | internal/backendclient/client.go:180-184 | A rendered structured detail with a category or a code is read back whole, whatever else the body carries. |
| Envelope.PlainRoundTrip | internal/backendclient/client.go:186-196 | A rendered string detail is read back with its reason as code and category "cluster", or neither when the reason is empty. |
| Envelope.NullRoundTrip | internal/backendclient/client.go:186-196 | A null detail is read as an empty message with its reason. |
| Envelope.FallsBackIff | internal/backendclient/client.go:174-199 | Exactly which bodies are shown raw, in terms of their JSON: those that are not an object with a telling detail and a textual reason; such an error has no category and no code, and what is shown has 1 to 515 bytes. |
| Envelope.TruncateIsStable | internal/backendclient/client.go:202-212 | truncate is never empty, gives at most 515 bytes, and is idempotent on every byte string. |
| Envelope.TruncateKeepsShortBodies | internal/backendclient/client.go:202-212 | A short trimmed body is shown as it is. |
| Envelope.TruncateIs | internal/backendclient/client.go:202-212 | A body is shown without the space around it, cut to 512 bytes and an ellipsis if longer, and as "(empty response body)" if nothing is left. |
| Envelope.TrimSpaceDrops | internal/backendclient/client.go:204-204 | What trimming drops at either end is space and nothing else. |
| Envelope.TrimSpaceLeavesNone | internal/backendclient/client.go:204-204 | What it keeps neither starts nor ends with space. |
| Envelope.SpacesAreUnicode | internal/backendclient/client.go:204-204 | Space is what Unicode calls white space, rune by rune. |
| Providers.SplitProviderHealth | internal/controller/platformconfig_controller.go:150-213 | The loop returns one entry per provider in order, and the Unknown ones of them as the second list. |
| Providers.DeterminedEntry | internal/controller/platformconfig_controller.go:180-210 | The loop body for a provider with a verdict. |
| Providers.UndeterminedReason | internal/controller/platformconfig_controller.go:156-164 | An undetermined provider always has an explanation: the control plane's own message if there is one, else which of the two questions went unanswered. |
| Providers.EntriesAreFaithful | internal/controller/platformconfig_controller.go:146-211 | No provider is dropped or renamed; Unknown exactly when not determinate, True exactly when determinate and healthy; every other entry says why, in exactly one field. |
| Providers.ExplanationIs | internal/controller/platformconfig_controller.go:157-209 | Which explanation each entry carries, and how blockers are added to it. |
| Providers.NoneUnknownIff | internal/controller/platformconfig_controller.go:114-125 | The second list is empty exactly if every provider was determined. |
| Providers.JoinConcat | internal/controller/platformconfig_controller.go:203-203 | Blockers are joined in order, with the separator between them. |
| Providers.UndeterminedInOrder | internal/controller/platformconfig_controller.go:165-165 | The second list has the i-th Unknown entry in place i, and no more. |
| Providers.LastQueryErrorContractIff | api/v1alpha1/platformconfig_types.go:62-65 | "Empty lastQueryError only on a healthy entry whose query succeeded" holds of an entry exactly when its provider is determinate. |
| Providers.ReasonContractIff | api/v1alpha1/platformconfig_types.go:67-70 | "A reason on every entry that is not healthy" holds exactly unless the provider is determined and unhealthy. |
| Providers.CommentsFail | api/v1alpha1/platformconfig_types.go:62-70 | One report for each comment on which it fails. |
| Conditions.ConditionList.Set | internal/controller/common.go:110-120 | The in-place update of the caller's slice equals SetCondition of what it held. |
| Conditions.SetConditionAt | internal/controller/common.go:108-120 | One write: the type's entry is the new one, its transition time moves exactly when its status does, all other entries and places stay. |
| Conditions.ConditionHistory | internal/controller/platformconfig_controller.go:94-136 | Over any sequence of writes types stay unique, places are kept, each type shows its last write, and its transition time is that of the last write that changed its status. |
| Conditions.SetConditionKeepsUnique | internal/controller/common.go:113-119 | A write never makes two entries of one type. |
| Wire.ToWireSpec | internal/controller/segmentationpolicy_controller.go:287-319 | The two append loops give the rules in order, none dropped, nothing nil. |
| Wire.WireIs | internal/controller/segmentationpolicy_controller.go:287-319 | Every field goes out under its own name, ingress as ingress and egress as egress, rule by rule, nil as empty. |
| Wire.RoundTrip | internal/controller/segmentationpolicy_controller.go:287-319 | Decoding the wire form gives the spec back up to nil versus empty. |
| Wire.SameWireIff | internal/controller/runtimesecuritypolicy_controller.go:280-293 | Two specs are sent alike if and only if they differ in nil-ness only. |
| Wire.MeaningPreserved | api/v1alpha1/segmentationpolicy_types.go:16-25 | A peer is allowed by some rule of the policy exactly when it is by some rule of what is sent, with empty ports and empty peer namespace as documented. |
| Startup.Configure | cmd/main.go:114-145 | The code of the decision that StartsIff and MissingNames characterise; what it starts is a valid process. |
| Startup.StartsIff | cmd/main.go:114-145 | A process is configured exactly when URL and token are set and the id is written as a positive number that fits an int, and then for that cluster; else an ill-written id is among what is missing. |
| Startup.MissingNames | cmd/main.go:116-130 | The list names each missing setting and nothing else, in the order they are read. |
| Startup.ParsesIff | cmd/main.go:222-234 | Exactly which strings are cluster ids, by their characters: a positive number that fits an int in decimal, with a plus sign and zeros in front if at all. |
| Startup.NoIdIsConfigured | cmd/main.go:226-232 | A name, a zero and a negative number are none. |
| Startup.ValidProcessIff | cmd/main.go:114-145 | The processes a run may start are exactly those some settings start. |
| Startup.DecimalParses | cmd/main.go:222-234 | Every positive cluster id that fits an int is accepted as people write it. |

## Left out

- HTTP transport, headers, timeouts and byte-level JSON: an exchange is one of the ways `Client.Exchange` lists, and a body is bytes with the value they parse to. Duplicate keys and case-insensitive field names are not modelled.
- controller-runtime: work queue, informers, leader election and backoff timing are the assumptions above. Events that wake a key are modelled only for the two self-triggering questions in `Quiescence`.
- `cmd/main.go` beyond the configured-or-not decision; `internal/preflight`; generated code, manifests and packaging.
- The wording of messages: a condition message is the values put into it, which is what the fixed-point proofs need.
- The two policy reconcilers are one class with a branch on the kind of spec, since their steps are the same; their separate Go types are not modelled.
- `Reconciler.World` and `ConfigReconciler.World` hold one key each, and a pass of theirs runs to its end; a crash inside a pass is in `System`, over the same micro-steps.
- The operator token: it decides whether a process is configured, but not where its calls go, so a process does not carry it.
- A lost request is settled before the next call for its key. A request that outlives the next one is not modelled, and the client has no protection against it.
- Finalizers of others on a PlatformConfig: its deletion takes effect at once. It has none of the operator's.
- Edges of a key are a set per cluster id; which workloads they name, and how the backend matches them, is not part of this model. Nor is what the CNI or Tetragon enforces.
- `metav1.Time` has a granularity of seconds, so two polls within one second count as the same time in `Quiescence.PollIsAFixedPointIff`.
- `GetPaused`, and the `updated_at`, `updated_by` and `ever_set` fields: no reconciler reads them.
- Integer widths: counts and generations are unbounded here; the Go `int` and `int64` are wide enough that no operation of the operator overflows them. The width of ports and the range of the cluster id are modelled.
