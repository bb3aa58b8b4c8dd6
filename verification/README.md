# Bombay: a model of the Driver and what surrounds it

This project models the hardest logic of the Bombay actor runtime and proves what its
design promises of it.

* **The universal Driver** (`Operations`, `Counting`, `Driver*`). `DriverModel` is the loop of
  `Driver::drive` as a state machine over values: one function per part of the loop body,
  all of them total. A `Round` holds everything the Behavior and the host may answer
  during one turn, so a sequence of rounds is a finite run of any Behavior against any
  host: panicking, contract-breaking, and with the borrowing loan dropped while an
  operation is pending (`Abandoned`). Taking an `Offer` row out of the queue and offering
  it are one turn. `DriverObject` is the same Driver as an object updated in place; each
  of its methods is proved to make the transition of the value model. Affine values are
  tokens, and conservation is counted per token.
* **The terminal pipeline** (`ActorOutcome`, `ActorExecution`, `Terminal`,
  `TerminalPhases`, `Reports`, `JoinModel`, `JoinObject`): the classification of a
  retirement, the guard that fires the retirement capability, the two projections of an
  outcome, the assessment reports, and the poll-level protocol that acquires an actor's
  join and its notification.
* **The topology checker** (`Graphs`, `Topology*`): reachability, staged saturation, the
  derivation of class types, parameterized schemas, the recursion check and the custody
  fixpoint, each with the loops and worklists of the program.
* **The mutation verdict tool** (`MutantsModel`, `MutantsGate`) and **the finite deployment
  profile** (`Deployment`).

## Where the program and its promises part

* `docs/driver-law.md` (D-TURN-1, D-RETIRE-1) promises that decided actions are applied
  before another event is requested and that nothing owned is lost. When the loan is
  dropped while `apply` is pending (crates/bombay-engine/src/driver.rs:695-699) and the
  Driver is received again, the loop asks for another event, and its decision overwrites
  the waiting actions. `DriverInterruptions.DroppedApplyLosesActions` is such a run;
  `DriverForgetting.ConservesIffNotOvertaken` states exactly when nothing is lost, and
  `DriverConservation.FinishedAppliesForgetNothing` that drops anywhere else are harmless.
* A row is turned back to `Offer` before its control event is awaited
  (crates/bombay-engine/src/driver.rs:611-615), so dropping that wait offers the row again:
  `DriverInterruptions.DroppedControlReoffersIff`, for every state in which it happens.
* A terminating run does not always retire its active owner: a host that panics, or breaks
  its contract, and leaves both its input and its reply strands the row
  (crates/bombay-engine/src/driver.rs:711-713). `DriverInterruptions.StrandedIsNeverRetired`
  is such a run; `DriverRetirement.ActiveRetiresIff` and `DriverRetirement.StrandsIff` say
  exactly when.
* The recursion check of the topology depends on the order of declarations, although
  crates/bombay-macros/src/topology.rs:524 prefers concrete anchors:
  `TopologyOrder.OrderDecidesRecursion`. `TopologyVerdict.VerdictFreeIff` says exactly when
  the verdict does not, and `TopologyReordering.OrderFreeIff` when the derivation does not.
* A future of `ActorExecution::run` that is dropped before its first poll never builds its
  guard, so its retirement capability is never fired: `ActorExecution.FiresIffPolled`.
* A caller who fills the notification destination after the join was acquired loses the
  notification: `JoinModel.FillingLoses`, with the exact condition in
  `JoinModel.ReleaseIffNotified`.

## Model

| member | source | states |
|---|---|---|
| Operations.Receive | crates/bombay-engine/src/driver.rs:141-193 | an occupied slot makes the call a no-op; an empty one ends with a reply or with one to two caught payloads, unless the loan is dropped, which leaves neither |
| Operations.ReceiveOperation | crates/bombay-engine/src/driver.rs:141-193 | the loop receives exactly that, and what it does with its producer is exactly one construction, the polls until it is done and, unless construction panicked, one disposal; nothing is done with an occupied slot |
| Operations.LogIsDisciplined | crates/bombay-engine/src/driver.rs:141-193 | the only construction is first, a disposal can only be last, and there is one exactly when construction did not panic |
| DriverModel.NextRow | crates/bombay-engine/src/driver.rs:599-602 | the found row is the first one that is not retained, and none is found only when all are |
| DriverInvariant.InsertKeepsOrder | crates/bombay-engine/src/driver.rs:561-613 | putting a row back at the held index keeps the queue newest first and an awaiting row the first unretained one |
| DriverInvariant.RemoveKeepsOrder | crates/bombay-engine/src/driver.rs:599-613 | taking the next row leaves a queue in which its index and stamp still fit, with only retained rows before it and no awaiting row |
| DriverInvariant.StepKeepsInv | crates/bombay-engine/src/driver.rs:426-777 | every turn, for any host and any dropped loan, keeps the phase and slot invariant: a disposition exactly in the terminal phases, an active owner and no prepared one while running, and the queue order |
| DriverInvariant.RunKeepsInv | crates/bombay-engine/src/driver.rs:426-777 | so does every run |
| DriverInvariant.HeldRowIsInRange | crates/bombay-engine/src/driver.rs:561-610 | in every reachable state the index of the held row is in range, and any reply of that row put back there keeps the queue strictly newest first |
| DriverCauses.RunLogsEveryCause | crates/bombay-engine/src/driver.rs:291-317 | over any run the primary disposition and the additional failures are exactly the causes visible in the trace, in acquisition order: the first is primary and never changes, no completion is dropped, and a contract failure is logged only where the host visibly broke its contract |
| DriverHistory.StepPhase | crates/bombay-engine/src/driver.rs:427-776 | phases never go back, only successful publication leads to activity, and a retirement call to the final phase |
| DriverHistory.RunSpendsBudgets | crates/bombay-engine/src/driver.rs:335-392 | over any number of receives and dropped loans the Behavior is initialized, the incarnation published and an owner retired once at most each |
| DriverHistory.RunEndsAtCause | crates/bombay-engine/src/driver.rs:429-433 | after a cause has been acquired only a retirement call can follow |
| DriverTurns.GatedCalls | crates/bombay-engine/src/driver.rs:599-657 | publication and ordinary acquisition happen only when every settlement is retained and nothing is held, and ordinary acquisition only in the active phase |
| DriverTurns.RunPublishesFirst | crates/bombay-engine/src/driver.rs:634-657 | every ordinary acquisition of a run has a successful publication before it |
| DriverResumption.RunIsContinuous | crates/bombay-engine/src/driver.rs:426-777 | with no assumption on host or loans, each call of a run is followed by what its reply calls for, and a dropped one by the call that resumes it: the same activation, offer or ordinary acquisition, a reoffer after a dropped control wait, and after a dropped `apply` the classification of what it acquired or else the next row, publication or event |
| DriverResumption.RunIsCausallyOrdered | crates/bombay-engine/src/driver.rs:426-777 | an uninterrupted run makes its calls in causal order, whatever the host does: decisions are applied, interpretations classified and offered, and admissions answered before anything else |
| DriverRows.SettledIsNeverReoffered | crates/bombay-engine/src/driver.rs:539-610 | a settlement that the source retained or exhausted is never offered again, over any number of receives and dropped loans |
| DriverRows.NewestIsOffered | crates/bombay-engine/src/driver.rs:599-610 | every offer is of the newest settlement that can still progress |
| DriverTurns.OffersAndTurnsAreBounded | crates/bombay-engine/src/driver.rs:427-777 | an uninterrupted run with F folds makes 2F+1 offers at most and has reached retirement within 3F+5 turns |
| DriverConservation.RunConservesIff | crates/bombay-engine/src/driver.rs:503-763 | for any Behavior, host and dropped loans, every value ever received is accounted for, as still held or visibly given away, if and only if no turn decides over actions that still wait |
| DriverConservation.FinishedAppliesForgetNothing | crates/bombay-engine/src/driver.rs:695-699 | loans dropped anywhere except inside `apply` never lose a value |
| DriverForgetting.ForgetsIffOvertaken | crates/bombay-engine/src/driver.rs:675-699 | from any state the actions lost are read off the replies: some turn decides over waiting actions if and only if a decided event follows a dropped `apply` that left its actions, or actions that waited at the start |
| DriverForgetting.ConservesIffNotOvertaken | crates/bombay-engine/src/driver.rs:675-699 | over whole runs every value is conserved if and only if no event is decided after an `apply` was dropped with its actions still in their slot |
| DriverInterruptions.DroppedApplyLosesActions | crates/bombay-engine/src/driver.rs:695-699 | a concrete run in which a loan dropped inside `apply` loses the decided actions |
| DriverInterruptions.DecisionIsResumedIff | crates/bombay-engine/src/driver.rs:488-503 | a waiting decision is classified by the next turn exactly when its interpretation is there |
| DriverInterruptions.DroppedControlReoffersIff | crates/bombay-engine/src/driver.rs:611-630 | for every state with an admitted row next: its control event, or the panics that prevent it, are acquired exactly when the loan is not dropped in that wait, and after a drop every resumed turn offers the same row again |
| DriverInterruptions.DroppedControlIsReached | crates/bombay-engine/src/driver.rs:611-615 | a run reaches such a state |
| DriverInterruptions.StrandedIsNeverRetired | crates/bombay-engine/src/driver.rs:711-713 | a concrete run in which a panicking host leaves input and reply together, after which no retirement is ever called, however often the Driver is received |
| DriverRetirement.BarrierIsComplete | crates/bombay-engine/src/driver.rs:355-391 | under a host that empties its inputs exactly when it replies, the turn in which the loop returns leaves a complete retirement and never a surviving Driver |
| DriverRetirement.RunKeepsBehavior | crates/bombay-engine/src/driver.rs:209-271 | the Behavior that is returned is the one that was given |
| DriverRetirement.PrimaryFixesOwner | crates/bombay-engine/src/driver.rs:707-765 | for every retiring state and primary cause, what is retired: the active owner after a completion, transition panic or settlement failure; the prepared one without actions after an initialization panic; whichever owner there is after an error of the Behavior; nothing after a refused activation; the active owner after a host panic unless a row is stranded; and after any other failure the active owner unless a row is stranded, the prepared one if only that is left, or nothing |
| DriverRetirement.ActiveRetiresIff | crates/bombay-engine/src/driver.rs:707-763 | with an active owner the retirement turn calls it if and only if no row is stranded |
| DriverRetirement.StrandsIff | crates/bombay-engine/src/driver.rs:539-560 | the turn that ends a run strands a row if and only if its last call is an offer that left its input beside a reply |
| DriverRetirement.FailedInitializationRetiresPrepared | crates/bombay-engine/src/driver.rs:429-445 | the initialization of a new Driver that errs or panics is followed by the retirement of the prepared environment without actions |
| DriverRetirement.FailedFoldRetiresActive | crates/bombay-engine/src/driver.rs:675-690 | an event whose fold errs or panics is followed by the retirement of the active owner |
| DriverRetirement.RetirementKeepsOrder | crates/bombay-engine/src/driver.rs:714-729 | the settlements lent to retirement are the whole queue with the held one back in its place, newest first |
| DriverRefinement.SettleSimulates | crates/bombay-engine/src/driver.rs:539-706 | from any quiet state the loop settles a row with exactly the calls of the recursive interpreter and leaves exactly its rows |
| DriverRefinement.LoopRefinesInterpreter | crates/bombay-engine/src/driver.rs:486-706 | for a conserving host the whole loop issues exactly the calls of the recursive depth-first interpreter, in the same order |
| DriverRepetition.DropRepeats | crates/bombay-engine/src/driver.rs:446-657 | a turn dropped inside activation, an offer or an ordinary acquisition, with its loan untouched, is made up for exactly by the next turn, whatever that is answered |
| DriverRepetition.DroppedLoopRefinesInterpreter | crates/bombay-engine/src/driver.rs:426-777 | with such drops anywhere and any number of times, the calls that were not dropped are exactly those of the recursive interpreter over the replies that reached the Driver |
| DriverObject.Driver.constructor | crates/bombay-engine/src/driver.rs:251-278 | a new Driver is the initial state |
| DriverObject.Driver.Reject | crates/bombay-engine/src/driver.rs:291-298 | the first error becomes the disposition, later ones are appended |
| DriverObject.Driver.Complete | crates/bombay-engine/src/driver.rs:300-305 | a completion is kept unless a disposition exists |
| DriverObject.Driver.ReceiveActivationFailures | crates/bombay-engine/src/driver.rs:307-311 | every payload is rejected in order |
| DriverObject.Driver.ReceiveExecutionFailures | crates/bombay-engine/src/driver.rs:313-317 | every payload is rejected in order |
| DriverObject.Driver.InitializeBehavior | crates/bombay-engine/src/driver.rs:429-445 | makes the transition of the model |
| DriverObject.Driver.ActivateHost | crates/bombay-engine/src/driver.rs:446-485 | makes the transition of the model |
| DriverObject.Driver.ClassifyInterpretation | crates/bombay-engine/src/driver.rs:489-538 | makes the transition of the model |
| DriverObject.Driver.OfferHeldRow | crates/bombay-engine/src/driver.rs:539-598 | makes the transition of the model, under the invariant that keeps the held index in range |
| DriverObject.Driver.FindNextRow | crates/bombay-engine/src/driver.rs:599-602 | the search finds the first row that is not retained |
| DriverObject.Driver.SelectNext | crates/bombay-engine/src/driver.rs:599-657 | makes the transition of the model |
| DriverObject.Driver.AcquireControlEvent | crates/bombay-engine/src/driver.rs:611-630 | makes the transition of the model; the missing-ingress arm is never entered |
| DriverObject.Driver.FoldAcquired | crates/bombay-engine/src/driver.rs:658-690 | makes the transition of the model with a reply in its slot |
| DriverObject.Driver.ApplyActions | crates/bombay-engine/src/driver.rs:691-706 | makes the transition of the model with an active owner |
| DriverObject.Driver.RetireOwner | crates/bombay-engine/src/driver.rs:707-773 | makes the transition of the model, and is suspended exactly when the loan is dropped inside the retirement it calls |
| DriverObject.Driver.Drive | crates/bombay-engine/src/driver.rs:426-777 | the loop uses exactly the replies up to its end and is a run of the model over them, keeps the invariant, returns only in a terminal phase, and under a conserving host only with every slot vacated; a dropped loan, also inside retirement, does not return |
| DriverObject.ReceiveRun | crates/bombay-engine/src/driver.rs:335-392 | occupied or empty slots are left alone; otherwise the loop is driven to its end: without a return the Driver stays in its slot, with one it moves into exactly one reply, the complete retirement exactly when every slot is vacated |
| ActorOutcome.ClassificationRoundTrip | crates/bombay/src/actor_outcome.rs:96-166 | the classification loses and invents nothing: the retirement record can be read back |
| ActorOutcome.RetirementPanicIsNeverPrimary | crates/bombay-engine/src/driver.rs:766-769 | no run is classified as a retirement panic |
| ActorExecution.FiresOnceAfterDriver | crates/bombay/src/actor_execution.rs:48-124 | from the first poll on, however the future ends, the capability is fired exactly once and only after the Driver is gone |
| ActorExecution.FiresIffPolled | crates/bombay/src/actor_execution.rs:48-124 | an ended execution fired its capability if and only if its future was polled at all |
| ActorExecution.Terminal.Complete | crates/bombay/src/actor_execution.rs:96-105 | completion takes the capability and fires it with the outcome |
| ActorExecution.Terminal.Drop | crates/bombay/src/actor_execution.rs:108-124 | dropping fires it as panicked or cancelled if it is still there, and not otherwise |
| ActorExecution.Execution.Poll | crates/bombay/src/actor_execution.rs:48-73 | a poll drives the Driver to exactly the end its replies give, answers accordingly and follows the life cycle above; with a conserving host it never parks a surviving Driver |
| ActorExecution.PendingWaits | crates/bombay/src/actor_execution.rs:48-73 | a poll is pending only when its replies are used up or a loan was dropped |
| ActorExecution.Execution.Unwind | crates/bombay/src/actor_execution.rs:108-124 | a panic that escapes the Driver drops it first and then fires the guard as panicked |
| ActorExecution.GuardOutlivesDriver | crates/bombay/src/actor_execution.rs:49-57 | locals are dropped in reverse: the guard, declared before the Driver, fires after it is gone |
| ActorExecution.Execution.DropFuture | crates/bombay/src/actor_execution.rs:48-124 | the Driver goes first and the guard last |
| Terminal.DefinedIff | crates/bombay/src/terminal.rs:1054-2031 | the projection of an outcome is defined exactly when its capability tasks are joined and its residual phase fits |
| Terminal.CustodySurvives | crates/bombay/src/terminal.rs:899-929 | every projected retirement with state carries the original behavior, later failures and residual facts, with the acquired ingress readable back |
| Terminal.RoutesCommute | crates/bombay/src/launch.rs:241-461 | through a launch error or directly, an outcome becomes the same retirement field for field with report and notification unchanged, and both routes panic on the same outcomes |
| Terminal.ReportIsExact | crates/bombay/src/terminal.rs:105-167 | retirement is established exactly when a returned residual establishes it, and failures are found unless a blameless, notified completion repeats what its residual says |
| TerminalPhases.UnreachableArmsAreDead | crates/bombay/src/terminal.rs:2011-2030 | over any run against a host that keeps the residual phases, every complete retirement fits the projection, so its unreachable arms are never reached |
| Reports.CombinedEvidence | crates/bombay/src/terminal.rs:48-103 | over any combination of reports retirement is established iff it is everywhere, failures are found iff somewhere, and none is found iff nowhere is any found or unchecked |
| Reports.CombinationIsSemilattice | crates/bombay/src/terminal.rs:48-103 | combining is commutative, associative and idempotent with the clean report as unit |
| JoinModel.RunSpends | crates/bombay/src/launch.rs:722-846 | over any interleaving the join and the notification are acquired, the owner released and the cancellation sent once at most each |
| JoinModel.QuietAfterJoin | crates/bombay/src/launch.rs:784-826 | after the join was acquired it is never polled again and nothing is cancelled |
| JoinModel.RunConserves | crates/bombay/src/launch.rs:784-826 | neither destination is ever overwritten: what enters leaves in order or is still there |
| JoinModel.ReleaseIffNotified | crates/bombay/src/launch.rs:815-826 | a run that releases its owner acquired the notification, unless some poll found the notification destination occupied after the join |
| JoinModel.ExactlyOnce | crates/bombay/src/launch.rs:784-846 | with a caller who never fills the notification destination, a released owner means that the join and the notification were acquired exactly once each |
| JoinModel.FillingLoses | crates/bombay/src/launch.rs:815-826 | a concrete run in which a filled destination loses the notification |
| JoinModel.RetirementsAgree | crates/bombay/src/launch.rs:1001-1021 | the retirement waits of owned and projected tasks begin alike in every state |
| JoinObject.OwnerCancellationAuthority.Request | crates/bombay/src/launch.rs:734-740 | sends only with the sender still there, and takes it |
| JoinObject.OwnerCancellationAuthority.Disarm | crates/bombay/src/launch.rs:742-744 | nothing can be sent any more |
| JoinObject.JoinSite.StartRetirement | crates/bombay/src/launch.rs:832-846 | makes the transition of the model |
| JoinObject.JoinSite.DropOwner | crates/bombay/src/launch.rs:753-757 | dropping the owner requests cancellation if it is still armed |
| JoinObject.JoinSite.Poll | crates/bombay/src/launch.rs:794-829 | makes the transition of the model, updating the owner and both destinations in place |
| Graphs.AcyclicIffRanked | crates/bombay-macros/src/topology.rs:557-587 | a finite graph has no cycle exactly when it has a rank that falls along every edge |
| TopologyChecks.CheckClasses | crates/bombay-macros/src/topology.rs:176-220 | accepts exactly the classes with distinct names, custody names and child roles and lawful nominal parents, and names what is violated |
| TopologyChecks.CollectFamilies | crates/bombay-macros/src/topology.rs:232-256 | accepts exactly lawful Entity families and seeds the search with the root and them |
| TopologyChecks.CollectMembers | crates/bombay-macros/src/topology.rs:257-271 | accepts exactly lawful cold members and adds them to the seeds |
| TopologyChecks.Visit | crates/bombay-macros/src/topology.rs:272-286 | the worklist visits exactly what its seeds reach, or finds an undeclared child |
| TopologyChecks.CheckHosts | crates/bombay-macros/src/topology.rs:297-324 | accepts exactly declared, distinct hosts with the root in its own |
| TopologyInference.SelectBirthTypes | crates/bombay-macros/src/topology.rs:488-513 | saturation reaches exactly what the known classes reach by births other than the root's, selecting one occurrence per new class below an earlier one |
| TopologyInference.IncomingOccurrences | crates/bombay-macros/src/topology.rs:515-541 | in a connected topology the three stages know every class, so the error arm is dead, and every class outside the anchors has exactly one occurrence |
| TopologyInference.ActorTypes | crates/bombay-macros/src/topology.rs:594-691 | in a connected topology every class is typed, so the final assertion holds; each type has a well-founded derivation from an anchor, a parameter or an earlier typed parent, and the result is the one derivation of the declaration |
| TopologyInference.OneParameter | crates/bombay-macros/src/topology.rs:619-690 | whatever the order of declarations, a class depends on one parameter at most |
| TopologyRecursion.SchemaDependencies | crates/bombay-macros/src/topology.rs:693-722 | returns exactly the classes that reach a dependent creator |
| TopologyRecursion.SchemasAreLeast | crates/bombay-macros/src/topology.rs:693-722 | that is the least set with the dependent creators closed under having a child in it |
| TopologyRecursion.FindWayBack | crates/bombay-macros/src/topology.rs:561-584 | the search from a class finds a way back exactly when the class is on a cycle of parameterized classes |
| TopologyRecursion.FindRecursion | crates/bombay-macros/src/topology.rs:557-586 | the recursion error is raised exactly when the graph induced on the parameterized classes has a cycle |
| TopologyRecursion.Validate | crates/bombay-macros/src/topology.rs:175-294 | accepts exactly well-formed declarations whose one derivation makes no cycle of parameterized classes; acceptance gives a rank on them |
| TopologyTyping.OneDerivation | crates/bombay-macros/src/topology.rs:638-688 | a declaration determines the sources of its classes |
| TopologyOrder.OrderDecidesRecursion | crates/bombay-macros/src/topology.rs:638-666 | the same declarations in two orders, both well formed: one is refused as recursive, the other not |
| TopologyVerdict.VerdictFreeIff | crates/bombay-macros/src/topology.rs:543-688 | every order of well-formed declarations has the same verdict of the recursion check if and only if the type of the root is given, or a cycle of parameterized classes with every class that may depend on the root is also one with only those that must |
| TopologyVerdict.DependentsAreBetween | crates/bombay-macros/src/topology.rs:638-688 | with an inferred root every order makes all classes dependent that must be, and none that may not |
| TopologyVerdict.MayIsReached | crates/bombay-macros/src/topology.rs:638-688 | some order makes every class dependent that may be |
| TopologyVerdict.MustIsReached | crates/bombay-macros/src/topology.rs:638-688 | some order makes only the classes dependent that must be |
| TopologyVerdict.LateDepends | crates/bombay-macros/src/topology.rs:638-688 | with a typed root exactly the classes that wait for the cold members depend on a parameter, whatever the order |
| TopologyReordering.DerivationExists | crates/bombay-macros/src/topology.rs:638-688 | the rounds come to an end for every connected topology |
| TopologyReordering.OrderFreeIff | crates/bombay-macros/src/topology.rs:638-688 | every order of well-formed declarations derives the same sources if and only if there are sources on which all births that can come in time agree |
| TopologyCustody.CustodyParameters | crates/bombay-macros/src/topology.rs:793-838 | the custody fixpoint ends, and a class carries a parameter exactly when it reaches a class that contributes it |
| TopologyCustody.AcceptedDeclares | crates/bombay-macros/src/topology.rs:793-838 | the fixpoint may be asked of every accepted topology: nothing it indexes is missing |
| MutantsGate.Tallies | crates/mutants-gate/src/main.rs:86-178 | succeeds exactly on complete reports, and counts every column of every key |
| MutantsGate.EveryCandidateIsCounted | crates/mutants-gate/src/main.rs:120-177 | the totals of a complete report add up to the number of candidates |
| MutantsModel.TotalIsViablePlusUnviable | crates/mutants-gate/src/main.rs:150-170 | per key, total is viable plus unviable |
| MutantsModel.OrderDoesNotMatter | crates/mutants-gate/src/main.rs:120-177 | completeness and tallies are the same in any order of the outcomes |
| MutantsGate.EmitBaseline | crates/mutants-gate/src/main.rs:180-208 | succeeds exactly on complete reports without survivors and timeouts, with the floors and zero entries of its tallies, and never fails with the other zero-viability error |
| MutantsGate.Check | crates/mutants-gate/src/main.rs:210-271 | passes exactly when the report keeps every floor and zero entry, and reports every candidate in its total |
| MutantsModel.EmittedBaselinePasses | crates/mutants-gate/src/main.rs:180-271 | a report passes the check against the baseline emitted from it |
| Deployment.Validate | examples/remote-counter/src/deployment.rs:137-224 | accepts exactly the configurations that have a validated profile, and returns it |
| Deployment.SixFillAll | examples/remote-counter/src/deployment.rs:203-210 | six records in distinct slots fill all six, so the missing-slot arms are dead |
| Deployment.SlotsHoldTheirOwnBytes | examples/remote-counter/src/deployment.rs:181-202 | in an accepted profile each slot holds bytes that claim it and its grant, and no two slots the same bytes |
| Deployment.GrantsMatchOperations | examples/remote-counter/src/deployment.rs:186-217 | acceptance gives a bijection between the three grants and the three operations |
| Deployment.VerifyIff | examples/remote-counter/src/deployment.rs:248-268 | verification succeeds if and only if the bytes and the proof are configured for the purpose, with the operation and grant the bytes claim |
| Deployment.ProtectedVerifies | examples/remote-counter/src/deployment.rs:237-268 | whatever is protected verifies with the returned proof, to its own slot's operation and grant |

## Left out

- Futures, wakers, executors and channels: an operation is its construction, its polls and its disposal, with any outcome; only the join protocol is modelled poll by poll.
- Behaviors, settlement classification and source custody: their answers are arbitrary values of a round.
- The local environment (crates/bombay/src/local/environment.rs): its residual phases are the assumption `PhasesKept` of `TerminalPhases.UnreachableArmsAreDead`, as lines 217-289, 396-420 and 835-890 have it; `retirement_report` of a residual is an opaque report.
- Panics that escape the Driver: `ActorExecution` has them as unwinding, without a cause.
- DriverRefinement.LoopRefinesInterpreter: stated for hosts that empty their inputs when they reply, without panics inside host operations, because the recursive reading has no counterpart of a row left in a slot; `DriverRepetition` adds dropped loans, apart from those inside `apply`, a control wait or retirement, which change what follows.
- Types and tokens of the topology macro: roles and behaviors are opaque strings, the spelling of custody names is a parameter, and only which parameters a type depends on is derived.
- Error messages and source spans: refusals are kinds; which of several violations is reported first is only modelled by the order of the checks.
- JSON, files, sockets and integer widths of the mutation tool and the deployment example: reports and configurations are values, framing and claims are functions of the bytes, and counters are unbounded.
- Mailboxes, addresses, observation, Entity directories and the public application interface: they would add mostly one-branch facts.
