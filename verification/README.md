# Supvisors: a model of the decision logic, and its properties

Supvisors controls processes that are spread over several Supervisor daemons, with one Supvisors
instance beside each of them. This project models the decisions that the instances take, without
their transport, and proves properties over all inputs, all reachable states and all runs.

`dafny verify dfyconfig.toml` checks the whole project.

## How it is organised

Where the program changes objects in place, a class has the same fields and the same methods, and
each method is proved against a function of the old state. The properties over whole runs are
lemmas about these functions, and so are the systems in which several instances take part.

| part of Supvisors | classes and in-place algorithms | specification and properties |
|---|---|---|
| Master election | `SupvisorsStateModes` | `StateModes`, `Election`, `ElectionSafety`, `ElectionConvergence`, `ElectionOutcome` |
| handshake | `InstanceStatus` | `Handshake` |
| state machine | `FiniteStateMachine` | `StateMachine`, `StateMachineTermination`, `StateMachineEndings`, `StateMachineWorking` |
| start and stop sequences | `ApplicationJobs` | `Sequencer`, `SequencerDiscipline`, `SequencerBatches`, `SequencerOutcomes` |
| start prediction | `StarterModel` | `Prediction` |
| placement under the load limit | `Placement` | `StableSort`, `Placement` |
| process status | `ProcessStatus` | `ProcessSynthesis` |
| running failures | `FailureHandler` | `FailureHandler` |
| '@' and '#' assignments | `HomogeneousGroup` | `HomogeneousGroup`, `HomogeneousGroupRuns` |
| status formula | `StatusFormula` | `StatusFormula` |

Inputs that the program reads from outside are parameters: the clock, the mapper (instances, nodes,
core list, nick identifiers), the options, and, where Python iterates on a set, the element that
comes first. Requests and publications are recorded. Every lemma carries `{:induction false}`: the
inductions are written out, and none is left to the verifier.

## What the code does not do

Five expectations that the documentation or the comments raise are false of the code. The code is
modelled as it is, and the exact condition is proved.

- The handshake can lose a process event. The process information is stamped when the answer has
  come back (supvisors/internal_com/supervisorproxy.py:303-306), which is later than the remote
  snapshot. An event emitted and received in between is ignored, since the instance is CHECKING,
  and does not reject the handshake, since it is older than the stamp. `WindowIsReached` gives the
  run; `AcceptedIsCoherentExactly` tells, in every run, when an accepted handshake loses nothing;
  `NoEventLost` holds over all runs in which nothing unreflected is received in that window.
- The loop of `set_state` can run forever. Forcing CONTINUE with TIMEOUT
  (supvisors/options.py:224-230) is not enough: with RESYNC and without USER, STRICT with CORE
  oscillates between SYNCHRONIZATION and ELECTION when a core instance is not a declared one, and
  CORE with STRICT or LIST does when no core instance is known. `SpinsExactlyWhenUnsafe` is the
  equivalence on the options, where TIMEOUT with RESYNC is considered too, and
  `SpinsOnceForcedExactly` the one on those that the check of the options leaves;
  `ForcingIsNotEnough` is a configuration that passes this check.
- A SINGLE_NODE application is not distributed over the instances of its node: the requested loads
  are not refreshed between two choices, so all the commands get the same instance. When a process
  is not configured on it, the distribution raises, although the candidates of a node only have to
  cover the processes together. It raises too for a process that is started alone and that is too
  much for the node, as the node is chosen for the load of the start sequence, which this process
  may not belong to. `SingleNodeExactly` has the equivalence; `SharedNodeFails` and
  `HeavyProcessRaises` are failures of both kinds with inputs that the program can get.
- The loss of an instance does not always stop a process that ran nowhere else: only the processes
  whose state is a running one are invalidated, so a process that is STOPPING on the lost instance
  stays STOPPING. `LossStopsExactly` has the equivalence; `StoppingSurvivesLoss` is an ordinary stop
  in progress, and `LoadedStoppingSurvivesLoss` a process that was loaded as STOPPING.
- A start that is given up after its delay does not apply the starting failure strategy, even for a
  required process (docs/rules.rst:158-162 gives it for any such failure): the forced event comes
  when the command has left the sequence. `StartFails` and `LossFailsExactly` tell when the strategy
  applies, `CheckKeepsExactly` when a command is given up, and `TimeoutGoesOn` what follows.

## Model

| member | source | states |
|---|---|---|
| SupvisorsStateModes.GetStableRunningIdentifiers | supvisors/statemodes.py:66-81 | the scan that gives up on the first unstable instance returns the Running instances when every known instance is Running, Stopped or Isolated, and nothing otherwise |
| SupvisorsStateModes.SupvisorsStateModes.UpdateInstanceState | supvisors/statemodes.py:289-309 | resets what is known of a Stopped or Isolated instance, drops the Master as soon as it is not Running, and publishes exactly once for it: at once for a Master change, otherwise deferred |
| SupvisorsStateModes.SupvisorsStateModes.OnInstanceStateEvent | supvisors/statemodes.py:344-348 | a received snapshot replaces the whole view of its sender, and never the local one |
| SupvisorsStateModes.SupvisorsStateModes.SetMaster | supvisors/statemodes.py:245-251 | a Master is published exactly when it is a new one |
| SupvisorsStateModes.SupvisorsStateModes.DeferredPublishStatus | supvisors/statemodes.py:326-336 | the marked update is published once |
| SupvisorsStateModes.SupvisorsStateModes.EvaluateStability | supvisors/statemodes.py:363-376 | comparing all peers with the first one finds the set of running instances that all peers agree on, if any |
| SupvisorsStateModes.SupvisorsStateModes.GetMasterIdentifiers | supvisors/statemodes.py:379-397 | exactly the Masters, "no Master" included, that the instances seen as Running declare |
| SupvisorsStateModes.SupvisorsStateModes.CheckMaster | supvisors/statemodes.py:399-417 | true exactly when no peer lacks a Master and no two peers declare different ones |
| SupvisorsStateModes.SupvisorsStateModes.SelectMaster | supvisors/statemodes.py:419-447 | declares the best candidate of the fixed order, and publishes it exactly when it changes |
| SupvisorsStateModes.SupvisorsStateModes.AcceptMaster | supvisors/statemodes.py:449-463 | declares some Master of the peers, whichever the set iteration gives, and nothing without any |
| SupvisorsStateModes.CoreFirst | supvisors/statemodes.py:439-447 | the lowest nick identifier among the core candidates, or among all candidates without a core one, is the unique minimum of one fixed total order |
| SupvisorsStateModes.BestOf | supvisors/statemodes.py:439-447 | the filter on the core list followed by the scan of the nick identifiers computes that minimum |
| StateModes.BestExists | supvisors/statemodes.py:439-447 | with unique nick identifiers every non-empty set of candidates has a best one |
| StateModes.BestUnique | supvisors/statemodes.py:439-447 | there is only one best candidate |
| StateModes.SelectionNeverWorsens | supvisors/statemodes.py:433-447 | the declared Master of an instance is always among its own candidates, so the selection keeps it or declares a better one |
| StateModes.StableSelectionIsRunning | supvisors/statemodes.py:419-447 | from a stable context, the selected Master is Running in the local view |
| StateModes.UnstableExactly | supvisors/statemodes.py:66-81 | a context is unstable exactly when some instance is CHECKING, CHECKED or FAILED |
| StateModes.ForgottenExactly | supvisors/statemodes.py:289-302 | what is known of a remote instance is forgotten exactly when it is stopped or isolated |
| StateModes.DroppedExactly | supvisors/statemodes.py:303-309 | the Master is dropped exactly when it is not Running any more |
| Election.MastersAlwaysRunning | supvisors/statemodes.py:289-309 | over any run, without the USER option and whatever the delays: every declared Master is Running in the view of its declarer, and so is the Master of every published snapshot |
| Election.StepKeepsMastersRunning | supvisors/statemodes.py:363-447 | one step of that invariant, for every kind of event |
| ElectionSafety.PassingIsBest | supvisors/statemachine.py:502-513 | whoever passes ELECTION as Master is the best of all Masters ever declared in the period, and every member has a Master by then |
| ElectionSafety.StepKeepsSafety | supvisors/statemachine.py:495-520 | inductive invariant: some instance has only ever declared the best of all declared Masters, kept by any event of the period |
| ElectionSafety.RunKeepsSafety | supvisors/statemachine.py:495-520 | that invariant over any run of the period |
| ElectionSafety.StableIsFresh | supvisors/statemodes.py:363-376 | what the stability check protects from: all that a stable member sees has been declared since the period started, however old the snapshots in circulation are |
| ElectionSafety.PeriodStartsSafe | supvisors/statemodes.py:363-447 | the invariant holds when the running set becomes the same for all members, although they hold, and may still receive, snapshots from before that show another running set |
| ElectionSafety.LossOfMasterStartsPeriod | supvisors/statemodes.py:289-309 | the loss of a Master starts such a period, whatever snapshots its last member to notice it leaves behind |
| ElectionSafety.SameRunningSetSplits | supvisors/statemodes.py:363-447 | the limit of that protection: with two snapshots from before that show the same running set and another Master, two instances pass |
| ElectionSafety.AtMostOneMaster | supvisors/statemachine.py:502-517 | election safety, the first time and after each change of the running set: while it is fixed, with late, repeated and reordered snapshots, at most one member leaves ELECTION for DISTRIBUTION as Master |
| ElectionConvergence.StepImproves | supvisors/statemodes.py:379-447 | in the period the declared Master of a member never gets worse |
| ElectionConvergence.StepShrinks | supvisors/statemodes.py:379-447 | the sum of the ranks of the declared Masters strictly decreases on each effective selection, and never increases |
| ElectionConvergence.BoundedSelections | supvisors/statemodes.py:379-447 | over any run the number of effective selections is bounded by that sum at its start |
| ElectionConvergence.SettledAgreement | supvisors/statemachine.py:502-517 | once all snapshots are received and no selection changes anything, all members declare the same running Master, and this one, and only it, passes at its next step |
| ElectionOutcome.SettledIsElected | supvisors/statemachine.py:495-520 | from a settled system on, the agreed Master is the best of all declared ones, which the next steps keep |
| ElectionOutcome.FollowsExactly | supvisors/statemachine.py:502-517 | a stable Slave whose peers agree leaves ELECTION exactly when it sees its Master in DISTRIBUTION |
| ElectionOutcome.SlaveWaits | supvisors/statemachine.py:511-520 | over any run of the period, a Slave stays in ELECTION, with the same Master, as long as no snapshot tells it that its Master is in DISTRIBUTION |
| ElectionOutcome.AllLeaveElection | supvisors/statemachine.py:495-520 | from a settled system, once the Master has decided, and each Slave has received its snapshot and decided, in any order, all members are in DISTRIBUTION with the same Master |
| InstanceStatus.SupvisorsInstanceStatus.SetState | supvisors/instancestatus.py:199-215 | the setter follows the table or refuses, and the handshake dates exist in CHECKING only |
| InstanceStatus.SupvisorsInstanceStatus.Invalidate | supvisors/context.py:169-194 | Isolated when fenced, never for the local instance |
| InstanceStatus.SupvisorsInstanceStatus.OnAuthorization | supvisors/context.py:466-524 | the new status of an instance for every authorization code and every date; the local instance goes straight to Running |
| InstanceStatus.SupvisorsInstanceStatus.OnProcessStateEvent | supvisors/context.py:684-698 | an event is accepted in CHECKED and RUNNING only; in CHECKING its date is kept |
| InstanceStatus.SupvisorsInstanceStatus.OnTickEvent | supvisors/context.py:547-572 | a tick takes a Stopped instance to CHECKING and requests a handshake; a remote one is ignored until the local instance is CHECKED or RUNNING |
| InstanceStatus.EnteredFrom | supvisors/instancestatus.py:358-369 | the table, read by its targets |
| InstanceStatus.AnswerConsideredExactly | supvisors/context.py:466-524 | an answer is considered exactly when it is later than the entry in CHECKING; a positive one is rejected exactly when an event was ignored after the stamp of the information |
| InstanceStatus.AuthorizationLeadsTo | supvisors/context.py:466-524 | which answer leads to which state, for a remote instance and for the local one |
| InstanceStatus.RefusedIsIsolated | supvisors/context.py:496-503 | a remote instance that refuses, or is inconsistent, is isolated whatever happens next |
| InstanceStatus.LocalIsNeverIsolated | supvisors/context.py:169-194 | over any run, the local instance is never isolated |
| InstanceStatus.StoppedWaitsForTick | supvisors/context.py:547-572 | a stopped instance remains so until its next tick, which takes it back to CHECKING |
| Handshake.Replay | supvisors/context.py:369-377 | a snapshot absorbs the events that precede it: replaying on it all events from an earlier point gives the remote information |
| Handshake.RunKeepsInv | supvisors/context.py:466-524 | invariant of the protocol over any run and any number of rejected handshakes: dates, order of the messages, and what is loaded when an authorization can still be accepted |
| Handshake.AcceptedMissesWindowOnly | supvisors/internal_com/supervisorproxy.py:300-317 | in an accepted handshake, the loaded information is exactly the snapshot, and an event that it does not reflect can only have been received before the snapshot was stamped |
| Handshake.AcceptedIsCoherentExactly | supvisors/context.py:504-524 | over all runs, an accepted handshake gives the remote information, once the undelivered events are folded in, if and only if its snapshot loses nothing of what has been received; whatever the contents of the events, if and only if nothing has been skipped, or each skipped event is followed by an undelivered one of the same process |
| Handshake.OpeningIsCoherentExactly | supvisors/context.py:466-524 | in any run, the step that opens the gate to the events is the acceptance of such a handshake, and its outcome is this one |
| Handshake.RefusalIsFinal | supvisors/context.py:496-503 | over any run after a refusal, the instance is isolated, no handshake is requested and nothing is loaded from it |
| Handshake.RefusedHandshake | supvisors/internal_com/supervisorproxy.py:189-217 | a refusal of the remote instance is posted and ends in this isolation |
| Handshake.RetriedAtNextTick | supvisors/context.py:490-516 | over any run after no answer, or a rejected acceptance, nothing happens until the next tick, which requests another handshake |
| Handshake.LifeAfterAcceptance | supvisors/context.py:155-219 | an accepted instance is activated, and after a failure stopped or isolated, without losing what is loaded |
| Handshake.NoEventLost | supvisors/context.py:504-524 | when no unreflected event is received between the answer and its time stamp, then from CHECKED onward, over any run, the loaded information with the undelivered events folded in is the remote information |
| Handshake.EventLostInWindow | supvisors/internal_com/supervisorproxy.py:306-317 | any event received between the answer and its time stamp is lost in a handshake that is accepted |
| Handshake.WindowIsReached | supvisors/internal_com/supervisorproxy.py:306-317 | the very first handshake can be that one: a concrete run, from the start, that ends in CHECKED with outdated information, unless the event told nothing new |
| StateMachineTermination.InstancesChecked | supvisors/statemachine.py:127-146 | every evaluation acknowledges a FAILED or CHECKED instance, or changes nothing; leaving for ELECTION because of new instances always consumes one |
| StateMachineTermination.SyncExcludesResync | supvisors/statemachine.py:430-466 | with safe options, a condition that ends SYNCHRONIZATION excludes the failure that comes back to it |
| StateMachineTermination.RemainingDescends | supvisors/statemachine.py:957-979 | every iteration strictly decreases the pending instances, or the rank of the suggested state |
| StateMachineTermination.LoopEnds | supvisors/statemachine.py:957-979 | with safe options, for Master and Slave, whatever the clock and the jobs do, the loop ends while no event comes in |
| StateMachineTermination.UnsafeSpins | supvisors/statemachine.py:430-466 | with any other options, a context makes the loop run forever between SYNCHRONIZATION and ELECTION, once the timeout has passed |
| StateMachineTermination.SpinsExactlyWhenUnsafe | supvisors/options.py:224-230 | the options that allow an endless loop are exactly the unsafe ones |
| StateMachineTermination.SpinsOnceForcedExactly | supvisors/options.py:224-230 | among the options that TIMEOUT does not force to CONTINUE, or that have been: exactly RESYNC without USER, and CORE with STRICT or LIST whose core instances are unknown, or not declared if STRICT |
| StateMachineTermination.ForcingIsNotEnough | supvisors/options.py:204-230 | a concrete configuration that the check of the options leaves as it is (STRICT and CORE with RESYNC, a core instance that is not declared), and a context from which its loop never ends, whatever the clock and the jobs do |
| FiniteStateMachine.FiniteStateMachine.InvalidateFailed | supvisors/context.py:196-219 | each FAILED instance is Stopped or Isolated, one after the other since the loss of the Master changes what the next one becomes, and they are all returned |
| FiniteStateMachine.FiniteStateMachine.ActivateChecked | supvisors/context.py:155-167 | each CHECKED instance becomes Running, and they are all returned |
| FiniteStateMachine.FiniteStateMachine.CheckEndSyncUser | supvisors/statemachine.py:368-384 | with USER, a remote Master is accepted, and ends SYNCHRONIZATION when it is Running |
| StateMachineTermination.StrategyAppliesExactly | supvisors/statemachine.py:430-466 | without USER, a strategy other than CONTINUE takes over exactly when the instances that the first option set expects (core, then declared, then known ones) are not all among the stable running ones; for LIST the code compares numbers of instances |
| FiniteStateMachine.FiniteStateMachine.EvaluateElection | supvisors/statemachine.py:495-520 | the Master passes when all agree on it, a Slave when its Master has passed; otherwise a Master is selected |
| FiniteStateMachine.FiniteStateMachine.Next | supvisors/statemachine.py:89-107 | the evaluation of every state, Master and Slave, with the instances acknowledged before |
| FiniteStateMachine.FiniteStateMachine.SetState | supvisors/statemachine.py:957-979 | the loop ends, in a state whose suggestion is refused or already satisfied, through a run of the specified turns from the given suggestion |
| StateMachineWorking.MasterLeavesExactly | supvisors/statemachine.py:706-782 | in any run, the Master leaves DISTRIBUTION exactly when no start is in progress, OPERATION exactly when no job is and a process conflicts, CONCILIATION exactly when no job is and no process conflicts |
| StateMachineWorking.MasterStopsIn | supvisors/statemachine.py:706-782 | where a whole call takes the Master from ELECTION, by the jobs in progress and the conflicts |
| StateMachineWorking.MasterEndsExactly | supvisors/statemachine.py:818-898 | the Master leaves RESTARTING and SHUTTING_DOWN exactly when no stop is in progress |
| StateMachineWorking.SlaveFollowsExactly | supvisors/statemachine.py:604-610 | a Slave suggests the state of its Master in the working states, and ends exactly when its Master is not in the same ending state |
| StateMachineWorking.SlaveStopsIn | supvisors/statemachine.py:604-610 | a whole call takes a Slave to the working state of its Master, when the table allows it |
| StateMachineWorking.FailedChecksEnd | supvisors/statemachine.py:804-816 | an ending state goes to FINAL when the checks fail |
| StateMachineWorking.DisagreementElects | supvisors/statemachine.py:639-654 | the working states go back to ELECTION without an agreed Master |
| StateMachineWorking.CheckedInstances | supvisors/statemachine.py:656-718 | checked instances become running at once, except in DISTRIBUTION, where they wait; in OPERATION and CONCILIATION they lead to ELECTION |
| StateMachineWorking.FencedExactly | supvisors/context.py:169-219 | a FAILED instance is isolated exactly with auto-fencing, when it is remote, and when the Master is in a working state and has not just been invalidated |
| StateMachineWorking.EnteredFrom | supvisors/statemachine.py:1178-1203 | the table, read by its targets |
| StateMachineWorking.OffExactly | supvisors/statemachine.py:158-211 | OFF lasts until the local instance is RUNNING, and its loss leads back there |
| StateMachineWorking.SynchronizationEndsExactly | supvisors/statemachine.py:308-415 | SYNCHRONIZATION ends exactly when all instances of an awaited set are stable and running, on time out, or with a running Master of the user |
| StateMachineWorking.UserMasterIsAccepted | supvisors/statemachine.py:368-384 | with USER, the Master of a peer is taken, and nothing is without |
| StateMachineWorking.UserStrategyExactly | supvisors/statemachine.py:273-289 | with USER, the failure strategy applies exactly when instances are lost |
| StateMachineEndings.TurnTransits | supvisors/statemachine.py:957-979 | each turn of the loop is a transition of the table |
| StateMachineEndings.AlwaysSentOnce | supvisors/statemachine.py:853-898 | over any session, at most one restart or shutdown request is ever sent to the local instance, and none before FINAL |
| StateMachineEndings.EndingIsOneWay | supvisors/statemachine.py:1201-1203 | once RESTARTING or SHUTTING_DOWN is entered, the session stays there or reaches FINAL with exactly the matching request; FINAL is absorbing |
| StateMachineEndings.FinalFollowsEnding | supvisors/statemachine.py:853-898 | a session in FINAL has sent its single request on the step that left an ending state |
| ApplicationJobs.ApplicationJobs.Pickup | supvisors/commander.py:673-689 | the next batch is the lowest number for starts and the highest for stops |
| ApplicationJobs.ApplicationJobs.ProcessFailure | supvisors/commander.py:859-885 | only the failure of a required process aborts or stops the sequence |
| ApplicationJobs.ApplicationJobs.ProcessJob | supvisors/commander.py:827-857 | a popped command is started, or dropped when nothing is to be done or no instance is found |
| ApplicationJobs.ApplicationJobs.Next | supvisors/commander.py:511-530 | batches are triggered until one leaves a command in progress |
| ApplicationJobs.ApplicationJobs.Check | supvisors/commander.py:559-586 | commands that are too late or already done are removed, and the next batch is triggered |
| ApplicationJobs.ApplicationJobs.OnEvent | supvisors/commander.py:588-616 | an event completes, fails or leaves waiting the command that it concerns, and triggers the next batch when it was the last one |
| ApplicationJobs.ApplicationJobs.OnInstancesInvalidation | supvisors/commander.py:618-644 | the commands on lost instances fail, and only the processes that the sequence does not deal with are left to the failure handler |
| ApplicationJobs.ApplicationJobs.AddCommand | supvisors/commander.py:465-486 | a late command is added unless it is already planned or in progress |
| SequencerDiscipline.CommandsAccountedFor | supvisors/commander.py:432-643 | over any run of next, events, checks, losses and late additions, each command is planned, in progress, dropped or finished exactly as often as stored or added, and started as often as in progress or finished |
| SequencerDiscipline.LiveJobsDistinct | supvisors/commander.py:432-486 | over any run, no two live commands share process and target; for starts, none share their process |
| SequencerDiscipline.OneCommandPerEvent | supvisors/commander.py:588-616 | an event concerns at most one command in progress |
| SequencerBatches.CurrentBelongsToLastBatch | supvisors/commander.py:511-530 | over any run, the commands in progress belong to the last popped batch |
| SequencerBatches.BatchesInOrder | supvisors/commander.py:511-530 | without late addition, batch numbers strictly increase for starts and strictly decrease for stops |
| SequencerBatches.TickEndsIn | supvisors/commander.py:359-391 | each tick with a check brings the end of a stop sequence one tick closer |
| SequencerBatches.StopEndsInBoundedTime | supvisors/commander.py:559-585 | whatever states are reported and whatever instances are lost, a stop sequence without late addition ends within the sum over its batches of the largest wait ticks plus one |
| SequencerOutcomes.StartGoesOn | supvisors/commander.py:209-256 | a start remains in progress in STARTING, in BACKOFF with a new delay, and in RUNNING when its exit is awaited |
| SequencerOutcomes.StartSucceeds | supvisors/commander.py:209-256 | it succeeds in RUNNING when no exit is awaited, and in EXITED as expected with wait_exit: the sequence goes on |
| SequencerOutcomes.StartFails | supvisors/commander.py:859-885 | it fails in any other state: the plan is erased exactly for a required process without CONTINUE, and the stop of the application requested exactly by STOP |
| SequencerOutcomes.StopCompletes | supvisors/commander.py:342-357 | a stop completes exactly in the stopped states |
| SequencerOutcomes.ErasedPlanStartsNothing | supvisors/commander.py:859-885 | over any run after such a failure, without late addition, nothing is started any more |
| SequencerOutcomes.StopRequestIsCaused | supvisors/commander.py:859-885 | over any run, the stop of the application is only requested for a required process with STOP that has been dropped or is not in progress any more |
| SequencerOutcomes.StartRequestedExactly | supvisors/commander.py:827-857 | a start is requested exactly for a stopped process with an instance; without any, it is a failure |
| SequencerOutcomes.StopRequestedExactly | supvisors/commander.py:904-917 | a stop is requested exactly for a process that runs on the target |
| SequencerOutcomes.CheckKeepsExactly | supvisors/commander.py:258-391 | the periodic check keeps a command exactly when its process is not already there and its delay is not over |
| SequencerOutcomes.StopIsNotGivenUp | supvisors/commander.py:359-391 | over any run, a stop is not given up before its delay |
| SequencerOutcomes.TimeoutGoesOn | supvisors/commander.py:559-585 | a command that is given up is removed as if it were done, even for a required process |
| SequencerOutcomes.LossFailsExactly | supvisors/commander.py:618-644 | the loss of instances fails exactly the starts in progress on them, with the effect on the plan |
| Prediction.TriggerApp | supvisors/commander.py:1488-1498 | triggering the batches of an application keeps every command in progress awaited by an event of the queue, and pays for the events with the started commands |
| Prediction.FeedApp | supvisors/commander.py:1565-1581 | so does feeding an event, whether it completes, fails, or concerns no command in progress; with wait_exit or not |
| Prediction.PreparedSound | supvisors/commander.py:815-825 | the assignment of the targets before the start loses and duplicates no command |
| Prediction.PreparedExactly | supvisors/commander.py:783-825 | each planned process of a non-distributed application gets the instance that is found for it |
| Prediction.EventsInOrder | supvisors/commander.py:1488-1498 | the events of a predicted start, and the one that completes it |
| Prediction.EventIsSeen | supvisors/commander.py:1570-1574 | a fed event only changes the state of its process on its instance |
| StarterModel.OverOnce | supvisors/commander.py:1516-1563 | in a sequence that is over, each command has been started and finished, or dropped, at most once |
| StarterModel.FeedKeeps | supvisors/commander.py:1565-1581 | the measure and the accounts of all applications over one event |
| StarterModel.StarterModel.Next | supvisors/commander.py:994-1022 | sequences of applications are triggered until one is in progress, and the ended ones are removed |
| StarterModel.StarterModel.OnEvent | supvisors/commander.py:1043-1055 | only the application of the event handles it, then the next jobs are triggered |
| StarterModel.StarterModel.FeedModel | supvisors/commander.py:1565-1581 | the loop ends within three events per unstarted command plus the queue, and then nothing is planned nor in progress |
| StarterModel.StarterModel.Predict | supvisors/commander.py:1529-1563 | a whole prediction drains within three events per planned command, and every planned command is accounted for in a sequence that is over |
| StableSort.SortedFirst | supvisors/strategy.py:156-170 | the first element of a stable sort is the first of the smallest ones |
| StableSort.SortedLast | supvisors/strategy.py:195-209 | the last element of a stable sort is the last of the greatest ones |
| Placement.RequestsByNode | supvisors/strategy.py:258-269 | adding the requested loads by instance and then by node gives the sum over the node |
| Placement.GetNodeLoadRequestMap | supvisors/strategy.py:258-269 | the accumulation gives each node the sum of the requests on its instances, zero included |
| Placement.SwapIsHarmless | supvisors/strategy.py:294-320 | giving the two node maps in the other order changes no choice |
| Placement.GetSupvisorsInstance | supvisors/strategy.py:294-320 | the choice among the running candidates |
| Placement.ReportMeans | supvisors/strategy.py:49-75 | a candidate is valid exactly when running plus requested load of its node, with the new load, is at most 100 |
| Placement.PlacedOrNone | supvisors/strategy.py:132-255 | every strategy chooses a running candidate whose node supports the load, and fails only when there is none; LOCAL only considers the local instance |
| Placement.ExtremeLoad | supvisors/strategy.py:153-229 | the least and most loaded strategies choose an extreme of their criteria among all valid candidates |
| Placement.ConfigIsFirst | supvisors/strategy.py:132-150 | CONFIG takes the first candidate that is running and whose node supports the load |
| Placement.StartIsRequested | supvisors/commander.py:827-857 | a process is requested exactly once when an instance can support it, and not at all otherwise |
| Placement.NodeBound | supvisors/commander.py:827-857 | starting a batch, whatever the strategies, leaves every node at most at the greatest of 100 and its load before, and at most at 100 when it received a command |
| Placement.StartBatch | supvisors/commander.py:516-530 | the one by one processing of a batch takes the requests of the previous commands into account |
| Placement.SingleNodeExactly | supvisors/commander.py:745-781 | when a node is found for the load of the start sequence, all commands get the same running instance of it; this succeeds if and only if the node supports each command and every process is configured on that instance, and raises otherwise |
| Placement.SingleNodeIsSafe | supvisors/commander.py:745-781 | for the commands of the start sequence, the node supports them all together and stays at most at 100 |
| Placement.SingleProcessExactly | supvisors/commander.py:1205-1237 | for a process that is started alone, maybe out of the start sequence: either the node stays at most at 100, or the distribution raises, with the equivalence |
| Placement.HeavyProcessRaises | supvisors/commander.py:1205-1237 | a process out of the start sequence for which it raises, whatever the strategy, although it is configured everywhere |
| Placement.SingleNodeIsTotal | supvisors/commander.py:745-781 | no failure when no command exceeds the load of the start sequence, and the processes are configured on the candidates of the chosen node |
| Placement.SplitNodeFails | supvisors/commander.py:745-781 | always a failure when no candidate has all the processes configured |
| Placement.PossibleNodeIdentifiers | supvisors/application.py:605-655 | the candidates are the instances of the nodes whose instances cover the processes together, in the order of the rules |
| Placement.SharedNodeFails | supvisors/application.py:605-655 | such candidates with which the distribution fails, whatever the strategy: two instances of a node that share the processes |
| Placement.SameInstance | supvisors/commander.py:745-781 | as the requests are not refreshed, the choice on the node does not depend on the load of the command |
| Placement.DistributeToSingleNode | supvisors/commander.py:745-781 | the sum over the start sequence and the loop over the commands compute that distribution |
| ProcessSynthesis.RunKeepsConsistent | supvisors/process.py:610-689 | over any run: running-like identifiers within the running set, itself within running-like or STOPPING ones, and the synthetic state is a stopped one exactly when nothing runs nor stops |
| ProcessSynthesis.RunningIsNeverUnknown | supvisors/process.py:758-823 | over every run: replacing the running set of a stopped process is adding to it, and the choice among the running states never falls back to UNKNOWN |
| ProcessSynthesis.RunningPriority | supvisors/process.py:813-823 | with running instances, RUNNING comes before BACKOFF, STARTING and STOPPING |
| ProcessSynthesis.StoppedState | supvisors/process.py:758-797 | without, the state is STOPPING, or the one of the entry that has been refreshed last |
| ProcessSynthesis.ExpectedExactly | supvisors/process.py:758-797 | when an exit is expected |
| ProcessSynthesis.EvaluatedAfterNews | supvisors/process.py:610-689 | any information on an instance is followed by that evaluation |
| ProcessSynthesis.ForcedExactly | supvisors/process.py:283-309 | a forced state is taken exactly when no later event is known from its instance |
| ProcessSynthesis.ForcedUntilNews | supvisors/process.py:311-322 | a forced state lasts until the next event, or a load of another state than STOPPED |
| ProcessSynthesis.RunningFromHistories | supvisors/process.py:610-797 | over any run, an instance is in the running set exactly when its own history of reports says so |
| ProcessSynthesis.RemovalKeepsConsistent | supvisors/process.py:748-756 | removing an entry keeps the invariant if and only if the process does not run there, and the entry is stopped or another one is stopping |
| ProcessSynthesis.LossStopsExactly | supvisors/context.py:196-219 | after the loss of an instance, the process is stopped if and only if it was before, or its state was a running one, it ran nowhere else and it was not stopping elsewhere: a process that is stopping on the lost instance is not invalidated |
| ProcessSynthesis.StoppingSurvivesLoss | supvisors/instancestatus.py:332-336 | the run where it is not: started then stopping on its only instance, which is lost, the process stays as it is, although invalidating it would have stopped it |
| ProcessSynthesis.InvalidationStopsExactly | supvisors/process.py:727-746 | the same equivalence for the invalidation alone |
| ProcessStatus.LoseInstance | supvisors/context.py:214-215 | one process over the loss of an instance, and exactly when it belongs to the failed ones |
| ProcessSynthesis.LoadedStoppingSurvivesLoss | supvisors/process.py:610-641 | another such run: loaded as STOPPING, the process is in no running set, and even invalidating it would change nothing |
| ProcessStatus.ProcessStatus.AddInfo | supvisors/process.py:610-641 | loading the information of an instance keeps the invariant |
| ProcessStatus.ProcessStatus.UpdateInfo | supvisors/process.py:643-689 | an update from an unknown instance is refused; otherwise it dismisses the forced state |
| ProcessStatus.ProcessStatus.UpdateStatus | supvisors/process.py:758-797 | the running set, the synthetic state and the expected exit |
| ProcessStatus.ProcessStatus.InvalidateIdentifier | supvisors/process.py:727-746 | the process leaves the running set of a lost instance, and a failure is told exactly when it ran there last |
| ProcessStatus.ProcessStatus.RemoveIdentifier | supvisors/process.py:748-756 | tells when the process is not defined anywhere anymore; the invariant remains exactly when the process did not run there and the entry was stopped or another one is stopping |
| ProcessStatus.ProcessStatus.ForceState | supvisors/process.py:283-309 | a forced state is displayed, unless more recent information has been received |
| FailureHandler.JobsAreThePriorities | supvisors/strategy.py:494-598 | after any list of requests, the four sets are one closed form of the set of these requests |
| FailureHandler.OrderIsIrrelevant | supvisors/strategy.py:578-598 | any permutation or repetition of the requests gives the same jobs |
| FailureHandler.JobsAreExclusive | supvisors/strategy.py:494-576 | the jobs exclude each other by priority; a process out of the start sequence is allowed beside the restart of its application |
| FailureHandler.RequestsAreServed | supvisors/strategy.py:494-598 | every request is served by its job, or by one that takes precedence over it |
| FailureHandler.PromotionReplaces | supvisors/strategy.py:600-616 | when the application is stopped, restarting a sequenced process becomes restarting the application |
| FailureHandler.PromotedExactly | supvisors/strategy.py:600-616 | a restart is promoted exactly for a sequenced process of a stopped application |
| FailureHandler.RunningApplicationIsNotRestarted | supvisors/strategy.py:600-616 | when the application still runs, only the process is restarted |
| FailureHandler.RunningFailureHandler.AddStopApplicationJob | supvisors/strategy.py:494-507 | replaces all other jobs of the application |
| FailureHandler.RunningFailureHandler.AddRestartApplicationJob | supvisors/strategy.py:509-528 | replaces the jobs of the sequenced processes, unless the application has to be stopped |
| FailureHandler.RunningFailureHandler.AddRestartProcessJob | supvisors/strategy.py:530-552 | dismissed by the jobs of the application |
| FailureHandler.RunningFailureHandler.AddContinueProcessJob | supvisors/strategy.py:554-576 | dismissed by any other job |
| FailureHandler.RunningFailureHandler.AddJob | supvisors/strategy.py:578-598 | the stored jobs are those of the list of requests since the last abort, with this one added |
| FailureHandler.RunningFailureHandler.AddDefaultJob | supvisors/strategy.py:600-616 | so are they with the default strategy of the process, promoted when the application is stopped |
| HomogeneousGroup.AtAssignsInOrder | supvisors/application.py:296-340 | each resolution assigns exactly the smallest of unassigned processes and free candidates, by index and in the order of the candidates |
| HomogeneousGroup.ByIndexOrdered | supvisors/application.py:305-307 | the processes are served by increasing index |
| HomogeneousGroup.FreeInOrder | supvisors/application.py:326-331 | the free instances keep the order of the candidates |
| HomogeneousGroup.AtKeepsInv | supvisors/application.py:296-340 | assigned instances stay pairwise distinct, and an assignment is never changed |
| HomogeneousGroup.SpreadNeverGrows | supvisors/application.py:376-389 | the least loaded choice never makes the spread larger than the greatest of 1 and what it was |
| HomogeneousGroup.HashKeepsSpread | supvisors/application.py:342-389 | so does a whole resolution on the assignments, for the candidates known by then |
| HomogeneousGroup.HashKeepsInv | supvisors/application.py:342-389 | every process gets a candidate, an assignment is never changed, and the candidates may grow before the next resolution |
| HomogeneousGroup.RoundRobin | supvisors/application.py:376-389 | from no assignment, the least loaded choices go to the candidates in turn |
| HomogeneousGroup.HashFromEmptyIsRoundRobin | supvisors/application.py:342-389 | from no assignment, the i-th process by index gets candidate i modulo their number |
| HomogeneousGroup.HashLoad | supvisors/application.py:360-389 | the counts of the loop are the counts of the assignments |
| HomogeneousGroup.HomogeneousGroup.AddProcess | supvisors/application.py:229-256 | the process comes last, with its rules; its name may have been removed before |
| HomogeneousGroup.HomogeneousGroup.RemoveProcess | supvisors/application.py:258-264 | the process goes with its rules, and the others keep theirs |
| HomogeneousGroup.HomogeneousGroup.AssignAtIdentifiers | supvisors/application.py:296-340 | the two lists walked together |
| HomogeneousGroup.HomogeneousGroup.AssignHashIdentifiers | supvisors/application.py:342-389 | the greedy loop; it raises, and assigns nothing, exactly when a process is pending and there is no candidate, or an assigned instance is not a candidate |
| HomogeneousGroupRuns.AtHoldsOverRuns | supvisors/application.py:229-340 | over any run of additions (of processes to be resolved, or resolved to an instance that is not taken), removals and resolutions, assigned instances are pairwise distinct, and each process has one of them or a rule to be resolved |
| HomogeneousGroupRuns.AssignmentsAreFinal | supvisors/application.py:229-389 | over any run, with either rule, an assignment is never changed until its process is removed |
| HomogeneousGroupRuns.AtResolvesAllItCan | supvisors/application.py:296-340 | each resolution serves exactly the smallest of the pending processes and of the free candidates, and leaves the same other processes waiting |
| HomogeneousGroupRuns.HashHoldsOverRuns | supvisors/application.py:229-389 | over any run with growing candidates, every assigned instance is a candidate, so counting the assignments never raises |
| HomogeneousGroupRuns.HashSpreadsOverRuns | supvisors/application.py:342-389 | after any such run, the next resolution serves every process and does not make the spread larger than the greatest of 1 and what it was |
| StatusFormula.EvaluationIsMeaning | supvisors/application.py:816-872 | whether a formula gives a Boolean, a list or an error depends on the names only, and a Boolean is the standard meaning |
| StatusFormula.Monotone | supvisors/application.py:816-872 | a formula without `not` that holds still holds when more processes are good |
| StatusFormula.UpdateStatusFormula | supvisors/application.py:874-902 | the major and minor failures, and who decides on each of them |
| StatusFormula.GoodOrCrashed | supvisors/application.py:893-909 | each process is good, crashed, or stopped on request |
| StatusFormula.SingleProcessFormula | supvisors/application.py:904-909 | a formula that names one process fails exactly when it is stopped, stopping, fatal, unknown, or has exited unexpectedly |
| StatusFormula.RecoveryRaisesNoFailure | supvisors/application.py:874-909 | without `not` in the formula, a process that becomes good never raises a major failure |

## Left out

- Transport, proxies, publishers, JSON, the XML-RPC and web interfaces, the command line, the rules files, logging and statistics.
- Discovery: the known instances, the nodes, the core list and the nick identifiers are given, and fixed during a run.
- Supervisor itself and its monkey patches: what a process does is reported by events.
- Objects held by others (the StateModes of the dictionary, the commands of a sequence, the entries of a process) are values, so aliasing between them is not captured.
- The degraded mode and the synchronization alerts, which no decision reads; discovery mode and the job flags are carried but not updated.
- The jobs aborted or triggered by the `enter` and `exit` of a state: the evaluation reads the progress of the jobs from its environment.
- The forced event of a live failed command can re-enter the sequencers while a popped batch is being processed; as in the prediction, a failure is a recorded outcome. Nothing is claimed about the start order across live applications.
- The STOP failure strategy is a recorded request; the Stopper call that it makes in a live sequence, and in a prediction, is not followed.
- Uptime, description, crash flags, extra arguments of a process; its disability is only an input of the candidates of a node; wall-clock times. Dates are integers.
- The triggering of the stored failure jobs, and the conciliation strategies.
- Isolation of the prediction from live data, which share inner dictionaries, and the load carried from one predicted batch to the next.
- Malformed calls in a status formula (no argument, or a function that is not a name).
- An accepted Master that is not a known instance, for which the program would raise an error, is taken as not running.
- ElectionSafety.AtMostOneMaster: snapshots from before the period that show its running set declare the Master that their sender still declares; otherwise the property is false, as `SameRunningSetSplits` shows.
- FiniteStateMachine.FiniteStateMachine.SetState: its options are safe ones, since with any other the loop may never end; `UnsafeSpins` is about these.
- Election.MastersAlwaysRunning: the Master that a user sets, or that is accepted from another instance (the USER option), is not part of these runs.
- ElectionSafety.RunKeepsSafety: nor is it part of the runs of the election safety and of its convergence; the Masters only come from selections.
- Handshake.NoEventLost: it excludes the runs in which an unreflected event is received between the remote answer and its time stamp, where the property is false.
- Handshake.RunKeepsInv: the set of processes of the remote instance is fixed; added and removed processes are not part of these runs.
- Placement.NodeBound: the running loads are fixed during a batch, so the bound is per batch.
- StarterModel.StarterModel.FeedModel: the jobs of the applications are values there, handled by the functions that the class ApplicationJobs is proved against.
