# HA/sequence coordination of a clustered application member

This project models the coordination core of one member of a two-member, hot/hot
clustered application on a Solace broker. Both members consume the same ordered
input queue and compute application state. Only the Active member publishes it.
A member that (re)joins first recovers the last published state from a
last-value queue (LVQ). That recovery is bounded by a 250 ms timer. An input
strictly behind the member's last output is not recomputed; one with the same
sequence id is. Right after a recovery, the last output is the recovered state
if that was strictly ahead, and the member's own output otherwise. When the
application never computes an output behind its input (`KeepsSequence`), as
the sample's does, then for the rest of the run every input strictly behind
the recovered message is not recomputed, and every output published is at
least as recent as that message.

The model has two layers.

- `ClusterModel` (ClusterModel.dfy) is the state store. It is a class with the
  fields HA state, sequence state, last input and last output. Every setter
  overwrites its own field and then calls the listener. Those calls are kept in
  order in the field `log`. The listener's state-transition function
  (`UpdateApplicationState` of the listener, called "compute" below) is a
  constant `compute: Input -> Output` of the store.
- `ClusterConnector` (ClusterConnector.dfy) is the coordinator, a class over the
  store. It also holds:
  - the broker effects as observable fields: the flows exist (`bound`), the LVQ
    browser is started (`browsing`), the application flow is started
    (`appFlowStarted`);
  - every recovery timer task ever scheduled (`timers`, the current `_task`
    last);
  - every output handed to the broker (`published`).

  Each handler is proved to have the effect of the function of the same name in
  ConnectorSpec.dfy on the value `Snapshot()`. Those functions state the
  handler's promises in their `ensures`:
  - the publish gate;
  - the stale-input discard;
  - the recovery comparison;
  - the re-entrancy guard of `recoverLastState`;
  - the timer-expiry fallback.

ClusterRuns.dfy closes the handlers over runs. A run is any sequence of broker
signals, each delivered only when the broker can deliver it:
- the queues are bound once, after the session is up;
- a timer task runs only while pending;
- the browser delivers only while started;
- inputs arrive only while the application flow is started.

It proves these properties of every run. The first four hold for a compute
that does not put an output behind its input (`KeepsSequence`), as the sample's
does; the listener interface does not demand this, and without it they fail.
- the last output's sequence id never decreases;
- published outputs stay in sequence order, from a state where they already
  are (`PublishedInOrder`, which a freshly constructed connector satisfies);
- every output published during a run is at least as recent as the last output
  the run started from, and every output published after a recovered message
  was handled is at least as recent as that message;
- after a recovered message was handled, every later input strictly behind it
  is stale, so compute is not called for it;
- while the member is Recovering, the browser runs and the current timer task is
  still pending, from a state where this already holds (`RecoveryInFlight`,
  which a freshly constructed connector satisfies: `InitStateSatisfiesInvariants`);
- a burst of leader-election signals schedules at most one timer task.

SampleClusteredApp.dfy instantiates these with the sample application's compute
(it copies the input's sequence id) and drives a connector through the recovery
scenarios.

Notable behaviour of the code as written, which the model keeps:
- `SetSequenceStatus` reads its "old" value from the parameter, so the listener
  is told (new, new) rather than (previous, new).
- A recovered message that is not strictly ahead of the current output,
  including an absent one, makes the member UpToDate with no check of its HA
  role. Neither the recovered-message handler nor the timer handler checks that
  the member is Recovering.
- `becomeActive` sets HA to Active right after starting a recovery, so the
  member is Active while still Recovering.
- The re-entrancy guard of `recoverLastState` (ClusterConnector.java:284, whose
  message at line 301 says it is "skipping the LVQ check") is meant to keep a
  single recovery timer in flight, but the code can have two. An input makes the member UpToDate during a recovery, and a later
  "active" signal then schedules a second task beside the first. The model
  follows the code; `ScenarioOverlappingRecoveries` exhibits two pending tasks.

## Model

| member | source | states |
|---|---|---|
| ClusterModel.ClusterModel.constructor | src/main/java/com/solacesystems/poc/model/ClusterModel.java:13-17 | the store starts Disconnected, Init, with no last input or output, and no listener calls |
| ClusterModel.ClusterModel.GetHAStatus | src/main/java/com/solacesystems/poc/model/ClusterModel.java:19-21 | returns the HA state last stored |
| ClusterModel.ClusterModel.SetHAStatus | src/main/java/com/solacesystems/poc/model/ClusterModel.java:22-26 | changes only the HA state and calls the listener exactly once, with (previous, new) |
| ClusterModel.ClusterModel.GetSequenceStatus | src/main/java/com/solacesystems/poc/model/ClusterModel.java:28-30 | returns the sequence state last stored |
| ClusterModel.ClusterModel.SetSequenceStatus | src/main/java/com/solacesystems/poc/model/ClusterModel.java:31-35 | changes only the sequence state; the listener is told (new, new), because "old" is read from the parameter |
| ClusterModel.ClusterModel.GetLastInput | src/main/java/com/solacesystems/poc/model/ClusterModel.java:37-39 | returns the last input stored by SetLastInput or UpdateApplicationState |
| ClusterModel.ClusterModel.SetLastInput | src/main/java/com/solacesystems/poc/model/ClusterModel.java:40-43 | changes only the last input and calls OnApplicationMessage with it |
| ClusterModel.ClusterModel.GetLastOutput | src/main/java/com/solacesystems/poc/model/ClusterModel.java:45-47 | returns the last output stored by SetLastOutput or UpdateApplicationState |
| ClusterModel.ClusterModel.SetLastOutput | src/main/java/com/solacesystems/poc/model/ClusterModel.java:48-51 | changes only the last output and calls OnInitialStateMessage with it |
| ClusterModel.ClusterModel.UpdateApplicationState | src/main/java/com/solacesystems/poc/model/ClusterModel.java:60-63 | last output becomes compute(input) and last input becomes the input; HA and sequence state are unchanged; the only listener call is compute itself |
| ConnectorSpec.InitState | src/main/java/com/solacesystems/poc/model/ClusterConnector.java:223-227 | construction clears the last output and resets HA to Disconnected and sequence to Init through the setters; the last input is kept; nothing is bound, started, scheduled or published |
| ConnectorSpec.SendOutput | src/main/java/com/solacesystems/poc/model/ClusterConnector.java:116-123 | the output is published if and only if HA is Active and sequence is UpToDate; nothing else changes |
| ConnectorSpec.OnSessionEvent | src/main/java/com/solacesystems/poc/model/ClusterConnector.java:151-166 | the UP notice makes HA and sequence Connected; every other session event changes nothing |
| ConnectorSpec.BindQueues | src/main/java/com/solacesystems/poc/model/ClusterConnector.java:60-109 | once HA is Connected, binding creates a stopped browser and a stopped application flow and sets sequence to Bound |
| ConnectorSpec.RecoverLastState | src/main/java/com/solacesystems/poc/model/ClusterConnector.java:283-304 | outside Recovering, it enters Recovering, schedules exactly one 250 ms task and starts the browser; when already Recovering, it schedules nothing and leaves the browser alone; either way it ends Backup, with last input and output unchanged; the listener log gains the sequence change (when recovery starts) and then the HA change |
| ConnectorSpec.BecomeActive | src/main/java/com/solacesystems/poc/model/ClusterConnector.java:322-326 | afterwards HA is Active and sequence is Recovering; at most one task was scheduled, none if a recovery was under way |
| ConnectorSpec.BecomeBackup | src/main/java/com/solacesystems/poc/model/ClusterConnector.java:331-334 | changes only the HA state, to Backup |
| ConnectorSpec.OnLVQFlowEvent | src/main/java/com/solacesystems/poc/model/ClusterConnector.java:192-209 | up means recover (Backup, Recovering); active means become Active (Active, Recovering); inactive means Backup with sequence unchanged; any other event changes nothing |
| ConnectorSpec.NoLastStateMessage | src/main/java/com/solacesystems/poc/model/ClusterConnector.java:312-317 | timer expiry stops the browser, sets RecoveringFromFlow, keeps the last output and starts the application flow |
| ConnectorSpec.FireTimer | src/main/java/com/solacesystems/poc/model/ClusterConnector.java:289-293 | only a pending task runs; it is marked as run, no other task changes, and the expiry handler follows |
| ConnectorSpec.CancelCurrent | src/main/java/com/solacesystems/poc/model/ClusterConnector.java:235 | cancelling leaves the current task not pending and every earlier task as it was |
| ConnectorSpec.ProcessOutputMsg | src/main/java/com/solacesystems/poc/model/ClusterConnector.java:234-252 | the result is at least as recent as both the current output and the recovered one; it adopts the recovered one only when strictly ahead, and then the sequence is RecoveringFromFlow, otherwise UpToDate; the timer is cancelled, the browser stopped and the application flow started |
| ConnectorSpec.ProcessInputMsg | src/main/java/com/solacesystems/poc/model/ClusterConnector.java:263-276 | a stale input changes only the last input, with no compute call; any other input ends UpToDate with last output compute(input), last input the input and HA unchanged, and its output is published if and only if HA is Active |
| ClusterConnector.ClusterConnector.constructor | src/main/java/com/solacesystems/poc/model/ClusterConnector.java:43-49 | the new connector's state is InitState of the store it was given |
| ClusterConnector.ClusterConnector.OnSessionEvent | src/main/java/com/solacesystems/poc/model/ClusterConnector.java:151-166 | has exactly the effect of ConnectorSpec.OnSessionEvent |
| ClusterConnector.ClusterConnector.BindQueues | src/main/java/com/solacesystems/poc/model/ClusterConnector.java:60-109 | has exactly the effect of ConnectorSpec.BindQueues |
| ClusterConnector.ClusterConnector.SendOutput | src/main/java/com/solacesystems/poc/model/ClusterConnector.java:116-123 | reports whether it sent, which is exactly when HA is Active and sequence is UpToDate; has exactly the effect of ConnectorSpec.SendOutput |
| ClusterConnector.ClusterConnector.OnLVQFlowEvent | src/main/java/com/solacesystems/poc/model/ClusterConnector.java:192-209 | has exactly the effect of ConnectorSpec.OnLVQFlowEvent |
| ClusterConnector.ClusterConnector.ProcessOutputMsg | src/main/java/com/solacesystems/poc/model/ClusterConnector.java:234-252 | has exactly the effect of ConnectorSpec.ProcessOutputMsg |
| ClusterConnector.ClusterConnector.ProcessInputMsg | src/main/java/com/solacesystems/poc/model/ClusterConnector.java:263-276 | has exactly the effect of ConnectorSpec.ProcessInputMsg, with the store's compute |
| ClusterConnector.ClusterConnector.RecoverLastState | src/main/java/com/solacesystems/poc/model/ClusterConnector.java:283-304 | has exactly the effect of ConnectorSpec.RecoverLastState |
| ClusterConnector.ClusterConnector.NoLastStateMessage | src/main/java/com/solacesystems/poc/model/ClusterConnector.java:312-317 | has exactly the effect of ConnectorSpec.NoLastStateMessage |
| ClusterConnector.ClusterConnector.FireTimer | src/main/java/com/solacesystems/poc/model/ClusterConnector.java:289-293 | has exactly the effect of ConnectorSpec.FireTimer |
| ClusterConnector.ClusterConnector.BecomeActive | src/main/java/com/solacesystems/poc/model/ClusterConnector.java:322-326 | has exactly the effect of ConnectorSpec.BecomeActive |
| ClusterConnector.ClusterConnector.BecomeBackup | src/main/java/com/solacesystems/poc/model/ClusterConnector.java:331-334 | has exactly the effect of ConnectorSpec.BecomeBackup |
| ClusterRuns.StepNeverRewinds | src/main/java/com/solacesystems/poc/model/ClusterConnector.java:242-245 | no single signal moves the last output backwards, for a compute that keeps the sequence |
| ClusterRuns.RunNeverRewinds | src/main/java/com/solacesystems/poc/model/ClusterConnector.java:263-270 | for a compute that keeps the sequence (`KeepsSequence`), over any run the last output's sequence id never decreases and a present last output never disappears |
| ClusterRuns.StepKeepsPublishedInOrder | src/main/java/com/solacesystems/poc/model/ClusterConnector.java:116-123 | for a compute that keeps the sequence, one signal keeps published outputs in sequence order and never ahead of the last output |
| ClusterRuns.RunKeepsPublishedInOrder | src/main/java/com/solacesystems/poc/model/ClusterConnector.java:263-270 | for a compute that keeps the sequence, and from a state whose publications are already in order (`PublishedInOrder`, which `InitStateSatisfiesInvariants` supplies), published outputs stay in non-decreasing sequence order over any run |
| ClusterRuns.StepPublishesItsLastOutput | src/main/java/com/solacesystems/poc/model/ClusterConnector.java:263-270 | a single signal publishes nothing, or exactly the last output it leaves in the store |
| ClusterRuns.RunPublishesNothingBehindStart | src/main/java/com/solacesystems/poc/model/ClusterConnector.java:263-270 | for a compute that keeps the sequence, over any run published outputs only grow, and every one added is at least as recent as the last output the run started from |
| ClusterRuns.RecoveredStateNeverUndercut | src/main/java/com/solacesystems/poc/model/ClusterConnector.java:234-270 | for a compute that keeps the sequence, after a browsed last-value-queue message is handled, every output published in the rest of the run is at least as recent as that message |
| ClusterRuns.RecoveredStateMakesOlderInputsStale | src/main/java/com/solacesystems/poc/model/ClusterConnector.java:242-270 | for a compute that keeps the sequence, after a recovered message is handled, any input strictly behind it arriving later in the run is stale, so it is not recomputed |
| ClusterRuns.StepKeepsRecoveryInFlight | src/main/java/com/solacesystems/poc/model/ClusterConnector.java:283-317 | one signal preserves: while Recovering, the browser runs and the current timer task is pending |
| ClusterRuns.RunKeepsRecoveryInFlight | src/main/java/com/solacesystems/poc/model/ClusterConnector.java:283-317 | from a state that already satisfies it (`RecoveryInFlight`, which a freshly constructed connector satisfies: `InitStateSatisfiesInvariants`), over any run a recovery under way is bounded by a pending timer task |
| ClusterRuns.FlowEventsScheduleAtMostOneTimer | src/main/java/com/solacesystems/poc/model/ClusterConnector.java:283-304 | any burst of leader-election signals schedules at most one timer task, and none while a recovery is under way |
| ClusterRuns.InitStateSatisfiesInvariants | src/main/java/com/solacesystems/poc/model/ClusterConnector.java:223-227 | a freshly constructed connector satisfies both run invariants |
| SampleClusteredApp.SampleCompute | src/main/java/com/solacesystems/poc/SampleClusteredApp.java:73-88 | the sample output copies the input's sequence id and instrument |
| SampleClusteredApp.SampleRunNeverRewinds | src/main/java/com/solacesystems/poc/SampleClusteredApp.java:76-77 | with the sample's compute, the last output never moves backwards over any run |
| SampleClusteredApp.SampleLifetimeInvariants | src/main/java/com/solacesystems/poc/SampleClusteredApp.java:73-88 | from construction on, the sample publishes in sequence order and every recovery under way has a pending timer task |
| SampleClusteredApp.NewBoundMember | src/main/java/com/solacesystems/poc/SampleClusteredApp.java:28-39 | constructing, connecting and binding yields a member that is Connected and Bound, with nothing started, scheduled or published |
| SampleClusteredApp.ScenarioTimeout | src/main/java/com/solacesystems/poc/model/ClusterConnector.java:312-317 | with no recovered message the timer leads to RecoveringFromFlow; the first input (seq 1) then makes the member UpToDate with output seq 1, published if and only if Active |
| SampleClusteredApp.RecoveredMember | src/main/java/com/solacesystems/poc/model/ClusterConnector.java:234-252 | an Active member that browses a recovered seq 5 ahead of its absent last output adopts it, is RecoveringFromFlow and has its application flow started and browser stopped |
| SampleClusteredApp.ScenarioRecovered | src/main/java/com/solacesystems/poc/model/ClusterConnector.java:234-276 | a recovered seq 5 is adopted (RecoveringFromFlow); input seq 5 is recomputed (UpToDate, output 5); a later input seq 3 is only recorded, with no compute call |
| SampleClusteredApp.ScenarioDoubleActive | src/main/java/com/solacesystems/poc/model/ClusterConnector.java:283-304 | two "active" signals in a row schedule exactly one timer task and leave the member Active and Recovering |
| SampleClusteredApp.UpToDateMidRecovery | src/main/java/com/solacesystems/poc/model/ClusterConnector.java:263-304 | after a timed-out recovery, a second recovery and input seq 1, the member is Active and UpToDate with tasks [ran, pending] and output seq 1 published |
| SampleClusteredApp.TwoOfThreePending | src/main/java/com/solacesystems/poc/model/ClusterConnector.java:289-293 | helper of `ScenarioOverlappingRecoveries`: counts the pending tasks of the list [ran, pending, pending] that scenario reaches, which is two |
| SampleClusteredApp.ScenarioOverlappingRecoveries | src/main/java/com/solacesystems/poc/model/ClusterConnector.java:283-304 | as written, two timer tasks can be pending at once, after an input made the member UpToDate mid-recovery |

## Left out

- Broker I/O is not part of this model: opening the session (`Connect`), the
  queue, browser and flow binding calls and their callbacks in `BindQueues`,
  `Destroy`, `SendOutput(ByteBuffer)` and `Helper.destroyHandle`. Only their
  effects on the coordinator's state are kept: handles exist, started or
  stopped, output handed to the broker.
- Binding a second time is not modelled. In the source, a second `BindQueues`
  (ClusterConnector.java:68-104) creates new handles and leaves the old ones
  running, and the sample binds only once (SampleClusteredApp.java:39). Runs
  therefore bind once; `ConnectorSpec.BindQueues` describes that first bind.
- ClusterConnector.ClusterConnector.BindQueues: the busy-wait loop until HA is
  Connected is replaced by a precondition. A sequential model cannot have HA
  change while the loop spins.
- Timer threading (`java.util.Timer`): a task is a value with a status, and its
  firing is an explicit event allowed only while the task is pending. The code
  has no locking, and races between signals are not modelled.
- The null browser and null task paths are preconditions: a recovery runs only
  after binding, and a recovered message arrives only after a task was
  scheduled.
- Deserialising messages (SampleAppSerializer.java, ClusteredAppSerializer.java):
  their byte layout is not shown. Inputs and outputs are records with a `nat`
  sequence id and a payload string. A null recovered message, which the code
  handles at ClusterConnector.java:239 and 242, is the absent `None`.
- Sequence ids are unbounded naturals. The source's 32-bit `int` and its
  wrap-around are out of scope.
- ClusterConnector.ClusterConnector.ProcessInputMsg: the sample listener calls
  `SendOutput` inside compute. The model makes that call just after
  compute, on the same HA and sequence state, because compute changes neither.
- ClusterModel.ClusterModel.UpdateApplicationState: the model assumes the
  listener's compute always returns an output. The source stores whatever the
  listener returns (ClusterModel.java:61), so a null return would make a
  present last output disappear; the listener interface documents a real
  output and the sample never returns null. `RunNeverRewinds` relies on this.
- ClusterModel.ClusterModel.UpdateApplicationState: it returns the computed
  output, which the source's void method does not, so that the caller can pass
  it to the publish gate.
- SampleClusteredApp's `main`, its `Run` sleep loop, the JSON monitor output
  (`sendMonitorUpdate`, `toJSONString`) and console logging are process
  bootstrap, I/O and formatting.
- The empty handler `onAppFlowEvent` and the deserialising wrappers
  `onAppMessage` and `onLVQMessage` are not modelled separately: the run events
  deliver their decoded messages directly.
