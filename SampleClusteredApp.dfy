/**
 * The sample application: its state-transition function, the run-level
 * properties instantiated with it, and client code that drives a connector
 * through recovery scenarios.
 */
module SampleClusteredApp {
  import opened Ordered
  import opened States
  import opened ClusterModel
  import opened ConnectorSpec
  import opened ClusterRuns
  import CC = ClusterConnector

  /** The sample's output state: the input's instrument, with the input's sequence id. */
  function SampleCompute(input: Input): (output: Output)
    ensures output.seqId == input.seqId && output.payload == input.payload
  {
    Output(input.seqId, input.payload)
  }

  /** Over any run of the sample application, the last output never moves backwards. */
  lemma SampleRunNeverRewinds(n: Node, evs: seq<Event>)
    requires ValidRun(n, evs, SampleCompute)
    ensures NotBehind(n.store.lastOutput, Run(n, evs, SampleCompute).store.lastOutput)
  {
    assert KeepsSequence(SampleCompute) by {
      forall i: Input ensures i.seqId <= SampleCompute(i).seqId {
      }
    }
    RunNeverRewinds(n, evs, SampleCompute);
  }

  /**
   * From construction on, the sample application publishes its outputs in
   * sequence order, and a recovery under way always has a pending timer task.
   */
  lemma SampleLifetimeInvariants(s: Store, evs: seq<Event>)
    requires ValidRun(InitState(s), evs, SampleCompute)
    ensures PublishedInOrder(Run(InitState(s), evs, SampleCompute))
    ensures RecoveryInFlight(Run(InitState(s), evs, SampleCompute))
  {
    assert KeepsSequence(SampleCompute) by {
      forall i: Input ensures i.seqId <= SampleCompute(i).seqId {
      }
    }
    InitStateSatisfiesInvariants(s);
    RunKeepsPublishedInOrder(InitState(s), evs, SampleCompute);
    RunKeepsRecoveryInFlight(InitState(s), evs, SampleCompute);
  }

  /** A connected, bound member with no history. */
  method NewBoundMember() returns (model: ClusterModel, conn: CC.ClusterConnector)
    ensures fresh(model) && fresh(conn) && conn.model == model
    ensures model.compute == SampleCompute
    ensures conn.bound && !conn.browsing && !conn.appFlowStarted && conn.timers == [] && conn.published == []
    ensures model.haStatus == HAState.Connected && model.seqStatus == SeqState.Bound
    ensures model.lastInput == None && model.lastOutput == None
  {
    model := new ClusterModel(SampleCompute);
    conn := new CC.ClusterConnector(model);
    conn.OnSessionEvent(UpNotice);
    conn.BindQueues();
  }

  /**
   * No recovered message arrives before the timer runs out; the first input,
   * seq 1, is then accepted against an absent last output and published
   * exactly when the member is Active.
   */
  method ScenarioTimeout(active: bool) returns (afterTimeout: SeqState, afterInput: SeqState,
                                                lastOutput: Option<Output>, published: seq<Output>)
    ensures afterTimeout == SeqState.RecoveringFromFlow && afterInput == SeqState.UpToDate
    ensures lastOutput == Some(Output(1, "ACME"))
    ensures published == if active then [Output(1, "ACME")] else []
  {
    var model, conn := NewBoundMember();
    conn.OnLVQFlowEvent(if active then FlowActive else FlowUp);
    conn.FireTimer(0);
    afterTimeout := model.GetSequenceStatus();
    conn.ProcessInputMsg(Input(1, "ACME"));
    afterInput := model.GetSequenceStatus();
    lastOutput := model.GetLastOutput();
    published := conn.published;
  }

  /**
   * An Active member whose recovery browsed a message with seq 5, which was
   * strictly ahead of its absent last output and therefore adopted.
   */
  method RecoveredMember() returns (model: ClusterModel, conn: CC.ClusterConnector)
    ensures fresh(model) && fresh(conn) && conn.model == model && model.compute == SampleCompute
    ensures model.lastOutput == Some(Output(5, "ACME")) && model.seqStatus == SeqState.RecoveringFromFlow
    ensures model.haStatus == HAState.Active && conn.appFlowStarted && !conn.browsing
  {
    model, conn := NewBoundMember();
    conn.OnLVQFlowEvent(FlowActive);
    conn.ProcessOutputMsg(Some(Output(5, "ACME")));
  }

  /**
   * After the recovered seq 5 was adopted, an input with the same seq 5 is
   * recomputed and makes the member up to date. A later input with seq 3 is
   * behind it: it is only recorded, and compute is not called.
   */
  method ScenarioRecovered() returns (afterRecovery: SeqState, afterInput: SeqState, outputSeq: nat,
                                      staleLog: seq<Notification>, lastInput: Option<Input>)
    ensures afterRecovery == SeqState.RecoveringFromFlow && afterInput == SeqState.UpToDate
    ensures outputSeq == 5
    ensures staleLog == [ApplicationMessage(Some(Input(3, "ACME")))]
    ensures lastInput == Some(Input(3, "ACME"))
  {
    var model, conn := RecoveredMember();
    afterRecovery := model.GetSequenceStatus();
    conn.ProcessInputMsg(Input(5, "ACME"));
    afterInput := model.GetSequenceStatus();
    var out := model.GetLastOutput();
    outputSeq := out.value.seqId;
    var before := model.log;
    conn.ProcessInputMsg(Input(3, "ACME"));
    staleLog := model.log[|before|..];
    lastInput := model.GetLastInput();
  }

  /** Two "active" signals in immediate succession schedule exactly one timer task. */
  method ScenarioDoubleActive() returns (tasks: nat, ha: HAState, sq: SeqState)
    ensures tasks == 1 && ha == HAState.Active && sq == SeqState.Recovering
  {
    var model, conn := NewBoundMember();
    conn.OnLVQFlowEvent(FlowActive);
    conn.OnLVQFlowEvent(FlowActive);
    tasks := |conn.timers|;
    ha := model.GetHAStatus();
    sq := model.GetSequenceStatus();
  }

  /** How many of `timers` are still pending. */
  function PendingTasks(timers: seq<TimerTask>): (count: nat) {
    if timers == [] then 0
    else PendingTasks(timers[..|timers| - 1]) + (if timers[|timers| - 1].status == Pending then 1 else 0)
  }

  /** One task that ran and two still pending: two are pending. */
  lemma TwoOfThreePending()
    ensures PendingTasks([TimerTask(RecoveryDelay, Ran), TimerTask(RecoveryDelay, Pending),
                          TimerTask(RecoveryDelay, Pending)]) == 2
  {
    var ran, pend := TimerTask(RecoveryDelay, Ran), TimerTask(RecoveryDelay, Pending);
    var a, b, c := [ran], [ran, pend], [ran, pend, pend];
    assert a[..0] == [] && PendingTasks(a) == 0;
    assert b[..1] == a && PendingTasks(b) == 1;
    assert c[..2] == b && PendingTasks(c) == 2;
  }

  /**
   * A member whose first recovery timed out and whose second recovery is still
   * under way when input seq 1 makes it up to date; being Active, it publishes.
   */
  method UpToDateMidRecovery() returns (model: ClusterModel, conn: CC.ClusterConnector)
    ensures fresh(model) && fresh(conn) && conn.model == model && model.compute == SampleCompute
    ensures conn.bound && conn.timers == [TimerTask(RecoveryDelay, Ran), TimerTask(RecoveryDelay, Pending)]
    ensures model.haStatus == HAState.Active && model.seqStatus == SeqState.UpToDate
    ensures conn.published == [Output(1, "ACME")]
  {
    model, conn := NewBoundMember();
    conn.OnLVQFlowEvent(FlowUp);
    conn.FireTimer(0);
    conn.OnLVQFlowEvent(FlowActive);
    conn.ProcessInputMsg(Input(1, "ACME"));
  }

  /**
   * Two timer tasks can be pending at once: an input makes the member up to
   * date while its second recovery is under way, so a third "active" signal
   * starts another recovery beside it. Meanwhile the Active member publishes.
   */
  method ScenarioOverlappingRecoveries() returns (pending: nat, published: seq<Output>)
    ensures pending == 2
    ensures published == [Output(1, "ACME")]
  {
    var model, conn := UpToDateMidRecovery();
    conn.OnLVQFlowEvent(FlowActive);
    assert conn.timers == [TimerTask(RecoveryDelay, Ran), TimerTask(RecoveryDelay, Pending),
                           TimerTask(RecoveryDelay, Pending)];
    TwoOfThreePending();
    pending := PendingTasks(conn.timers);
    published := conn.published;
  }
}
