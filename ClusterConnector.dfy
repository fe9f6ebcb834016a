/**
 * The coordinator object of one cluster member. Its handlers drive the state
 * store through its setters, start and stop the browser of the last-value
 * queue and the application flow, and schedule and cancel recovery timer
 * tasks. Each handler is proved to have the effect of the ConnectorSpec
 * function of the same name on the `Snapshot()` value.
 */
module ClusterConnector {
  import opened Ordered
  import opened States
  import opened ClusterModel
  import ConnectorSpec

  class ClusterConnector {
    const model: ClusterModel
    /** The browser, the application flow and the leader-election flow exist. */
    var bound: bool
    /** The browser of the last-value queue is started. */
    var browsing: bool
    /** The application flow is started, so inputs are delivered. */
    var appFlowStarted: bool
    /** Every task scheduled on the recovery timer; the last one is the current task. */
    var timers: seq<ConnectorSpec.TimerTask>
    /** Every output handed to the broker, oldest first. */
    var published: seq<Output>

    function Snapshot(): ConnectorSpec.Node
      reads this, model
    {
      ConnectorSpec.Node(model.Snapshot(), bound, browsing, appFlowStarted, timers, published)
    }

    constructor (model: ClusterModel)
      modifies model
      ensures this.model == model
      ensures Snapshot() == ConnectorSpec.InitState(old(model.Snapshot()))
    {
      this.model := model;
      bound, browsing, appFlowStarted := false, false, false;
      timers, published := [], [];
      new;
      model.SetLastOutput(None);
      model.SetHAStatus(HAState.Disconnected);
      model.SetSequenceStatus(SeqState.Init);
    }

    method OnSessionEvent(e: ConnectorSpec.SessionEvent)
      modifies model
      ensures Snapshot() == ConnectorSpec.OnSessionEvent(old(Snapshot()), e)
    {
      match e
      case UpNotice =>
        model.SetHAStatus(HAState.Connected);
        model.SetSequenceStatus(SeqState.Connected);
      case _ =>
    }

    /** The final step of binding the queues, reached once the session is connected. */
    method BindQueues()
      requires model.haStatus == HAState.Connected
      modifies this, model
      ensures Snapshot() == ConnectorSpec.BindQueues(old(Snapshot()))
    {
      bound, browsing, appFlowStarted := true, false, false;
      model.SetSequenceStatus(SeqState.Bound);
    }

    /** The publish gate: `sent` tells whether `output` went to the broker. */
    method SendOutput(output: Output) returns (sent: bool)
      modifies this
      ensures sent <==> old(model.haStatus) == HAState.Active && old(model.seqStatus) == SeqState.UpToDate
      ensures Snapshot() == ConnectorSpec.SendOutput(old(Snapshot()), output)
    {
      var h := model.GetHAStatus();
      var q := model.GetSequenceStatus();
      sent := h == HAState.Active && q == SeqState.UpToDate;
      if sent {
        published := published + [output];
      }
    }

    method OnLVQFlowEvent(e: ConnectorSpec.FlowEvent)
      requires bound
      modifies this, model
      ensures Snapshot() == ConnectorSpec.OnLVQFlowEvent(old(Snapshot()), e)
    {
      match e
      case FlowUp => RecoverLastState();
      case FlowActive => BecomeActive();
      case FlowInactive => BecomeBackup();
      case OtherFlowEvent =>
    }

    /** A message, or none, browsed from the last-value queue during recovery. */
    method ProcessOutputMsg(lvqState: Option<Output>)
      requires bound && |timers| > 0
      modifies this, model
      ensures Snapshot() == ConnectorSpec.ProcessOutputMsg(old(Snapshot()), lvqState)
    {
      timers := ConnectorSpec.CancelCurrent(timers);
      browsing := false;
      var curState := model.GetLastOutput();
      if lvqState.Some? && (curState.None? || curState.value.seqId < lvqState.value.seqId) {
        model.SetLastOutput(lvqState);
        model.SetSequenceStatus(SeqState.RecoveringFromFlow);
      } else {
        model.SetSequenceStatus(SeqState.UpToDate);
      }
      appFlowStarted := true;
    }

    /**
     * An input from the application flow. The listener's compute hands its
     * output to the publish gate, as the sample application does with every
     * output it computes.
     */
    method ProcessInputMsg(input: Input)
      modifies this, model
      ensures Snapshot() == ConnectorSpec.ProcessInputMsg(old(Snapshot()), input, model.compute)
    {
      var appState := model.GetLastOutput();
      if appState.None? || input.seqId >= appState.value.seqId {
        var q := model.GetSequenceStatus();
        if q != SeqState.UpToDate {
          model.SetSequenceStatus(SeqState.UpToDate);
        }
        var output := model.UpdateApplicationState(input);
        var _ := SendOutput(output);
      } else {
        model.SetLastInput(Some(input));
      }
    }

    method RecoverLastState()
      requires bound
      modifies this, model
      ensures Snapshot() == ConnectorSpec.RecoverLastState(old(Snapshot()))
    {
      var q := model.GetSequenceStatus();
      if q != SeqState.Recovering {
        model.SetSequenceStatus(SeqState.Recovering);
        timers := timers + [ConnectorSpec.TimerTask(ConnectorSpec.RecoveryDelay, ConnectorSpec.Pending)];
        browsing := true;
      }
      model.SetHAStatus(HAState.Backup);
    }

    method NoLastStateMessage()
      requires bound
      modifies this, model
      ensures Snapshot() == ConnectorSpec.NoLastStateMessage(old(Snapshot()))
    {
      browsing := false;
      model.SetSequenceStatus(SeqState.RecoveringFromFlow);
      appFlowStarted := true;
    }

    /** The timer task `k`, still pending, runs. */
    method FireTimer(k: nat)
      requires bound && k < |timers| && timers[k].status == ConnectorSpec.Pending
      modifies this, model
      ensures Snapshot() == ConnectorSpec.FireTimer(old(Snapshot()), k)
    {
      timers := timers[k := timers[k].(status := ConnectorSpec.Ran)];
      NoLastStateMessage();
    }

    method BecomeActive()
      requires bound
      modifies this, model
      ensures Snapshot() == ConnectorSpec.BecomeActive(old(Snapshot()))
    {
      RecoverLastState();
      model.SetHAStatus(HAState.Active);
    }

    method BecomeBackup()
      modifies model
      ensures Snapshot() == ConnectorSpec.BecomeBackup(old(Snapshot()))
    {
      model.SetHAStatus(HAState.Backup);
    }
  }
}
