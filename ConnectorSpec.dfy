/**
 * The HA/sequence coordinator of one cluster member, as functions on values.
 * A Node is what the coordinator and its state store hold together; each
 * handler of the ClusterConnector class is proved to have exactly the effect
 * of the function of the same name here.
 */
module ConnectorSpec {
  import opened Ordered
  import opened States
  import opened ClusterModel

  /** Delay, in milliseconds, of the timer that bounds a recovery attempt. */
  const RecoveryDelay: nat := 250

  datatype TimerStatus = Pending | Cancelled | Ran

  /** One task scheduled on the recovery timer. */
  datatype TimerTask = TimerTask(delay: nat, status: TimerStatus)

  /** Session events of the broker client. */
  datatype SessionEvent = UpNotice | DownError | ReconnectingNotice | ReconnectedNotice | OtherSessionEvent

  /** Events of the leader-election flow (the flow bound to the last-value queue). */
  datatype FlowEvent = FlowUp | FlowActive | FlowInactive | OtherFlowEvent

  /**
   * `bound`: the browser of the last-value queue and the application flow exist;
   * `browsing`: the browser is started; `appFlowStarted`: input delivery is on;
   * `timers`: every task ever scheduled, the current one last;
   * `published`: every output handed to the broker, oldest first.
   */
  datatype Node = Node(
    store: Store,
    bound: bool,
    browsing: bool,
    appFlowStarted: bool,
    timers: seq<TimerTask>,
    published: seq<Output>)

  /** The publish gate. */
  predicate MayPublish(s: Store) {
    s.haStatus == HAState.Active && s.seqStatus == SeqState.UpToDate
  }

  /** Everything but the store is as in `n`. */
  predicate SameConnector(n: Node, r: Node) {
    r.bound == n.bound && r.browsing == n.browsing && r.appFlowStarted == n.appFlowStarted
    && r.timers == n.timers && r.published == n.published
  }

  /** The connector's construction: it resets output, HA and sequence state through the setters. */
  function InitState(s: Store): (r: Node)
    ensures r.store.haStatus == HAState.Disconnected && r.store.seqStatus == SeqState.Init
    ensures r.store.lastOutput == None && r.store.lastInput == s.lastInput
    ensures r.store.log == s.log + [InitialStateMessage(None), HAStateChange(s.haStatus, HAState.Disconnected),
                                    SeqStateChange(SeqState.Init, SeqState.Init)]
    ensures !r.bound && !r.browsing && !r.appFlowStarted && r.timers == [] && r.published == []
  {
    Node(WithSeq(WithHA(WithLastOutput(s, None), HAState.Disconnected), SeqState.Init),
         false, false, false, [], [])
  }

  /** Publishes `o` when, and only when, the member is Active and up to date. */
  function SendOutput(n: Node, o: Output): (r: Node)
    ensures r.published == n.published + [o] <==> MayPublish(n.store)
    ensures r.published == n.published || r.published == n.published + [o]
    ensures r.store == n.store && r.(published := n.published) == n
  {
    if MayPublish(n.store) then n.(published := n.published + [o]) else n
  }

  /** Only the session's UP notice has an effect: HA and sequence state become Connected. */
  function OnSessionEvent(n: Node, e: SessionEvent): (r: Node)
    ensures e == UpNotice ==>
      r.store.haStatus == HAState.Connected && r.store.seqStatus == SeqState.Connected
      && r.store.log == n.store.log + [HAStateChange(n.store.haStatus, HAState.Connected),
                                       SeqStateChange(SeqState.Connected, SeqState.Connected)]
    ensures e != UpNotice ==> r == n
    ensures r.store.lastInput == n.store.lastInput && r.store.lastOutput == n.store.lastOutput
    ensures SameConnector(n, r)
  {
    if e == UpNotice then
      n.(store := WithSeq(WithHA(n.store, HAState.Connected), SeqState.Connected))
    else
      n
  }

  /**
   * The last step of binding the queues, taken once the session is connected:
   * fresh, stopped browser and application flow, and sequence state Bound.
   */
  function BindQueues(n: Node): (r: Node)
    requires n.store.haStatus == HAState.Connected
    ensures r.bound && !r.browsing && !r.appFlowStarted
    ensures r.store.seqStatus == SeqState.Bound && r.store.haStatus == HAState.Connected
    ensures r.store.lastInput == n.store.lastInput && r.store.lastOutput == n.store.lastOutput
    ensures r.store.log == n.store.log + [SeqStateChange(SeqState.Bound, SeqState.Bound)]
    ensures r.timers == n.timers && r.published == n.published
  {
    n.(store := WithSeq(n.store, SeqState.Bound), bound := true, browsing := false, appFlowStarted := false)
  }

  /**
   * Starts a recovery attempt unless one is under way: sequence state
   * Recovering, one new timer task of RecoveryDelay, browser started. In
   * either case the member then becomes Backup.
   */
  function RecoverLastState(n: Node): (r: Node)
    requires n.bound
    ensures r.store.seqStatus == SeqState.Recovering && r.store.haStatus == HAState.Backup
    ensures n.store.seqStatus != SeqState.Recovering ==>
      r.timers == n.timers + [TimerTask(RecoveryDelay, Pending)] && r.browsing
      && r.store.log == n.store.log + [SeqStateChange(SeqState.Recovering, SeqState.Recovering),
                                       HAStateChange(n.store.haStatus, HAState.Backup)]
    ensures n.store.seqStatus == SeqState.Recovering ==>
      r.timers == n.timers && r.browsing == n.browsing && r.store.log == n.store.log + [HAStateChange(n.store.haStatus, HAState.Backup)]
    ensures r.store.lastInput == n.store.lastInput && r.store.lastOutput == n.store.lastOutput
    ensures r.bound && r.appFlowStarted == n.appFlowStarted && r.published == n.published
  {
    if n.store.seqStatus != SeqState.Recovering then
      Node(WithHA(WithSeq(n.store, SeqState.Recovering), HAState.Backup), n.bound, true,
           n.appFlowStarted, n.timers + [TimerTask(RecoveryDelay, Pending)], n.published)
    else
      n.(store := WithHA(n.store, HAState.Backup))
  }

  /** Runs a recovery attempt and then becomes Active, while that attempt is still under way. */
  function BecomeActive(n: Node): (r: Node)
    requires n.bound
    ensures r.store.haStatus == HAState.Active && r.store.seqStatus == SeqState.Recovering
    ensures r.timers == n.timers || r.timers == n.timers + [TimerTask(RecoveryDelay, Pending)]
    ensures n.store.seqStatus == SeqState.Recovering ==> r.timers == n.timers
    ensures r.store.lastInput == n.store.lastInput && r.store.lastOutput == n.store.lastOutput
    ensures r.bound && r.appFlowStarted == n.appFlowStarted && r.published == n.published
    ensures r.store.log == RecoverLastState(n).store.log + [HAStateChange(HAState.Backup, HAState.Active)]
  {
    var m := RecoverLastState(n);
    m.(store := WithHA(m.store, HAState.Active))
  }

  /** Changes only the HA state, to Backup. */
  function BecomeBackup(n: Node): (r: Node)
    ensures r.store.haStatus == HAState.Backup
    ensures r.store.(haStatus := n.store.haStatus, log := n.store.log) == n.store
    ensures r.store.log == n.store.log + [HAStateChange(n.store.haStatus, HAState.Backup)]
    ensures SameConnector(n, r)
  {
    n.(store := WithHA(n.store, HAState.Backup))
  }

  /** Dispatches a leader-election flow event. */
  function OnLVQFlowEvent(n: Node, e: FlowEvent): (r: Node)
    requires n.bound
    ensures e == FlowUp ==> r.store.haStatus == HAState.Backup && r.store.seqStatus == SeqState.Recovering
    ensures e == FlowActive ==> r.store.haStatus == HAState.Active && r.store.seqStatus == SeqState.Recovering
    ensures e == FlowInactive ==> r.store.haStatus == HAState.Backup && r.store.seqStatus == n.store.seqStatus
    ensures e == OtherFlowEvent ==> r == n
    ensures r.store.lastInput == n.store.lastInput && r.store.lastOutput == n.store.lastOutput
    ensures r.published == n.published && r.appFlowStarted == n.appFlowStarted
  {
    match e
    case FlowUp => RecoverLastState(n)
    case FlowActive => BecomeActive(n)
    case FlowInactive => BecomeBackup(n)
    case OtherFlowEvent => n
  }

  /**
   * The recovery timer ran out without a recovered message: stop browsing,
   * go to RecoveringFromFlow keeping the last output, and start the input flow.
   */
  function NoLastStateMessage(n: Node): (r: Node)
    requires n.bound
    ensures !r.browsing && r.appFlowStarted
    ensures r.store.seqStatus == SeqState.RecoveringFromFlow
    ensures r.store.(seqStatus := n.store.seqStatus, log := n.store.log) == n.store
    ensures r.store.log == n.store.log + [SeqStateChange(SeqState.RecoveringFromFlow, SeqState.RecoveringFromFlow)]
    ensures r.bound && r.timers == n.timers && r.published == n.published
  {
    n.(store := WithSeq(n.store, SeqState.RecoveringFromFlow), browsing := false, appFlowStarted := true)
  }

  /** The timer task `k` runs: it is marked as run and calls NoLastStateMessage. */
  function FireTimer(n: Node, k: nat): (r: Node)
    requires n.bound && k < |n.timers| && n.timers[k].status == Pending
    ensures |r.timers| == |n.timers| && r.timers[k] == n.timers[k].(status := Ran)
    ensures forall j | 0 <= j < |n.timers| && j != k :: r.timers[j] == n.timers[j]
    ensures r == NoLastStateMessage(n.(timers := r.timers))
  {
    NoLastStateMessage(n.(timers := n.timers[k := n.timers[k].(status := Ran)]))
  }

  /** Cancels the current (last) timer task; a task that already ran or was cancelled stays as it is. */
  function CancelCurrent(timers: seq<TimerTask>): (r: seq<TimerTask>)
    requires |timers| > 0
    ensures |r| == |timers| && r[..|r| - 1] == timers[..|timers| - 1]
    ensures r[|r| - 1].delay == timers[|timers| - 1].delay && r[|r| - 1].status != Pending
    ensures timers[|timers| - 1].status != Pending ==> r == timers
  {
    var last := timers[|timers| - 1];
    if last.status == Pending then timers[|timers| - 1 := last.(status := Cancelled)] else timers
  }

  /**
   * A message (possibly none) was browsed from the last-value queue. The
   * timer is cancelled and browsing stops; the message is adopted as last
   * output only when it is strictly ahead of the current one, and then the
   * member catches up from the input flow; otherwise it is up to date. The
   * input flow is started either way.
   */
  function ProcessOutputMsg(n: Node, lvq: Option<Output>): (r: Node)
    requires n.bound && |n.timers| > 0
    ensures NotBehind(n.store.lastOutput, r.store.lastOutput) && NotBehind(lvq, r.store.lastOutput)
    ensures r.store.lastOutput == n.store.lastOutput || r.store.lastOutput == lvq
    ensures r.store.lastOutput != n.store.lastOutput ==> !NotBehind(lvq, n.store.lastOutput)
    ensures r.store.seqStatus == SeqState.RecoveringFromFlow <==> r.store.lastOutput != n.store.lastOutput
    ensures r.store.seqStatus == SeqState.RecoveringFromFlow || r.store.seqStatus == SeqState.UpToDate
    ensures r.store.log == n.store.log +
      (if r.store.lastOutput != n.store.lastOutput
       then [InitialStateMessage(lvq), SeqStateChange(SeqState.RecoveringFromFlow, SeqState.RecoveringFromFlow)]
       else [SeqStateChange(SeqState.UpToDate, SeqState.UpToDate)])
    ensures r.store.haStatus == n.store.haStatus && r.store.lastInput == n.store.lastInput
    ensures r.timers == CancelCurrent(n.timers)
    ensures r.bound && !r.browsing && r.appFlowStarted && r.published == n.published
  {
    var cur := n.store.lastOutput;
    var s :=
      if lvq.Some? && (cur.None? || cur.value.seqId < lvq.value.seqId) then
        WithSeq(WithLastOutput(n.store, lvq), SeqState.RecoveringFromFlow)
      else
        WithSeq(n.store, SeqState.UpToDate);
    Node(s, n.bound, false, true, CancelCurrent(n.timers), n.published)
  }

  /**
   * An input arrived. A stale one is only recorded as last input. Any other
   * makes the member up to date, is given to compute, and the output is
   * published through the gate, which is then open exactly when the member
   * is Active.
   */
  function ProcessInputMsg(n: Node, i: Input, compute: Input -> Output): (r: Node)
    ensures Stale(n.store.lastOutput, i) ==>
      r.store == n.store.(lastInput := Some(i), log := n.store.log + [ApplicationMessage(Some(i))])
      && r.published == n.published
    ensures !Stale(n.store.lastOutput, i) ==>
      r.store.seqStatus == SeqState.UpToDate && r.store.haStatus == n.store.haStatus
      && r.store.lastOutput == Some(compute(i)) && r.store.lastInput == Some(i)
      && r.store.log == n.store.log
         + (if n.store.seqStatus != SeqState.UpToDate then [SeqStateChange(SeqState.UpToDate, SeqState.UpToDate)] else [])
         + [ApplicationUpdate(i, compute(i))]
      && (r.published == n.published + [compute(i)] <==> n.store.haStatus == HAState.Active)
      && (r.published == n.published || r.published == n.published + [compute(i)])
    ensures r.bound == n.bound && r.browsing == n.browsing && r.appFlowStarted == n.appFlowStarted
    ensures r.timers == n.timers
  {
    if !Stale(n.store.lastOutput, i) then
      var s := if n.store.seqStatus != SeqState.UpToDate then WithSeq(n.store, SeqState.UpToDate) else n.store;
      var m := SendOutput(n.(store := s), compute(i));
      m.(store := WithUpdate(s, i, compute))
    else
      n.(store := WithLastInput(n.store, Some(i)))
  }
}
