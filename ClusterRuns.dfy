/**
 * Runs of the coordinator: sequences of the signals the broker delivers, each
 * taken only when the broker can deliver it, and the properties that hold
 * over every run.
 */
module ClusterRuns {
  import opened Ordered
  import opened States
  import opened ClusterModel
  import opened ConnectorSpec

  /** One signal delivered to the coordinator. */
  datatype Event =
    | Session(sessionEvent: SessionEvent)
    | Bind
    | LVQFlow(flowEvent: FlowEvent)
    | TimerFires(task: nat)
    | LVQMessage(recovered: Option<Output>)
    | AppMessage(input: Input)

  /**
   * When the broker can deliver `e`: queues are bound once, after the session is up;
   * flow events come from the bound leader-election flow; only a pending task
   * runs; the browser delivers while started; inputs arrive while the
   * application flow is started.
   */
  predicate Enabled(n: Node, e: Event) {
    match e
    case Session(_) => true
    case Bind => !n.bound && n.store.haStatus == HAState.Connected
    case LVQFlow(_) => n.bound
    case TimerFires(k) => n.bound && k < |n.timers| && n.timers[k].status == Pending
    case LVQMessage(_) => n.bound && n.browsing && |n.timers| > 0
    case AppMessage(_) => n.appFlowStarted
  }

  function Step(n: Node, e: Event, compute: Input -> Output): (r: Node)
    requires Enabled(n, e)
  {
    match e
    case Session(se) => OnSessionEvent(n, se)
    case Bind => BindQueues(n)
    case LVQFlow(fe) => OnLVQFlowEvent(n, fe)
    case TimerFires(k) => FireTimer(n, k)
    case LVQMessage(m) => ProcessOutputMsg(n, m)
    case AppMessage(i) => ProcessInputMsg(n, i, compute)
  }

  predicate ValidRun(n: Node, evs: seq<Event>, compute: Input -> Output)
    decreases |evs|
  {
    evs == [] || (Enabled(n, evs[0]) && ValidRun(Step(n, evs[0], compute), evs[1..], compute))
  }

  function Run(n: Node, evs: seq<Event>, compute: Input -> Output): (r: Node)
    requires ValidRun(n, evs, compute)
    decreases |evs|
  {
    if evs == [] then n else Run(Step(n, evs[0], compute), evs[1..], compute)
  }

  // ---------------------------------------------------------------------
  // The last output never moves backwards.

  lemma StepNeverRewinds(n: Node, e: Event, compute: Input -> Output)
    requires KeepsSequence(compute) && Enabled(n, e)
    ensures NotBehind(n.store.lastOutput, Step(n, e, compute).store.lastOutput)
  {
    if e.AppMessage? && !Stale(n.store.lastOutput, e.input) {
      assert e.input.seqId <= compute(e.input).seqId;
    }
  }

  /** Over any run, the sequence id of the last output never decreases, and a last output never disappears. */
  lemma {:induction false} RunNeverRewinds(n: Node, evs: seq<Event>, compute: Input -> Output)
    requires KeepsSequence(compute) && ValidRun(n, evs, compute)
    ensures NotBehind(n.store.lastOutput, Run(n, evs, compute).store.lastOutput)
    decreases |evs|
  {
    if evs != [] {
      var m := Step(n, evs[0], compute);
      StepNeverRewinds(n, evs[0], compute);
      RunNeverRewinds(m, evs[1..], compute);
      NotBehindTransitive(n.store.lastOutput, m.store.lastOutput, Run(m, evs[1..], compute).store.lastOutput);
    }
  }

  // ---------------------------------------------------------------------
  // Published outputs are in sequence order and never ahead of the last output.

  predicate PublishedInOrder(n: Node) {
    (forall j, k | 0 <= j < k < |n.published| :: n.published[j].seqId <= n.published[k].seqId)
    && (|n.published| > 0 ==> NotBehind(Some(n.published[|n.published| - 1]), n.store.lastOutput))
  }

  lemma StepKeepsPublishedInOrder(n: Node, e: Event, compute: Input -> Output)
    requires KeepsSequence(compute) && Enabled(n, e) && PublishedInOrder(n)
    ensures PublishedInOrder(Step(n, e, compute))
  {
    var r := Step(n, e, compute);
    StepNeverRewinds(n, e, compute);
    if |n.published| > 0 {
      NotBehindTransitive(Some(n.published[|n.published| - 1]), n.store.lastOutput, r.store.lastOutput);
    }
    if e.AppMessage? && r.published != n.published {
      var i := e.input;
      assert !Stale(n.store.lastOutput, i);
      assert r.published == n.published + [compute(i)];
      assert i.seqId <= compute(i).seqId;
      forall j, k | 0 <= j < k < |r.published|
        ensures r.published[j].seqId <= r.published[k].seqId
      {
        if k == |n.published| {
          assert n.published[j].seqId <= n.published[|n.published| - 1].seqId;
        }
      }
    }
  }

  /** Every run keeps the published outputs in non-decreasing sequence order. */
  lemma {:induction false} RunKeepsPublishedInOrder(n: Node, evs: seq<Event>, compute: Input -> Output)
    requires KeepsSequence(compute) && ValidRun(n, evs, compute) && PublishedInOrder(n)
    ensures PublishedInOrder(Run(n, evs, compute))
    decreases |evs|
  {
    if evs != [] {
      StepKeepsPublishedInOrder(n, evs[0], compute);
      RunKeepsPublishedInOrder(Step(n, evs[0], compute), evs[1..], compute);
    }
  }

  // ---------------------------------------------------------------------
  // Nothing published during a run is behind the state the run started from,
  // nor behind a message recovered from the last-value queue.

  /**
   * `r`'s publications extend `n`'s, and each one added since is at least as
   * recent as `o`.
   */
  predicate PublishedSinceNotBehind(n: Node, r: Node, o: Option<Output>) {
    |n.published| <= |r.published| && r.published[..|n.published|] == n.published
    && (forall k | |n.published| <= k < |r.published| :: NotBehind(o, Some(r.published[k])))
  }

  /** A signal publishes nothing, or exactly the last output it leaves behind. */
  lemma StepPublishesItsLastOutput(n: Node, e: Event, compute: Input -> Output)
    requires Enabled(n, e)
    ensures Step(n, e, compute).published == n.published
      || (Step(n, e, compute).store.lastOutput.Some?
          && Step(n, e, compute).published == n.published + [Step(n, e, compute).store.lastOutput.value])
  {
  }

  /** Every output published during a run is at least as recent as the last output the run started from. */
  lemma {:induction false} RunPublishesNothingBehindStart(n: Node, evs: seq<Event>, compute: Input -> Output)
    requires KeepsSequence(compute) && ValidRun(n, evs, compute)
    ensures PublishedSinceNotBehind(n, Run(n, evs, compute), n.store.lastOutput)
    decreases |evs|
  {
    if evs != [] {
      var m := Step(n, evs[0], compute);
      var r := Run(m, evs[1..], compute);
      StepNeverRewinds(n, evs[0], compute);
      StepPublishesItsLastOutput(n, evs[0], compute);
      RunPublishesNothingBehindStart(m, evs[1..], compute);
      assert r.published[..|m.published|] == m.published;
      assert r.published[..|n.published|] == m.published[..|n.published|];
      forall k | |n.published| <= k < |r.published|
        ensures NotBehind(n.store.lastOutput, Some(r.published[k]))
      {
        if k < |m.published| {
          assert r.published[k] == m.published[k] == m.store.lastOutput.value;
        } else {
          NotBehindTransitive(n.store.lastOutput, m.store.lastOutput, Some(r.published[k]));
        }
      }
    }
  }

  /**
   * Once a message browsed from the last-value queue has been handled, every
   * output published afterwards is at least as recent as that message.
   */
  lemma RecoveredStateNeverUndercut(n: Node, lvq: Option<Output>, evs: seq<Event>, compute: Input -> Output)
    requires KeepsSequence(compute) && Enabled(n, LVQMessage(lvq))
    requires ValidRun(Step(n, LVQMessage(lvq), compute), evs, compute)
    ensures PublishedSinceNotBehind(Step(n, LVQMessage(lvq), compute),
                                    Run(Step(n, LVQMessage(lvq), compute), evs, compute), lvq)
  {
    var m := Step(n, LVQMessage(lvq), compute);
    var r := Run(m, evs, compute);
    RunPublishesNothingBehindStart(m, evs, compute);
    forall k | |m.published| <= k < |r.published|
      ensures NotBehind(lvq, Some(r.published[k]))
    {
      NotBehindTransitive(lvq, m.store.lastOutput, Some(r.published[k]));
    }
  }

  /**
   * Once a recovered message `o` has been handled, every input strictly behind
   * `o` that arrives later in the run is stale: it is not recomputed.
   */
  lemma RecoveredStateMakesOlderInputsStale(n: Node, o: Output, evs: seq<Event>, compute: Input -> Output, i: Input)
    requires KeepsSequence(compute) && Enabled(n, LVQMessage(Some(o)))
    requires ValidRun(Step(n, LVQMessage(Some(o)), compute), evs, compute)
    requires i.seqId < o.seqId
    ensures Stale(Run(Step(n, LVQMessage(Some(o)), compute), evs, compute).store.lastOutput, i)
  {
    var m := Step(n, LVQMessage(Some(o)), compute);
    RunNeverRewinds(m, evs, compute);
    NotBehindTransitive(Some(o), m.store.lastOutput, Run(m, evs, compute).store.lastOutput);
  }

  // ---------------------------------------------------------------------
  // A recovery attempt under way is always bounded by a pending timer task.

  /**
   * While the member is Recovering the browser is started and the current
   * timer task is still pending; the browser only runs once bound and once a
   * task exists.
   */
  predicate RecoveryInFlight(n: Node) {
    (n.store.seqStatus == SeqState.Recovering ==>
       n.browsing && |n.timers| > 0 && n.timers[|n.timers| - 1].status == Pending)
    && (n.browsing ==> n.bound && |n.timers| > 0)
  }

  lemma StepKeepsRecoveryInFlight(n: Node, e: Event, compute: Input -> Output)
    requires Enabled(n, e) && RecoveryInFlight(n)
    ensures RecoveryInFlight(Step(n, e, compute))
  {
  }

  lemma {:induction false} RunKeepsRecoveryInFlight(n: Node, evs: seq<Event>, compute: Input -> Output)
    requires ValidRun(n, evs, compute) && RecoveryInFlight(n)
    ensures RecoveryInFlight(Run(n, evs, compute))
    decreases |evs|
  {
    if evs != [] {
      StepKeepsRecoveryInFlight(n, evs[0], compute);
      RunKeepsRecoveryInFlight(Step(n, evs[0], compute), evs[1..], compute);
    }
  }

  // ---------------------------------------------------------------------
  // Repeated leader-election signals start at most one recovery.

  predicate AllFlowEvents(evs: seq<Event>) {
    forall k | 0 <= k < |evs| :: evs[k].LVQFlow?
  }

  /**
   * Any burst of leader-election events schedules at most one timer task, and
   * none at all when a recovery is already under way.
   */
  lemma {:induction false} FlowEventsScheduleAtMostOneTimer(n: Node, evs: seq<Event>, compute: Input -> Output)
    requires ValidRun(n, evs, compute) && AllFlowEvents(evs)
    ensures |Run(n, evs, compute).timers| <= |n.timers| + 1
    ensures n.store.seqStatus == SeqState.Recovering ==>
      Run(n, evs, compute).timers == n.timers && Run(n, evs, compute).store.seqStatus == SeqState.Recovering
    decreases |evs|
  {
    if evs != [] {
      var m := Step(n, evs[0], compute);
      assert AllFlowEvents(evs[1..]) by {
        forall k | 0 <= k < |evs[1..]| ensures evs[1..][k].LVQFlow? {
          assert evs[1..][k] == evs[k + 1];
        }
      }
      FlowEventsScheduleAtMostOneTimer(m, evs[1..], compute);
    }
  }

  // ---------------------------------------------------------------------
  // The connector's initial state.

  /** A freshly constructed connector satisfies both run invariants. */
  lemma InitStateSatisfiesInvariants(s: Store)
    ensures PublishedInOrder(InitState(s)) && RecoveryInFlight(InitState(s))
  {
  }
}
