/**
 * The state store of one cluster member: HA state, sequence state, the last
 * input and the last output. Every setter records the new value and then
 * calls the registered listener; the calls are kept, in order, in `log`.
 */
module ClusterModel {
  import opened Ordered
  import opened States

  /** One call made on the cluster event listener. */
  datatype Notification =
    | HAStateChange(oldHA: HAState, newHA: HAState)
    | SeqStateChange(oldSeq: SeqState, newSeq: SeqState)
    | InitialStateMessage(initial: Option<Output>)
    | ApplicationMessage(observed: Option<Input>)
      // the listener's compute call: it was given `input` and returned `output`
    | ApplicationUpdate(input: Input, output: Output)

  /** The value held by a ClusterModel object. */
  datatype Store = Store(
    haStatus: HAState,
    seqStatus: SeqState,
    lastInput: Option<Input>,
    lastOutput: Option<Output>,
    log: seq<Notification>)

  // The effect of each ClusterModel operation on a Store value; the class
  // below is proved to have exactly these effects.

  function InitialStore(): (r: Store) {
    Store(HAState.Disconnected, SeqState.Init, None, None, [])
  }

  function WithHA(s: Store, h: HAState): (r: Store) {
    s.(haStatus := h, log := s.log + [HAStateChange(s.haStatus, h)])
  }

  /** As written, the listener is told the new sequence state as both old and new. */
  function WithSeq(s: Store, q: SeqState): (r: Store) {
    s.(seqStatus := q, log := s.log + [SeqStateChange(q, q)])
  }

  function WithLastInput(s: Store, i: Option<Input>): (r: Store) {
    s.(lastInput := i, log := s.log + [ApplicationMessage(i)])
  }

  function WithLastOutput(s: Store, o: Option<Output>): (r: Store) {
    s.(lastOutput := o, log := s.log + [InitialStateMessage(o)])
  }

  function WithUpdate(s: Store, i: Input, compute: Input -> Output): (r: Store) {
    s.(lastOutput := Some(compute(i)), lastInput := Some(i),
       log := s.log + [ApplicationUpdate(i, compute(i))])
  }

  class ClusterModel {
    /** The listener's state-transition function (its UpdateApplicationState). */
    const compute: Input -> Output

    var haStatus: HAState
    var seqStatus: SeqState
    var lastInput: Option<Input>
    var lastOutput: Option<Output>
    /** Every call made on the listener, oldest first. */
    var log: seq<Notification>

    function Snapshot(): Store
      reads this
    {
      Store(haStatus, seqStatus, lastInput, lastOutput, log)
    }

    constructor (compute: Input -> Output)
      ensures this.compute == compute
      ensures haStatus == HAState.Disconnected && seqStatus == SeqState.Init
      ensures lastInput == None && lastOutput == None && log == []
      ensures Snapshot() == InitialStore()
    {
      this.compute := compute;
      haStatus := HAState.Disconnected;
      seqStatus := SeqState.Init;
      lastInput := None;
      lastOutput := None;
      log := [];
    }

    method GetHAStatus() returns (h: HAState)
      ensures h == haStatus
    {
      h := haStatus;
    }

    /** Sets only the HA state and tells the listener the previous and the new state. */
    method SetHAStatus(h: HAState)
      modifies this
      ensures haStatus == h
      ensures seqStatus == old(seqStatus) && lastInput == old(lastInput) && lastOutput == old(lastOutput)
      ensures log == old(log) + [HAStateChange(old(haStatus), h)]
      ensures Snapshot() == WithHA(old(Snapshot()), h)
    {
      var previous := haStatus;
      haStatus := h;
      log := log + [HAStateChange(previous, h)];
    }

    method GetSequenceStatus() returns (q: SeqState)
      ensures q == seqStatus
    {
      q := seqStatus;
    }

    /**
     * Sets only the sequence state. The "old" value handed to the listener is
     * read from the parameter, so the listener sees (new, new).
     */
    method SetSequenceStatus(q: SeqState)
      modifies this
      ensures seqStatus == q
      ensures haStatus == old(haStatus) && lastInput == old(lastInput) && lastOutput == old(lastOutput)
      ensures log == old(log) + [SeqStateChange(q, q)]
      ensures Snapshot() == WithSeq(old(Snapshot()), q)
    {
      var previous := q;
      seqStatus := q;
      log := log + [SeqStateChange(previous, q)];
    }

    method GetLastInput() returns (i: Option<Input>)
      ensures i == lastInput
    {
      i := lastInput;
    }

    /** Sets only the last input and passes it to the listener's OnApplicationMessage. */
    method SetLastInput(i: Option<Input>)
      modifies this
      ensures lastInput == i
      ensures haStatus == old(haStatus) && seqStatus == old(seqStatus) && lastOutput == old(lastOutput)
      ensures log == old(log) + [ApplicationMessage(i)]
      ensures Snapshot() == WithLastInput(old(Snapshot()), i)
    {
      lastInput := i;
      log := log + [ApplicationMessage(i)];
    }

    method GetLastOutput() returns (o: Option<Output>)
      ensures o == lastOutput
    {
      o := lastOutput;
    }

    /** Sets only the last output and passes it to the listener's OnInitialStateMessage. */
    method SetLastOutput(o: Option<Output>)
      modifies this
      ensures lastOutput == o
      ensures haStatus == old(haStatus) && seqStatus == old(seqStatus) && lastInput == old(lastInput)
      ensures log == old(log) + [InitialStateMessage(o)]
      ensures Snapshot() == WithLastOutput(old(Snapshot()), o)
    {
      lastOutput := o;
      log := log + [InitialStateMessage(o)];
    }

    /**
     * Asks the listener for the output of `input` and stores the pair; neither
     * OnApplicationMessage nor OnInitialStateMessage is called. The output is
     * also returned, so that the caller can hand it to the publish gate.
     */
    method UpdateApplicationState(input: Input) returns (output: Output)
      modifies this
      ensures output == compute(input)
      ensures lastOutput == Some(output) && lastInput == Some(input)
      ensures haStatus == old(haStatus) && seqStatus == old(seqStatus)
      ensures log == old(log) + [ApplicationUpdate(input, output)]
      ensures Snapshot() == WithUpdate(old(Snapshot()), input, compute)
    {
      output := compute(input);
      log := log + [ApplicationUpdate(input, output)];
      lastOutput := Some(output);
      lastInput := Some(input);
    }
  }
}
