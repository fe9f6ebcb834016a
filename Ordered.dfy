/**
 * Messages exchanged by a cluster member. Every input and every output
 * carries a sequence id, which is all the coordinator looks at.
 */
module Ordered {

  datatype Option<+T> = None | Some(value: T)

  /** An application input; `payload` stands for the application's own fields. */
  datatype Input = Input(seqId: nat, payload: string)

  /** An application output (its state); `payload` stands for the application's own fields. */
  datatype Output = Output(seqId: nat, payload: string)

  /** An input is stale when it is behind the last known output. */
  predicate Stale(lastOutput: Option<Output>, input: Input) {
    lastOutput.Some? && input.seqId < lastOutput.value.seqId
  }

  /**
   * `later` is at least as recent as `earlier`: an absent output is behind
   * everything, and nothing present is behind an absent one.
   */
  predicate NotBehind(earlier: Option<Output>, later: Option<Output>) {
    earlier.None? || (later.Some? && earlier.value.seqId <= later.value.seqId)
  }

  lemma NotBehindTransitive(a: Option<Output>, b: Option<Output>, c: Option<Output>)
    requires NotBehind(a, b) && NotBehind(b, c)
    ensures NotBehind(a, c)
  {
  }

  /** The application never computes an output that is behind its input. */
  ghost predicate KeepsSequence(compute: Input -> Output) {
    forall i: Input :: i.seqId <= compute(i).seqId
  }
}
