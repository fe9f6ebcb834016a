/** The two state enumerations of a cluster member. */
module States {

  /** The member's role in the two-member cluster. */
  datatype HAState =
    | Disconnected  // not connected to the cluster
    | Connected     // connected, role not yet decided
    | Backup        // the hot backup
    | Active        // the member responsible for publishing application state

  /** How far the member is in reconciling its state with the input stream. */
  datatype SeqState =
    | Init                // before connecting, binding or reading
    | Connected           // connected, queues not yet bound
    | Bound               // bound to the application queue and the last-value queue
    | Recovering          // browsing the last-value queue for the last published state
    | RecoveringFromFlow  // holds recovered state and reads the input queue to catch up with it
    | UpToDate            // caught up with the input stream
}
