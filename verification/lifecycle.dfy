/**
 * The VM status both applications keep, and the record of one
 * operation on an application: the state it leaves, the statuses it
 * published through `updateVMStatus` and the commands it handed to the
 * host, each in order.
 */
module Lifecycle {
  /** The values `vmStatus` takes. */
  datatype VmStatus = Stopped | Starting | Running | Stopping | Error

  /** One operation: its final state, the statuses it set and the commands it issued. */
  datatype Run<S> = Run(state: S, statuses: seq<VmStatus>, commands: seq<string>)

  /** The status after publishing `statuses`, starting from `before`: the last one published, if any. */
  function After(before: VmStatus, statuses: seq<VmStatus>): (r: VmStatus)
    ensures r == before || r in statuses
    ensures |statuses| > 0 ==> r == statuses[|statuses| - 1]
  {
    if |statuses| == 0 then before else statuses[|statuses| - 1]
  }

  /** Publishing two runs of statuses is publishing their concatenation. */
  lemma AfterAppend(before: VmStatus, a: seq<VmStatus>, b: seq<VmStatus>)
    ensures After(before, a + b) == After(After(before, a), b)
  {
    if |b| == 0 {
      assert a + b == a;
    }
  }

  /** One operation awaited after another. */
  function Then<S>(first: Run<S>, second: Run<S>): Run<S> {
    Run(second.state, first.statuses + second.statuses, first.commands + second.commands)
  }
}
