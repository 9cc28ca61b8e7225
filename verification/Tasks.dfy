/** Shared values: options, print tasks and their statuses. */
module Basics {
  datatype Option<+T> = None | Some(value: T)

  /** Go's `int64`, and Go's `int` on the 64-bit targets the agent is built for. */
  type Int64 = x: int | -0x8000_0000_0000_0000 <= x < 0x8000_0000_0000_0000

  /** The int64 that `x` wraps around to. */
  function Wrap64(x: int): (w: Int64)
    ensures -0x8000_0000_0000_0000 <= x < 0x8000_0000_0000_0000 ==> w == x
  {
    (x + 0x8000_0000_0000_0000) % 0x1_0000_0000_0000_0000 - 0x8000_0000_0000_0000
  }

  function Pow2(n: nat): (p: nat)
    ensures p >= 1
  {
    if n == 0 then 1 else 2 * Pow2(n - 1)
  }
}

module Tasks {
  import opened Basics

  /** The status field is a string in the source; a task that arrives in a payload may
      carry any text there, or none (`Unset`). */
  datatype TaskStatus =
    | Unset | Pending | Running | Success | Failed | Retrying | Cancelled
    | Other(name: string)
  {
    predicate IsTerminal() { Success? || Failed? || Cancelled? }
  }

  /** A print task. Times are ticks, with 0 for Go's zero time. `document` stands for the
      fields that the pipeline only carries along (content, reference, checksum,
      parameters, trace id). */
  datatype Task = Task(
    taskId: string, deviceId: string, status: TaskStatus, retryCount: Int64, seqNo: Int64,
    receivedAt: int, startedAt: int, finishedAt: int, nextRetryAt: int,
    errorCode: string, errorMsg: string, document: string)
}
