/** The execute/retry loop that a worker runs for one task, against an environment that
    decides what every attempt meets and when the context is cancelled. */
module Execution {
  import opened Basics
  import opened Tasks

  const MAX_RETRY_COUNT := 3
  const SECOND := 1_000_000_000
  const RETRY_INIT_DELAY := 5 * SECOND
  const RETRY_MAX_BACKOFF := 300 * SECOND
  const DEVICE_OFFLINE := "DEVICE_OFFLINE"
  const DEVICE_NOT_FOUND := "DEVICE_NOT_FOUND"
  const PROTOCOL_SEND_FAIL := "PROTOCOL_SEND_FAIL"

  /** An error as the loop sees it; `code` is empty for an error that is not the agent's. */
  datatype Error = Error(code: string, msg: string)

  /** An error of the agent, with the text that it prints. */
  function AgentError(code: string, text: string): Error {
    Error(code, "[" + code + "] " + text)
  }

  /** What one call of executeTask meets. */
  datatype Attempt =
    | DeviceMissing
    | DeviceOffline
    | NoAdapter(protocol: string)
    | Broken(err: Error)       // the data could not be loaded or the adapter's Send failed
    | Sent
  {
    /** The attempts that mark the task failed although the loop goes on. */
    predicate Missing() { DeviceMissing? || NoAdapter? }

    predicate CountsAsOffline() { DeviceOffline? || (Broken? && err.code == DEVICE_OFFLINE) }
  }

  /** The point of a round at which the context becomes cancelled, if any. */
  datatype Cut = NoCut | AtTop | AfterAttempt | WhileWaiting

  datatype Round = Round(attempt: Attempt, cut: Cut, startsAt: int, endsAt: int)

  /** The task, the results fired so far, and every status assigned so far. */
  datatype Log = Log(task: Task, fired: seq<Task>, trace: seq<TaskStatus>) {
    function Set(task': Task): Log { Log(task', fired, trace + [task'.status]) }
    function Fire(): Log { Log(task, fired + [task], trace) }
  }

  function MarkedFailed(t: Task, code: string, msg: string, now: int): Task {
    t.(status := Failed, finishedAt := now, errorCode := code, errorMsg := msg)
  }

  function Succeeded(t: Task, r: Round): Task {
    t.(status := Success, finishedAt := r.endsAt, errorCode := "", errorMsg := "")
  }

  /** executeTask: the new log, and the error it returns, if any. */
  function Execute(l: Log, r: Round): (Log, Option<Error>) {
    match r.attempt
    case DeviceMissing =>
      (l.Set(MarkedFailed(l.task, DEVICE_NOT_FOUND, "device not found", r.endsAt)).Fire(),
       Some(AgentError(DEVICE_NOT_FOUND, "device " + l.task.deviceId + " not found")))
    case DeviceOffline =>
      (l, Some(AgentError(DEVICE_OFFLINE, "device " + l.task.deviceId + " offline")))
    case NoAdapter(p) =>
      (l.Set(MarkedFailed(l.task, PROTOCOL_SEND_FAIL, "no adapter for protocol " + p, r.endsAt)).Fire(),
       Some(AgentError(PROTOCOL_SEND_FAIL, "no adapter for protocol " + p)))
    case Broken(e) =>
      (l.Set(l.task.(status := Running, startedAt := r.startsAt)), Some(e))
    case Sent =>
      var l1 := l.Set(l.task.(status := Running, startedAt := r.startsAt));
      (l1.Set(Succeeded(l1.task, r)).Fire(), None)
  }

  /** Go's `1 << count` in an int64, for a non-negative count. */
  function ShiftOne(count: nat): Int64 {
    if count >= 64 then 0 else Wrap64(Pow2(count))
  }

  /** handleRetry's delay before attempt number `retryCount`, for a non-negative shift. */
  function Backoff(retryCount: Int64): int
    requires Wrap64(retryCount - 1) >= 0
  {
    var d := Wrap64(RETRY_INIT_DELAY * ShiftOne(Wrap64(retryCount - 1)));
    if d > RETRY_MAX_BACKOFF then RETRY_MAX_BACKOFF else d
  }

  datatype End =
    | Returned      // the loop returned by itself
    | Interrupted   // the loop returned because the context was cancelled
    | Panicked      // a shift by a negative count
    | Unfinished    // the environment's script ended first

  datatype Retry = Retry(again: bool, end: End, log: Log)

  /** handleRetry after error `e` in round `r`. */
  function HandleRetry(l: Log, e: Error, r: Round): Retry {
    var count := Wrap64(l.task.retryCount + 1);
    var t := l.task.(retryCount := count);
    if count > MAX_RETRY_COUNT then
      var code := if e.code == "" then PROTOCOL_SEND_FAIL else e.code;
      Retry(false, Returned, l.Set(MarkedFailed(t, code, e.msg, r.endsAt)).Fire())
    else
      var t1 := t.(status := Retrying, errorCode := e.code, errorMsg := e.msg);
      if Wrap64(count - 1) < 0 then Retry(false, Panicked, l.Set(t1))
      else
        var l2 := l.Set(t1.(nextRetryAt := r.endsAt + Backoff(count)));
        if r.cut.WhileWaiting? then Retry(false, Interrupted, l2)
        else Retry(true, Unfinished, l2.Set(l2.task.(status := Pending, errorCode := "", errorMsg := "", nextRetryAt := 0)))
  }

  /** How the loop ended, the log it left, and how many rounds it used. */
  datatype Outcome = Outcome(end: End, log: Log, used: nat)

  function Loop(l: Log, rounds: seq<Round>): Outcome
    decreases |rounds|
  {
    if rounds != [] && rounds[0].cut.AtTop? then Outcome(Interrupted, l, 0)
    else if l.task.status.IsTerminal() then Outcome(Returned, l, 0)
    else if rounds == [] then Outcome(Unfinished, l, 0)
    else
      var r := rounds[0];
      var (l1, err) := Execute(l, r);
      if err.None? then Outcome(Returned, l1, 1)
      else if r.cut.AfterAttempt? then Outcome(Interrupted, l1, 1)
      else if err.value.code == DEVICE_OFFLINE then
        if r.cut.WhileWaiting? then Outcome(Interrupted, l1, 1)
        else
          var o := Loop(l1, rounds[1..]);
          o.(used := o.used + 1)
      else
        var h := HandleRetry(l1, err.value, r);
        if !h.again then Outcome(h.end, h.log, 1)
        else
          var o := Loop(h.log, rounds[1..]);
          o.(used := o.used + 1)
  }

  // ------------------------------------------------------------ the code itself

  /** A worker with the task it was handed; fields are updated in place. */
  class TaskRun {
    var task: Task
    var fired: seq<Task>
    ghost var trace: seq<TaskStatus>

    constructor (task: Task)
      ensures this.task == task && fired == [] && trace == []
    {
      this.task, fired, trace := task, [], [];
    }

    ghost function View(): Log
      reads this
    {
      Log(task, fired, trace)
    }

    method SetStatus(status: TaskStatus)
      modifies this
      ensures View() == old(View().Set(task.(status := status)))
    {
      task := task.(status := status);
      trace := trace + [status];
    }

    method MarkTaskFailed(code: string, msg: string, now: int)
      modifies this
      ensures View() == old(View().Set(MarkedFailed(task, code, msg, now)))
    {
      SetStatus(Failed);
      task := task.(finishedAt := now);
      task := task.(errorCode := code);
      task := task.(errorMsg := msg);
    }

    method FireTaskResult()
      modifies this
      ensures View() == old(View().Fire())
    {
      fired := fired + [task];
    }

    method ExecuteTask(r: Round) returns (err: Option<Error>)
      modifies this
      ensures (View(), err) == Execute(old(View()), r)
    {
      match r.attempt
      case DeviceMissing =>
        MarkTaskFailed(DEVICE_NOT_FOUND, "device not found", r.endsAt);
        FireTaskResult();
        return Some(AgentError(DEVICE_NOT_FOUND, "device " + task.deviceId + " not found"));
      case DeviceOffline =>
        return Some(AgentError(DEVICE_OFFLINE, "device " + task.deviceId + " offline"));
      case NoAdapter(p) =>
        MarkTaskFailed(PROTOCOL_SEND_FAIL, "no adapter for protocol " + p, r.endsAt);
        FireTaskResult();
        return Some(AgentError(PROTOCOL_SEND_FAIL, "no adapter for protocol " + p));
      case Broken(e) =>
        SetStatus(Running);
        task := task.(startedAt := r.startsAt);
        return Some(e);
      case Sent =>
        SetStatus(Running);
        task := task.(startedAt := r.startsAt);
        SetStatus(Success);
        task := task.(finishedAt := r.endsAt, errorCode := "", errorMsg := "");
        FireTaskResult();
        return None;
    }

    /** The delay before the next attempt: doubling from 5 seconds for the counts that occur. */
    static method RetryBackoff(retryCount: Int64) returns (backoff: int)
      requires Wrap64(retryCount - 1) >= 0
      ensures backoff == Backoff(retryCount) <= RETRY_MAX_BACKOFF
      ensures 1 <= retryCount <= MAX_RETRY_COUNT ==> backoff == RETRY_INIT_DELAY * Pow2(retryCount - 1)
    {
      RetryDelays();
      backoff := Wrap64(RETRY_INIT_DELAY * ShiftOne(Wrap64(retryCount - 1)));
      if backoff > RETRY_MAX_BACKOFF {
        backoff := RETRY_MAX_BACKOFF;
      }
    }

    method Reschedule(err: Error, r: Round) returns (again: bool, end: End)
      modifies this
      ensures Retry(again, end, View()) == HandleRetry(old(View()), err, r)
    {
      task := task.(retryCount := Wrap64(task.retryCount + 1));
      if task.retryCount > MAX_RETRY_COUNT {
        var code := err.code;
        if code == "" {
          code := PROTOCOL_SEND_FAIL;
        }
        MarkTaskFailed(code, err.msg, r.endsAt);
        FireTaskResult();
        return false, Returned;
      }
      SetStatus(Retrying);
      task := task.(errorCode := err.code, errorMsg := err.msg);
      var count := Wrap64(task.retryCount - 1);
      if count < 0 {
        return false, Panicked;
      }
      var backoff := RetryBackoff(task.retryCount);
      task := task.(nextRetryAt := r.endsAt + backoff);
      if r.cut.WhileWaiting? {
        return false, Interrupted;
      }
      SetStatus(Pending);
      task := task.(errorCode := "", errorMsg := "", nextRetryAt := 0);
      return true, Unfinished;
    }

    /** executeTaskLoop. */
    method ExecuteTaskLoop(rounds: seq<Round>) returns (end: End, used: nat)
      modifies this
      ensures Outcome(end, View(), used) == Loop(old(View()), rounds)
    {
      used := 0;
      ghost var o := Loop(View(), rounds);
      while used < |rounds|
        invariant used <= |rounds|
        invariant var o' := Loop(View(), rounds[used..]); o == o'.(used := o'.used + used)
      {
        var r := rounds[used];
        assert rounds[used..][0] == r && rounds[used..][1..] == rounds[used + 1..];
        if r.cut.AtTop? {
          return Interrupted, used;
        }
        if task.status.IsTerminal() {
          return Returned, used;
        }
        var err := ExecuteTask(r);
        used := used + 1;
        if err.None? {
          return Returned, used;
        }
        if r.cut.AfterAttempt? {
          return Interrupted, used;
        }
        if err.value.code == DEVICE_OFFLINE {
          if r.cut.WhileWaiting? {
            return Interrupted, used;
          }
        } else {
          var again, e := Reschedule(err.value, r);
          if !again {
            return e, used;
          }
        }
      }
      end := if task.status.IsTerminal() then Returned else Unfinished;
    }
  }

  // ----------------------------------------------------------------- whole runs

  ghost predicate Uncut(rounds: seq<Round>) {
    forall i | 0 <= i < |rounds| :: rounds[i].cut.NoCut?
  }

  const LARGEST: Int64 := 0x7fff_ffff_ffff_ffff

  /** A retry count the loop can increment: not negative and not the largest int64. */
  predicate Sane(t: Task) { 0 <= t.retryCount < LARGEST }

  /** A failed attempt at this count is retried. Incrementing the largest one wraps around to
      the smallest, whose shift count wraps around once more and is positive. */
  predicate Retried(count: Int64) { 0 <= count < MAX_RETRY_COUNT || count == LARGEST }

  /** Attempts among the first `n` rounds that were not answered by "offline". */
  function RealAttempts(rounds: seq<Round>, n: nat): (k: nat)
    requires n <= |rounds|
    ensures k <= n
  {
    if n == 0 then 0
    else RealAttempts(rounds[1..], n - 1) + if rounds[0].attempt.CountsAsOffline() then 0 else 1
  }

  function MissingAttempts(rounds: seq<Round>, n: nat): nat
    requires n <= |rounds|
  {
    if n == 0 then 0
    else MissingAttempts(rounds[1..], n - 1) + if rounds[0].attempt.Missing() then 1 else 0
  }

  predicate SameJob(a: Task, b: Task) {
    && a.taskId == b.taskId && a.deviceId == b.deviceId && a.seqNo == b.seqNo
    && a.receivedAt == b.receivedAt && a.document == b.document
  }

  /** The code that a task fails with after its last attempt. */
  function FinalCode(a: Attempt): string {
    match a
    case DeviceMissing => "DEVICE_NOT_FOUND"
    case Broken(e) => if e.code == "" then "PROTOCOL_SEND_FAIL" else e.code
    case _ => "PROTOCOL_SEND_FAIL"
  }

  /** And the text that goes with it. */
  function FinalText(a: Attempt, device: string): string {
    match a
    case DeviceMissing => "[DEVICE_NOT_FOUND] device " + device + " not found"
    case NoAdapter(p) => "[PROTOCOL_SEND_FAIL] no adapter for protocol " + p
    case Broken(e) => e.msg
    case _ => ""
  }

  /** What the result of an attempt without device or adapter says, whatever job it is for. */
  predicate MissResult(t: Task, job: Task, r: Round) {
    && SameJob(t, job) && t.status.Failed? && t.finishedAt == r.endsAt
    && (r.attempt.DeviceMissing? ==> t.errorCode == "DEVICE_NOT_FOUND" && t.errorMsg == "device not found")
    && (r.attempt.NoAdapter? ==>
          t.errorCode == "PROTOCOL_SEND_FAIL" && t.errorMsg == "no adapter for protocol " + r.attempt.protocol)
  }

  /** What the result of the last attempt says, once the loop returns. */
  predicate FinalResult(t: Task, job: Task, r: Round) {
    && SameJob(t, job) && t.finishedAt == r.endsAt
    && (r.attempt.Sent? || r.attempt.Broken? ==> t.startedAt == r.startsAt)
    && if r.attempt.Sent? then t.status.Success? && t.errorCode == t.errorMsg == ""
       else t.status.Failed? && t.errorCode == FinalCode(r.attempt) && t.errorMsg == FinalText(r.attempt, job.deviceId)
  }

  /** Real attempts left to a task that has been retried `count` times. */
  function Budget(count: Int64): nat {
    if count == LARGEST then 2
    else if count < 0 || count >= MAX_RETRY_COUNT then 1
    else 4 - count
  }

  /** The texts of the agent's own errors. */
  lemma NotFoundText(device: string)
    ensures AgentError(DEVICE_NOT_FOUND, "device " + device + " not found").msg
         == "[DEVICE_NOT_FOUND] device " + device + " not found"
  {
    assert "[" + DEVICE_NOT_FOUND + "] " == "[DEVICE_NOT_FOUND] ";
    assert "[DEVICE_NOT_FOUND] " + "device " == "[DEVICE_NOT_FOUND] device ";
    Regroup("[DEVICE_NOT_FOUND] ", "device ", device, " not found");
  }

  lemma NoAdapterText(protocol: string)
    ensures AgentError(PROTOCOL_SEND_FAIL, "no adapter for protocol " + protocol).msg
         == "[PROTOCOL_SEND_FAIL] no adapter for protocol " + protocol
  {
    assert "[" + PROTOCOL_SEND_FAIL + "] " == "[PROTOCOL_SEND_FAIL] ";
    assert "[PROTOCOL_SEND_FAIL] " + "no adapter for protocol " == "[PROTOCOL_SEND_FAIL] no adapter for protocol ";
    Regroup("[PROTOCOL_SEND_FAIL] ", "no adapter for protocol ", protocol, "");
  }

  lemma Regroup(a: string, b: string, c: string, d: string)
    ensures a + (b + c + d) == (a + b) + c + d && a + (b + c) == (a + b) + c
  {
    assert a + (b + c) == (a + b) + c;
  }

  /** One attempt, wherever the context is cancelled. */
  lemma AttemptFacts(l: Log, r: Round)
    requires !l.task.status.IsTerminal()
    ensures
      var (l1, err) := Execute(l, r);
      && SameJob(l1.task, l.task) && l1.task.retryCount == l.task.retryCount
      && (err.None? <==> r.attempt.Sent?)
      && (err.None? ==> l1.fired == l.fired + [l1.task] && FinalResult(l1.task, l.task, r))
      && (err.Some? ==>
            && (err.value.code == DEVICE_OFFLINE <==> r.attempt.CountsAsOffline())
            && (err.value.code == DEVICE_OFFLINE ==> !l1.task.status.IsTerminal())
            && (!r.attempt.DeviceOffline? ==> ErrorOf(l1.task, l.task.deviceId, err.value, r))
            && if r.attempt.Missing() then l1.fired == l.fired + [l1.task] && MissResult(l1.task, l.task, r)
               else l1.fired == l.fired)
  {
    NotFoundText(l.task.deviceId);
    if r.attempt.NoAdapter? {
      NoAdapterText(r.attempt.protocol);
    }
  }

  /** The error of a real attempt, and the start time of one that got as far as the data. */
  predicate ErrorOf(t: Task, device: string, e: Error, r: Round) {
    && e.msg == FinalText(r.attempt, device)
    && (if e.code == "" then "PROTOCOL_SEND_FAIL" else e.code) == FinalCode(r.attempt)
    && (r.attempt.Broken? ==> t.startedAt == r.startsAt && e.code == r.attempt.err.code)
    && (r.attempt.Missing() ==> e.code == FinalCode(r.attempt))
  }

  /** One retry, wherever the context is cancelled. */
  lemma RetryFacts(l: Log, job: Task, e: Error, r: Round)
    requires SameJob(l.task, job)
    ensures
      var h, count := HandleRetry(l, e, r), l.task.retryCount;
      && SameJob(h.log.task, job) && h.log.task.retryCount == Wrap64(count + 1)
      && (h.again <==> Retried(count) && !r.cut.WhileWaiting?)
      && (h.again ==> h.log.task.status.Pending?)
      && (!h.again ==> h.end == if count < 0 then Panicked else if Retried(count) then Interrupted else Returned)
      && h.log.fired == l.fired + (if h.again || !h.end.Returned? then [] else [h.log.task])
      && (!h.again && h.end.Returned? && !r.attempt.Sent? && !r.attempt.DeviceOffline? && ErrorOf(l.task, job.deviceId, e, r) ==>
            FinalResult(h.log.task, job, r))
  {
  }

  /** One uncancelled round of a task that is not finished. */
  lemma RoundFacts(l: Log, r: Round)
    requires !l.task.status.IsTerminal() && r.cut.NoCut?
    ensures
      var (l1, err) := Execute(l, r);
      && (err.None? <==> r.attempt.Sent?)
      && (err.None? ==> l1.fired == l.fired + [l1.task] && FinalResult(l1.task, l.task, r))
      && (err.Some? ==>
            && l1.task.retryCount == l.task.retryCount
            && (err.value.code == DEVICE_OFFLINE <==> r.attempt.CountsAsOffline())
            && SameJob(l1.task, l.task)
            && (if r.attempt.Missing() then l1.fired == l.fired + [l1.task] && MissResult(l1.task, l.task, r)
                else l1.fired == l.fired)
            && (err.value.code == DEVICE_OFFLINE ==> !l1.task.status.IsTerminal())
            && (var h := HandleRetry(l1, err.value, r);
                && (h.again <==> Retried(l.task.retryCount))
                && (!h.again ==> h.end == if l.task.retryCount < 0 then Panicked else Returned)
                && h.log.task.retryCount == Wrap64(l.task.retryCount + 1)
                && SameJob(h.log.task, l.task)
                && (h.again ==> h.log.task.status.Pending?)
                && (h.again || h.end.Panicked? ==> h.log.fired == l1.fired)
                && (!h.again && h.end.Returned? ==> h.log.fired == l1.fired + [h.log.task])
                && (!h.again && h.end.Returned? && !r.attempt.CountsAsOffline() ==> FinalResult(h.log.task, l.task, r))))
  {
    hide Execute, HandleRetry, FinalResult, MissResult;
    AttemptFacts(l, r);
    var (l1, err) := Execute(l, r);
    if err.Some? {
      RetryFacts(l1, l.task, err.value, r);
    }
  }

  /** An observation "device offline" changes nothing in the task. */
  lemma OfflineRoundPreserves(l: Log, rounds: seq<Round>)
    requires rounds != [] && rounds[0].attempt.DeviceOffline? && rounds[0].cut.NoCut?
    requires !l.task.status.IsTerminal()
    ensures Loop(l, rounds) == var o := Loop(l, rounds[1..]); o.(used := o.used + 1)
    ensures Execute(l, rounds[0]) ==
      (l, Some(AgentError("DEVICE_OFFLINE", "device " + l.task.deviceId + " offline")))
  {
  }

  /** How the loop proceeds from one uncancelled round: it stops there, with one result fired
      by the loop itself or in a panic, or goes on from a task that is not finished. */
  lemma LoopStep(l: Log, rounds: seq<Round>) returns (goesOn: bool, next: Log)
    requires !l.task.status.IsTerminal() && rounds != [] && rounds[0].cut.NoCut?
    ensures
      var a, count := rounds[0].attempt, l.task.retryCount;
      var o := Loop(l, rounds);
      && goesOn == (a.CountsAsOffline() || (!a.Sent? && Retried(count)))
      && SameJob(next.task, l.task)
      && l.fired <= next.fired
      && (a.Missing() ==> |next.fired| > |l.fired| && MissResult(next.fired[|l.fired|], l.task, rounds[0]))
      && (goesOn ==>
            && o == (var o' := Loop(next, rounds[1..]); o'.(used := o'.used + 1))
            && |next.fired| == |l.fired| + (if a.Missing() then 1 else 0)
            && !next.task.status.IsTerminal()
            && next.task.retryCount == if a.CountsAsOffline() then count else Wrap64(count + 1))
      && (!goesOn ==>
            && o == Outcome(if a.Sent? || count >= 0 then Returned else Panicked, next, 1)
            && |next.fired| == |l.fired| + (if a.Missing() then 1 else 0) + (if o.end.Returned? then 1 else 0)
            && (o.end.Returned? ==>
                  && next.fired[|next.fired| - 1] == next.task && FinalResult(next.task, l.task, rounds[0]))
            && (!a.Sent? ==> next.task.retryCount == Wrap64(count + 1)))
  {
    RoundFacts(l, rounds[0]);
    var (l1, err) := Execute(l, rounds[0]);
    if err.None? {
      goesOn, next := false, l1;
    } else if err.value.code == DEVICE_OFFLINE {
      goesOn, next := true, l1;
    } else {
      var h := HandleRetry(l1, err.value, rounds[0]);
      goesOn, next := h.again, h.log;
    }
  }

  /** An uncancelled outcome within the budget: the loop returns in SUCCESS or FAILED, or
      panics, or the environment has answered fewer real attempts than the budget, which is
      max(1, 4 - r) for a sane count. Offline answers cost nothing, however many there are. */
  predicate Bounded(t: Task, rounds: seq<Round>, o: Outcome) {
    && o.used <= |rounds|
    && !o.end.Interrupted?
    && RealAttempts(rounds, o.used) <= Budget(t.retryCount)
    && (o.end.Returned? ==>
          && 1 <= o.used
          && (o.log.task.status.Success? || o.log.task.status.Failed?)
          && (o.log.task.status.Success? <==> rounds[o.used - 1].attempt.Sent?)
          && (o.log.task.status.Failed? ==>
                && Sane(t) && RealAttempts(rounds, o.used) == Budget(t.retryCount)
                && o.log.task.retryCount == t.retryCount + Budget(t.retryCount)))
    && (o.end.Panicked? ==> !Sane(t) && RealAttempts(rounds, o.used) == Budget(t.retryCount))
    && (o.end.Unfinished? ==>
          o.used == |rounds| && RealAttempts(rounds, |rounds|) < Budget(t.retryCount))
  }

  lemma BoundedNext(t: Task, next: Task, rounds: seq<Round>, o: Outcome)
    requires rounds != [] && Bounded(next, rounds[1..], o)
    requires var offline := rounds[0].attempt.CountsAsOffline();
      && (offline || Retried(t.retryCount))
      && next.retryCount == if offline then t.retryCount else Wrap64(t.retryCount + 1)
    ensures Bounded(t, rounds, o.(used := o.used + 1))
  {
  }

  /** Termination and the number of attempts, for every retry count a task can arrive with. */
  lemma {:induction false} BoundedAttempts(l: Log, rounds: seq<Round>)
    requires !l.task.status.IsTerminal() && Uncut(rounds)
    ensures Bounded(l.task, rounds, Loop(l, rounds))
    decreases |rounds|
  {
    if rounds != [] {
      var goesOn, next := LoopStep(l, rounds);
      if goesOn {
        BoundedAttempts(next, rounds[1..]);
        BoundedNext(l.task, next.task, rounds, Loop(next, rounds[1..]));
      } else {
        assert RealAttempts(rounds, 1) == 1;
      }
    }
  }

  /** A round in which the context is cancelled is the last one. */
  lemma CutRound(l: Log, rounds: seq<Round>)
    requires !l.task.status.IsTerminal() && rounds != [] && !rounds[0].cut.NoCut?
    ensures
      var o := Loop(l, rounds);
      var a := rounds[0].attempt;
      && o.used == (if rounds[0].cut.AtTop? then 0 else 1)
      && !o.end.Unfinished?
      && l.fired <= o.log.fired
      && (o.used == 1 && a.Missing() ==>
            |o.log.fired| > |l.fired| && MissResult(o.log.fired[|l.fired|], l.task, rounds[0]))
      && (!o.end.Returned? ==> |o.log.fired| == |l.fired| + if o.used == 1 && a.Missing() then 1 else 0)
      && (o.end.Returned? ==>
            && o.used == 1 && |o.log.fired| == |l.fired| + 1 + (if a.Missing() then 1 else 0)
            && o.log.fired[|o.log.fired| - 1] == o.log.task && FinalResult(o.log.task, l.task, rounds[0]))
  {
    if !rounds[0].cut.AtTop? {
      var r := rounds[0];
      hide Execute, HandleRetry, FinalResult, MissResult;
      AttemptFacts(l, r);
      var (l1, err) := Execute(l, r);
      if err.Some? {
        RetryFacts(l1, l.task, err.value, r);
      }
    }
  }

  /** An outcome that accounts for the results fired after `before`: for every attempt that found
      no device or no adapter one that says so, in the order of the attempts, and one more
      exactly when the loop returned by itself; that one comes last, is the final task and says
      how the last attempt ended. */
  predicate Accounted(before: seq<Task>, job: Task, rounds: seq<Round>, o: Outcome) {
    && o.used <= |rounds| && before <= o.log.fired
    && |o.log.fired| == |before| + MissingAttempts(rounds, o.used) + (if o.end.Returned? then 1 else 0)
    && (forall i: nat :: i < o.used && rounds[i].attempt.Missing() ==> MissReported(before, job, rounds, o, i))
    && (o.end.Returned? ==>
          && o.used > 0 && o.log.fired[|o.log.fired| - 1] == o.log.task
          && FinalResult(o.log.task, job, rounds[o.used - 1]))
  }

  /** Attempt `i` has its result, after those of the earlier ones. */
  predicate MissReported(before: seq<Task>, job: Task, rounds: seq<Round>, o: Outcome, i: nat) {
    && i < |rounds| && |before| + MissingAttempts(rounds, i) < |o.log.fired|
    && MissResult(o.log.fired[|before| + MissingAttempts(rounds, i)], job, rounds[i])
  }

  lemma {:induction false} AccountedNext(before: seq<Task>, next: seq<Task>, job: Task, rounds: seq<Round>, o: Outcome)
    requires rounds != [] && before <= next && Accounted(next, job, rounds[1..], o)
    requires |next| == |before| + if rounds[0].attempt.Missing() then 1 else 0
    requires rounds[0].attempt.Missing() ==> MissResult(next[|before|], job, rounds[0])
    ensures Accounted(before, job, rounds, o.(used := o.used + 1))
  {
    var o' := o.(used := o.used + 1);
    forall i: nat | i < o'.used && rounds[i].attempt.Missing() ensures MissReported(before, job, rounds, o', i) {
      if i > 0 {
        assert rounds[1..][i - 1] == rounds[i];
        assert MissReported(next, job, rounds[1..], o, i - 1);
      } else {
        assert o.log.fired[|before|] == next[|before|];
      }
    }
  }

  /** Results, in every run, whatever the retry count, cancelled or not: a loop that is
      interrupted or panics has fired those of its missing devices and adapters only. */
  lemma {:induction false} ResultsFired(l: Log, job: Task, rounds: seq<Round>)
    requires !l.task.status.IsTerminal() && SameJob(l.task, job)
    ensures Accounted(l.fired, job, rounds, Loop(l, rounds))
    decreases |rounds|
  {
    if rounds != [] {
      assert MissingAttempts(rounds, 0) == 0;
      assert MissingAttempts(rounds, 1) == if rounds[0].attempt.Missing() then 1 else 0;
      if !rounds[0].cut.NoCut? {
        CutRound(l, rounds);
      } else {
        var goesOn, next := LoopStep(l, rounds);
        if goesOn {
          ResultsFired(next, job, rounds[1..]);
          AccountedNext(l.fired, next.fired, job, rounds, Loop(next, rounds[1..]));
        }
      }
    }
  }

  /** So no result ever says anything but SUCCESS or FAILED. */
  lemma {:induction false} ResultsAreTerminal(l: Log, rounds: seq<Round>, k: nat)
    requires !l.task.status.IsTerminal() && |l.fired| <= k < |Loop(l, rounds).log.fired|
    ensures
      var t := Loop(l, rounds).log.fired[k];
      SameJob(t, l.task) && (t.status.Success? || t.status.Failed?)
  {
    ResultsFired(l, l.task, rounds);
    var o := Loop(l, rounds);
    if k - |l.fired| < MissingAttempts(rounds, o.used) {
      var i := NthMissing(rounds, o.used, k - |l.fired|);
      assert MissReported(l.fired, l.task, rounds, o, i);
    }
  }

  lemma {:induction false} NthMissing(rounds: seq<Round>, n: nat, k: nat) returns (i: nat)
    requires n <= |rounds| && k < MissingAttempts(rounds, n)
    ensures i < n && rounds[i].attempt.Missing() && MissingAttempts(rounds, i) == k
  {
    if rounds[0].attempt.Missing() && k == 0 {
      i := 0;
    } else {
      var j := NthMissing(rounds[1..], n - 1, if rounds[0].attempt.Missing() then k - 1 else k);
      i := j + 1;
    }
  }

  // -------------------------------------------------------- terminal statuses

  /** Once a terminal status has been assigned, nothing else ever is. */
  predicate TerminalFinal(trace: seq<TaskStatus>) {
    forall i, j | 0 <= i < j < |trace| && trace[i].IsTerminal() :: trace[j] == trace[i]
  }

  predicate NoneTerminal(trace: seq<TaskStatus>) {
    forall i | 0 <= i < |trace| :: !trace[i].IsTerminal()
  }

  /** The loop gets to attempt `i`, which finds no device or no adapter, is not cancelled before
      it is rescheduled, and is not the last one that the retry count allows. */
  predicate MarkedTooEarly(count: Int64, rounds: seq<Round>, i: nat) {
    && i < |rounds| && rounds[i].attempt.Missing() && (rounds[i].cut.NoCut? || rounds[i].cut.WhileWaiting?)
    && (forall j :: 0 <= j < i ==> !rounds[j].attempt.Sent? && rounds[j].cut.NoCut?)
    && RealAttempts(rounds, i) + (if 0 <= count < LARGEST then 1 else 0) < Budget(count)
  }

  lemma RoundTraceGrows(l: Log, r: Round)
    ensures
      var (l1, err) := Execute(l, r);
      l.trace <= l1.trace && (err.Some? ==> l.trace <= HandleRetry(l1, err.value, r).log.trace)
  {
  }

  lemma {:induction false} TraceGrows(l: Log, rounds: seq<Round>)
    ensures l.trace <= Loop(l, rounds).log.trace
    decreases |rounds|
  {
    if rounds != [] {
      RoundTraceGrows(l, rounds[0]);
      var (l1, err) := Execute(l, rounds[0]);
      TraceGrows(l1, rounds[1..]);
      if err.Some? {
        TraceGrows(HandleRetry(l1, err.value, rounds[0]).log, rounds[1..]);
      }
    }
  }

  lemma RoundTrace(l: Log, r: Round)
    requires !l.task.status.IsTerminal() && r.cut.NoCut?
    ensures
      var (l1, err) := Execute(l, r);
      && (err.None? ==> l1.trace == l.trace + [Running, Success])
      && (r.attempt.Missing() ==> l1.trace == l.trace + [Failed])
      && (err.Some? && !r.attempt.Missing() ==> l1.trace == l.trace || l1.trace == l.trace + [Running])
      && (err.Some? ==>
            var h := HandleRetry(l1, err.value, r);
            h.log.trace == l1.trace +
              if h.again then [Retrying, Pending] else if h.end.Panicked? then [Retrying] else [Failed])
  {
  }

  /** A missing attempt that is not the last one puts FAILED before RETRYING in the trace. */
  lemma MissedOverwritten(l: Log, rounds: seq<Round>)
    requires rounds != [] && rounds[0].attempt.Missing() && rounds[0].cut.NoCut?
    requires !l.task.status.IsTerminal() && (Retried(l.task.retryCount) || l.task.retryCount < 0)
    ensures !TerminalFinal(Loop(l, rounds).log.trace)
  {
    var r := rounds[0];
    RoundFacts(l, r);
    RoundTrace(l, r);
    var (l1, err) := Execute(l, r);
    var h := HandleRetry(l1, err.value, r);
    TraceGrows(h.log, rounds[1..]);
    var trace := Loop(l, rounds).log.trace;
    var n := |l.trace|;
    assert h.log.trace[n] == Failed && h.log.trace[n + 1] == Retrying;
    assert trace[n] == Failed && trace[n + 1] == Retrying;
  }

  /** One uncancelled round and the trace: the loop goes on with no terminal status so far, or
      stops with a final one, unless an attempt that missed is followed by RETRYING. */
  lemma TraceStep(l: Log, rounds: seq<Round>) returns (goesOn: bool, next: Log)
    requires !l.task.status.IsTerminal() && NoneTerminal(l.trace) && rounds != [] && rounds[0].cut.NoCut?
    requires !(rounds[0].attempt.Missing() && (Retried(l.task.retryCount) || l.task.retryCount < 0))
    ensures goesOn == (rounds[0].attempt.CountsAsOffline() || (!rounds[0].attempt.Sent? && Retried(l.task.retryCount)))
    ensures !goesOn ==> TerminalFinal(Loop(l, rounds).log.trace)
    ensures goesOn ==>
      && Loop(l, rounds).log == Loop(next, rounds[1..]).log
      && !next.task.status.IsTerminal() && NoneTerminal(next.trace)
      && next.task.retryCount ==
         if rounds[0].attempt.CountsAsOffline() then l.task.retryCount else Wrap64(l.task.retryCount + 1)
  {
    var r := rounds[0];
    RoundFacts(l, r);
    RoundTrace(l, r);
    var (l1, err) := Execute(l, r);
    if err.None? {
      goesOn, next := false, l1;
    } else if err.value.code == DEVICE_OFFLINE {
      goesOn, next := true, l1;
    } else {
      var h := HandleRetry(l1, err.value, r);
      goesOn, next := h.again, h.log;
    }
  }

  /** A round in which the context is cancelled is the last one: a terminal status is overwritten
      there only if the attempt missed and was rescheduled before the cancellation. */
  lemma CutTrace(l: Log, rounds: seq<Round>)
    requires !l.task.status.IsTerminal() && NoneTerminal(l.trace) && rounds != [] && !rounds[0].cut.NoCut?
    ensures TerminalFinal(Loop(l, rounds).log.trace) <==> !MarkedTooEarly(l.task.retryCount, rounds, 0)
    ensures forall i: nat :: MarkedTooEarly(l.task.retryCount, rounds, i) ==> i == 0
  {
    var r, count := rounds[0], l.task.retryCount;
    if !r.cut.AtTop? {
      var (l1, err) := Execute(l, r);
      AttemptTrace(l, r);
      if r.cut.WhileWaiting? && err.Some? && err.value.code != DEVICE_OFFLINE {
        CutRetryTrace(l1, err.value, r);
        var trace := Loop(l, rounds).log.trace;
        if r.attempt.Missing() && (Retried(count) || count < 0) {
          assert trace[|l.trace|] == Failed && trace[|l.trace| + 1] == Retrying;
        }
      }
    }
  }

  /** The statuses that one attempt assigns. */
  lemma AttemptTrace(l: Log, r: Round)
    ensures
      var (l1, err) := Execute(l, r);
      && l1.task.retryCount == l.task.retryCount
      && (err.None? <==> r.attempt.Sent?)
      && (r.attempt.Sent? ==> l1.trace == l.trace + [Running, Success])
      && (r.attempt.Missing() ==> l1.trace == l.trace + [Failed] && err.value.code != DEVICE_OFFLINE)
      && (err.Some? && !r.attempt.Missing() ==> l1.trace == l.trace || l1.trace == l.trace + [Running])
  {
  }

  lemma CutRetryTrace(l: Log, e: Error, r: Round)
    requires r.cut.WhileWaiting?
    ensures !HandleRetry(l, e, r).again
    ensures HandleRetry(l, e, r).log.trace == l.trace +
      if !Retried(l.task.retryCount) && l.task.retryCount >= 0 then [Failed] else [Retrying]
  {
  }

  /** The exact condition under which a terminal status is final, for every run, cancelled or
      not, and every retry count: none is ever overwritten if and only if no device or adapter
      was missing at an attempt that is rescheduled. */
  lemma {:induction false} TerminalFinalIff(l: Log, rounds: seq<Round>)
    requires !l.task.status.IsTerminal() && NoneTerminal(l.trace)
    ensures
      TerminalFinal(Loop(l, rounds).log.trace)
      <==> !exists i: nat :: MarkedTooEarly(l.task.retryCount, rounds, i)
    decreases |rounds|
  {
    if rounds != [] {
      var count := l.task.retryCount;
      if !rounds[0].cut.NoCut? {
        CutTrace(l, rounds);
      } else if rounds[0].attempt.Missing() && (Retried(count) || count < 0) {
        MissedOverwritten(l, rounds);
        assert MarkedTooEarly(count, rounds, 0);
      } else {
        var goesOn, next := TraceStep(l, rounds);
        if goesOn {
          TerminalFinalIff(next, rounds[1..]);
          TooEarlyShift(count, next.task.retryCount, rounds);
        } else {
          NoneTooEarly(count, rounds);
        }
      }
    }
  }

  /** Nothing is reached after a success or after the last attempt. */
  lemma NoneTooEarly(count: Int64, rounds: seq<Round>)
    requires rounds != [] && !rounds[0].attempt.CountsAsOffline()
    requires rounds[0].attempt.Sent? || (!Retried(count) && (rounds[0].attempt.Missing() ==> count >= 0))
    ensures !exists i: nat :: MarkedTooEarly(count, rounds, i)
  {
    forall i: nat ensures !MarkedTooEarly(count, rounds, i) {
      if i < |rounds| && i > 0 {
        assert RealAttempts(rounds, i) >= 1;
      }
    }
  }

  lemma TooEarlyShift(count: Int64, next: Int64, rounds: seq<Round>)
    requires rounds != [] && !rounds[0].attempt.Sent? && !rounds[0].attempt.Missing() && rounds[0].cut.NoCut?
    requires if rounds[0].attempt.CountsAsOffline() then next == count else Retried(count) && next == Wrap64(count + 1)
    ensures
      (exists i: nat :: MarkedTooEarly(count, rounds, i)) <==> (exists i: nat :: MarkedTooEarly(next, rounds[1..], i))
  {
    if i: nat :| MarkedTooEarly(count, rounds, i) {
      assert rounds[1..][i - 1] == rounds[i];
      assert MarkedTooEarly(next, rounds[1..], i - 1);
    }
    if i: nat :| MarkedTooEarly(next, rounds[1..], i) {
      assert rounds[i + 1] == rounds[1..][i];
      forall j | 0 <= j < i + 1 ensures !rounds[j].attempt.Sent? && rounds[j].cut.NoCut? {
        assert j > 0 ==> rounds[j] == rounds[1..][j - 1];
      }
      assert MarkedTooEarly(count, rounds, i + 1);
    }
  }

  // ------------------------------------------------------------ final fields

  /** One uncancelled round: what it leaves of the fields, going on or not. */
  lemma RoundFields(l: Log, r: Round)
    requires r.cut.NoCut?
    ensures
      var (l1, err) := Execute(l, r);
      && SameJob(l1.task, l.task) && l1.task.nextRetryAt == l.task.nextRetryAt
      && (err.None? ==> l1.task.finishedAt == r.endsAt && l1.task.errorCode == l1.task.errorMsg == "")
      && (err.Some? ==>
            var h := HandleRetry(l1, err.value, r);
            && SameJob(h.log.task, l.task)
            && (h.again ==> h.log.task.nextRetryAt == 0 && h.log.task.errorCode == h.log.task.errorMsg == "")
            && (h.end.Returned? && !r.attempt.CountsAsOffline() ==>
                  && h.log.task.nextRetryAt == l.task.nextRetryAt && h.log.task.finishedAt == r.endsAt
                  && h.log.task.errorCode == FinalCode(r.attempt) && h.log.task.errorMsg == err.value.msg))
  {
  }

  /** What a finished task looks like: no retry pending, the times of its last round, no error
      after SUCCESS and the last attempt's error after FAILED; and it is still the same job. */
  lemma {:induction false} FinalFields(l: Log, rounds: seq<Round>)
    requires !l.task.status.IsTerminal() && Uncut(rounds) && l.task.nextRetryAt == 0
    requires Loop(l, rounds).end.Returned?
    ensures
      var o := Loop(l, rounds);
      var t := o.log.task;
      && SameJob(t, l.task) && t.nextRetryAt == 0
      && 1 <= o.used <= |rounds| && FinalResult(t, l.task, rounds[o.used - 1])
    decreases |rounds|
  {
    ResultsFired(l, l.task, rounds);
    var r := rounds[0];
    RoundFacts(l, r);
    RoundFields(l, r);
    var (l1, err) := Execute(l, r);
    if err.None? {
      return;
    }
    var offline := err.value.code == DEVICE_OFFLINE;
    var h := HandleRetry(l1, err.value, r);
    if offline || h.again {
      var rest := if offline then l1 else h.log;
      FinalFields(rest, rounds[1..]);
    }
  }

  /** What a task looks like that is interrupted while it waits for its next attempt: the error
      of the last one, and the time of the next one 5, 10 or 20 seconds later. */
  lemma InterruptedWaiting(l: Log, rounds: seq<Round>)
    requires !l.task.status.IsTerminal() && rounds != [] && rounds[0].cut.WhileWaiting?
    requires rounds[0].attempt.Missing() || (rounds[0].attempt.Broken? && !rounds[0].attempt.CountsAsOffline())
    requires 0 <= l.task.retryCount < 3
    ensures
      var o, a, n := Loop(l, rounds), rounds[0].attempt, l.task.retryCount;
      var t := o.log.task;
      && o.end.Interrupted? && SameJob(t, l.task) && t.status.Retrying? && t.retryCount == n + 1
      && t.errorCode == (if a.Broken? then a.err.code else FinalCode(a)) && t.errorMsg == FinalText(a, l.task.deviceId)
      && t.nextRetryAt == rounds[0].endsAt +
         (if n == 0 then 5_000_000_000 else if n == 1 then 10_000_000_000 else 20_000_000_000)
  {
    AttemptFacts(l, rounds[0]);
    var (l1, err) := Execute(l, rounds[0]);
    WaitingFields(l1, err.value, rounds[0]);
  }

  lemma WaitingFields(l: Log, e: Error, r: Round)
    requires r.cut.WhileWaiting? && 0 <= l.task.retryCount < 3
    ensures
      var h, t := HandleRetry(l, e, r), HandleRetry(l, e, r).log.task;
      && !h.again && h.end.Interrupted? && SameJob(t, l.task)
      && t.status.Retrying? && t.retryCount == l.task.retryCount + 1
      && t.errorCode == e.code && t.errorMsg == e.msg
      && t.nextRetryAt == r.endsAt +
         (if t.retryCount == 1 then 5_000_000_000 else if t.retryCount == 2 then 10_000_000_000 else 20_000_000_000)
  {
    RetryDelays();
  }

  // ------------------------------------------------------------- retry counts

  /** A task that arrives with a negative retry count crashes the worker at its first
      failed attempt, because the shift count is negative. */
  lemma {:induction false} NegativeCountPanics(l: Log, rounds: seq<Round>, k: nat)
    requires !l.task.status.IsTerminal() && l.task.retryCount < 0 && Uncut(rounds)
    requires k < |rounds| && !rounds[k].attempt.CountsAsOffline() && !rounds[k].attempt.Sent?
    requires forall i | 0 <= i < k :: rounds[i].attempt.CountsAsOffline()
    ensures Loop(l, rounds).end.Panicked?
    decreases k
  {
    var (l1, err) := Execute(l, rounds[0]);
    if k > 0 {
      NegativeCountPanics(l1, rounds[1..], k - 1);
    }
  }

  /** The delays a task can meet are 5, 10 and 20 seconds: the cap is never reached. */
  lemma RetryDelays()
    ensures Backoff(1) == 5_000_000_000 && Backoff(2) == 10_000_000_000 && Backoff(3) == 20_000_000_000
  {
    assert ShiftOne(0) == 1 && ShiftOne(1) == 2 && ShiftOne(2) == 4 by {
      assert Pow2(0) == 1 && Pow2(1) == 2 && Pow2(2) == 4;
    }
  }
}
