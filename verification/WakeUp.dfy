/** One device queue seen through its mutex and condition variable: producers signal and
    closers broadcast only after they have released the lock, and any number of consumers
    wait. Tasks are counted, not named. */
module WakeUp {

  datatype State = State(
    capacity: nat,
    flagged: bool,        // the queue-wide closed flag, tested by Enqueue only
    created: bool,        // the device queue is in the map
    tasks: nat,
    closed: bool,         // the device queue's own closed flag
    waiters: seq<nat>,    // consumers parked in Wait, oldest first
    woken: seq<nat>,      // consumers released from Wait that do not hold the lock yet
    admitted: nat,        // producers between the test of the flag and the append
    signals: nat,         // producers between unlock and Signal
    snapshots: nat,       // closers that will still close this device queue
    broadcasts: nat,      // closers between unlock and Broadcast
    snapped: bool)        // history: some closer's snapshot held this device queue

  function Init(capacity: nat): State {
    State(capacity, false, false, 0, false, [], [], 0, 0, 0, 0, false)
  }

  datatype Step =
    | Admit                 // Enqueue reads the flag
    | Refuse                // Enqueue finds the device queue closed or full
    | Create                // getOrCreate
    | Append                // Enqueue's locked section
    | Signal                // Enqueue's Signal
    | AppendRecovered       // enqueueRecovered appends and signals under the lock
    | Remove                // TryDequeue or a successful Cancel
    | Enter(c: nat)         // Dequeue takes the lock
    | Resume(i: nat)        // a woken consumer gets the lock back
    | Flag                  // Close sets the queue-wide flag
    | Snapshot              // Close copies the map
    | Mark                  // Close sets the device queue's flag
    | Broadcast

  predicate Enabled(s: State, step: Step) {
    match step
    case Admit => !s.flagged
    case Refuse => s.admitted > 0 && s.created && (s.closed || s.tasks >= s.capacity)
    case Create => true
    case Append => s.admitted > 0 && s.created && !s.closed && s.tasks < s.capacity
    case Signal => s.signals > 0
    case AppendRecovered => s.created && !s.closed && s.tasks < s.capacity
    case Remove => s.tasks > 0
    case Enter(c) => s.created && c !in s.waiters && c !in s.woken
    case Resume(i) => i < |s.woken|
    case Flag => true
    case Snapshot => s.flagged
    case Mark => s.snapshots > 0
    case Broadcast => s.broadcasts > 0
  }

  /** Signal moves the oldest waiter, if there is one. */
  function WakeOne(s: State): State {
    if s.waiters == [] then s
    else s.(waiters := s.waiters[1..], woken := s.woken + [s.waiters[0]])
  }

  /** One pass of Dequeue's loop for consumer `c`, which holds the lock. */
  function Attempt(s: State, c: nat): State {
    if s.closed then s
    else if s.tasks > 0 then s.(tasks := s.tasks - 1)
    else s.(waiters := s.waiters + [c])
  }

  function Next(s: State, step: Step): State
    requires Enabled(s, step)
  {
    match step
    case Admit => s.(admitted := s.admitted + 1)
    case Refuse => s.(admitted := s.admitted - 1)
    case Create => s.(created := true)
    case Append => s.(admitted := s.admitted - 1, tasks := s.tasks + 1, signals := s.signals + 1)
    case Signal => WakeOne(s.(signals := s.signals - 1))
    case AppendRecovered => WakeOne(s.(tasks := s.tasks + 1))
    case Remove => s.(tasks := s.tasks - 1)
    case Enter(c) => Attempt(s, c)
    case Resume(i) => Attempt(s.(woken := s.woken[..i] + s.woken[i + 1..]), s.woken[i])
    case Flag => s.(flagged := true)
    case Snapshot =>
      if s.created then s.(snapshots := s.snapshots + 1, snapped := true) else s
    case Mark => s.(snapshots := s.snapshots - 1, closed := true, broadcasts := s.broadcasts + 1)
    case Broadcast => s.(broadcasts := s.broadcasts - 1, waiters := [], woken := s.woken + s.waiters)
  }

  predicate IsRun(s: State, steps: seq<Step>)
    decreases |steps|
  {
    steps == [] || (Enabled(s, steps[0]) && IsRun(Next(s, steps[0]), steps[1..]))
  }

  function Run(s: State, steps: seq<Step>): State
    requires IsRun(s, steps)
    decreases |steps|
  {
    if steps == [] then s else Run(Next(s, steps[0]), steps[1..])
  }

  /** While a consumer is parked, every queued task is covered by a signal still to be sent
      or by a consumer already on its way; on a closed queue a broadcast is still due. */
  predicate Covered(s: State) {
    && (s.waiters != [] && !s.closed ==> s.tasks <= s.signals + |s.woken|)
    && (s.waiters != [] && s.closed ==> s.broadcasts > 0)
  }

  predicate CloseOrder(s: State) {
    && (s.waiters != [] || s.woken != [] || s.snapped ==> s.created)
    && (s.closed || s.snapshots > 0 ==> s.snapped)
    && (s.broadcasts > 0 ==> s.closed)
    && (s.snapped ==> s.flagged && (s.closed || s.snapshots > 0))
    && s.tasks <= s.capacity
  }

  predicate Inv(s: State) { Covered(s) && CloseOrder(s) }

  lemma StepKeepsInv(s: State, step: Step)
    requires Inv(s) && Enabled(s, step)
    ensures Inv(Next(s, step))
  {
  }

  lemma {:induction false} RunKeepsInv(s: State, steps: seq<Step>)
    requires Inv(s) && IsRun(s, steps)
    ensures Inv(Run(s, steps))
    decreases |steps|
  {
    if steps != [] {
      StepKeepsInv(s, steps[0]);
      RunKeepsInv(Next(s, steps[0]), steps[1..]);
    }
  }

  /** Nothing is on its way: no unsent signal or broadcast, no woken consumer, no closer. */
  predicate Quiet(s: State) {
    s.signals == 0 && s.woken == [] && s.broadcasts == 0 && s.snapshots == 0
  }

  /** The steps that only finish what was already started. */
  predicate Internal(step: Step) {
    step.Signal? || step.Resume? || step.Mark? || step.Broadcast?
  }

  function Outstanding(s: State): nat {
    var inside := |s.waiters| + |s.woken| + 1;
    inside * (2 * s.snapshots + s.broadcasts) + 2 * s.signals + |s.woken|
  }

  lemma InternalStepShrinks(s: State, step: Step)
    requires Enabled(s, step) && Internal(step)
    ensures Outstanding(Next(s, step)) < Outstanding(s)
  {
    var s' := Next(s, step);
    var inside, inside' := |s.waiters| + |s.woken| + 1, |s'.waiters| + |s'.woken| + 1;
    var due, due' := 2 * s.snapshots + s.broadcasts, 2 * s'.snapshots + s'.broadcasts;
    assert inside' <= inside && due' <= due;
    ProductBound(inside', inside, due', due);
  }

  lemma {:induction false} MulMonotone(a: nat, b: nat, k: nat)
    requires a <= b
    ensures a * k <= b * k
  {
  }

  lemma ProductBound(a: nat, b: nat, m: nat, n: nat)
    requires a <= b && m <= n
    ensures a * m <= b * n
    ensures m < n ==> a * m <= b * n - b
  {
    MulMonotone(a, b, m);
    MulMonotone(m, n, b);
    if m < n {
      MulMonotone(m, n - 1, b);
      assert (n - 1) * b == n * b - b;
    }
  }

  /** No lost wake-up, for any number of consumers and any interleaving: however the
      outstanding signals, broadcasts and wake-ups are scheduled, they run out after at
      most `Outstanding` steps, and a consumer that is then still parked waits on an
      empty, open device queue that no Close has seen. */
  lemma {:induction false} NoLostWakeUp(capacity: nat, before: seq<Step>, drain: seq<Step>)
    requires IsRun(Init(capacity), before)
    requires IsRun(Run(Init(capacity), before), drain)
    requires forall step | step in drain :: Internal(step)
    ensures |drain| <= Outstanding(Run(Init(capacity), before))
    ensures
      var s := Run(Run(Init(capacity), before), drain);
      (forall step | Internal(step) :: !Enabled(s, step)) ==>
        Quiet(s) && (s.waiters != [] ==> s.tasks == 0 && !s.closed && !s.snapped)
  {
    var s0 := Run(Init(capacity), before);
    RunKeepsInv(Init(capacity), before);
    RunKeepsInv(s0, drain);
    DrainBound(s0, drain);
    var s := Run(s0, drain);
    if forall step | Internal(step) :: !Enabled(s, step) {
      assert !Enabled(s, Signal) && !Enabled(s, Resume(0)) && !Enabled(s, Mark) && !Enabled(s, Broadcast);
    }
  }

  lemma {:induction false} DrainBound(s: State, drain: seq<Step>)
    requires IsRun(s, drain) && forall step | step in drain :: Internal(step)
    ensures |drain| <= Outstanding(s)
    decreases |drain|
  {
    if drain != [] {
      InternalStepShrinks(s, drain[0]);
      DrainBound(Next(s, drain[0]), drain[1..]);
    }
  }

  /** The bound on queued tasks is about open queues only: once the device queue is
      closed, a woken consumer leaves without taking a task. */
  lemma CoverageNeedsOpen() returns (steps: seq<Step>)
    ensures IsRun(Init(1), steps)
    ensures
      var s := Run(Init(1), steps);
      s.waiters != [] && s.tasks > s.signals + |s.woken|
  {
    // Two parked consumers, one recovered task, a close that has not broadcast yet, and the
    // woken consumer resumes in between.
    steps := Extend(Init(1), [], Init(1), Create);
    steps := Extend(Init(1), steps, State(1, false, true, 0, false, [], [], 0, 0, 0, 0, false), Enter(0));
    steps := Extend(Init(1), steps, State(1, false, true, 0, false, [0], [], 0, 0, 0, 0, false), Enter(1));
    steps := Extend(Init(1), steps, State(1, false, true, 0, false, [0, 1], [], 0, 0, 0, 0, false), AppendRecovered);
    steps := Extend(Init(1), steps, State(1, false, true, 1, false, [1], [0], 0, 0, 0, 0, false), Flag);
    steps := Extend(Init(1), steps, State(1, true, true, 1, false, [1], [0], 0, 0, 0, 0, false), Snapshot);
    steps := Extend(Init(1), steps, State(1, true, true, 1, false, [1], [0], 0, 0, 1, 0, true), Mark);
    steps := Extend(Init(1), steps, State(1, true, true, 1, true, [1], [0], 0, 0, 0, 1, true), Resume(0));
  }

  /** A run from `s0` to `s` and one more step. */
  lemma Extend(s0: State, steps: seq<Step>, s: State, step: Step) returns (longer: seq<Step>)
    requires IsRun(s0, steps) && Run(s0, steps) == s && Enabled(s, step)
    ensures IsRun(s0, longer) && Run(s0, longer) == Next(s, step)
  {
    longer := steps + [step];
    RunConcat(s0, steps, [step]);
  }

  lemma {:induction false} RunConcat(s: State, a: seq<Step>, b: seq<Step>)
    requires IsRun(s, a) && IsRun(Run(s, a), b)
    ensures IsRun(s, a + b) && Run(s, a + b) == Run(Run(s, a), b)
    decreases |a|
  {
    if a == [] {
      assert a + b == b;
    } else {
      assert (a + b)[1..] == a[1..] + b;
      RunConcat(Next(s, a[0]), a[1..], b);
    }
  }

  // ------------------------------------------------------------------- shutdown

  /** Shutdown releases every consumer of a device queue that a Close snapshot held: once
      the closers are done and nothing is on its way, nobody is parked there and nobody
      can park again. */
  lemma ShutdownReleases(capacity: nat, steps: seq<Step>, later: seq<Step>)
    requires IsRun(Init(capacity), steps)
    requires Run(Init(capacity), steps).snapped && Quiet(Run(Init(capacity), steps))
    requires IsRun(Run(Init(capacity), steps), later)
    ensures Run(Init(capacity), steps).waiters == []
    ensures Run(Run(Init(capacity), steps), later).waiters == []
  {
    var s := Run(Init(capacity), steps);
    RunKeepsInv(Init(capacity), steps);
    ClosedStaysEmpty(s, later);
  }

  lemma {:induction false} ClosedStaysEmpty(s: State, steps: seq<Step>)
    requires IsRun(s, steps) && s.closed && s.waiters == []
    ensures Run(s, steps).closed && Run(s, steps).waiters == []
    decreases |steps|
  {
    if steps != [] {
      ClosedStaysEmpty(Next(s, steps[0]), steps[1..]);
    }
  }

  function Removals(steps: seq<Step>): nat {
    if steps == [] then 0 else (if steps[0].Remove? then 1 else 0) + Removals(steps[1..])
  }

  /** A device queue once closed admits nothing, and no consumer takes from it: what leaves it
      are removals only, and a consumer that comes in leaves empty-handed. */
  lemma {:induction false} ClosedOnlyRemoves(s: State, later: seq<Step>)
    requires s.closed && IsRun(s, later)
    ensures Run(s, later).closed && Run(s, later).tasks + Removals(later) == s.tasks
    ensures forall c :: c in Run(s, later).waiters ==> c in s.waiters
    decreases |later|
  {
    if later != [] {
      ClosedOnlyRemoves(Next(s, later[0]), later[1..]);
    }
  }

  /** Which device queues Close releases: in every reachable state with nothing on its way,
      nobody is parked now or in any continuation if and only if some closer's snapshot held
      the device queue. */
  lemma {:induction false} ReleasedIffSnapped(capacity: nat, steps: seq<Step>)
    requires IsRun(Init(capacity), steps) && Quiet(Run(Init(capacity), steps))
    ensures
      var s := Run(Init(capacity), steps);
      s.snapped <==> forall later | IsRun(s, later) :: Run(s, later).waiters == []
  {
    var s := Run(Init(capacity), steps);
    RunKeepsInv(Init(capacity), steps);
    if s.snapped {
      forall later | IsRun(s, later) ensures Run(s, later).waiters == [] {
        ShutdownReleases(capacity, steps, later);
      }
    } else if s.waiters != [] {
      assert IsRun(s, []) && Run(s, []).waiters != [];
    } else {
      var parked := ParkSomeone(Next(s, Create));
      var later := [Create] + parked;
      assert later[1..] == parked;
      assert IsRun(s, later) && Run(s, later).waiters != [];
    }
  }

  /** On an open device queue consumers take what is there, and then one parks. */
  lemma {:induction false} ParkSomeone(s: State) returns (later: seq<Step>)
    requires s.created && !s.closed && s.waiters == [] && s.woken == []
    ensures IsRun(s, later) && Run(s, later).waiters != []
    decreases s.tasks
  {
    var s1 := Next(s, Enter(0));
    if s.tasks == 0 {
      later := [Enter(0)];
      assert later[1..] == [] && Run(s1, []) == s1;
    } else {
      var rest := ParkSomeone(s1);
      later := [Enter(0)] + rest;
      assert later[1..] == rest;
    }
  }

  /** Whoever is parked on a device queue that the snapshot missed stays parked in every
      continuation in which Close is not called again and nothing is recovered, because the
      flag keeps producers out. */
  lemma {:induction false} ParkedForGood(capacity: nat, steps: seq<Step>, c: nat, later: seq<Step>)
    requires IsRun(Init(capacity), steps)
    requires
      var s := Run(Init(capacity), steps);
      s.flagged && !s.snapped && Quiet(s) && s.admitted == 0 && c in s.waiters
    requires IsRun(Run(Init(capacity), steps), later) && NoRescue(later)
    ensures c in Run(Run(Init(capacity), steps), later).waiters
  {
    RunKeepsInv(Init(capacity), steps);
    StaysParked(Run(Init(capacity), steps), c, later);
  }

  /** Such a consumer exists: its device queue is created after the snapshot. */
  lemma {:induction false} MissedByShutdown(capacity: nat, c: nat) returns (steps: seq<Step>)
    ensures IsRun(Init(capacity), steps)
    ensures
      var s := Run(Init(capacity), steps);
      s.flagged && !s.snapped && Quiet(s) && s.admitted == 0 && s.waiters == [c]
  {
    var s0 := Init(capacity);
    steps := Extend(s0, [], s0, Flag);
    steps := Extend(s0, steps, s0.(flagged := true), Snapshot);
    steps := Extend(s0, steps, s0.(flagged := true), Create);
    steps := Extend(s0, steps, s0.(flagged := true, created := true), Enter(c));
  }

  predicate NoRescue(steps: seq<Step>) {
    forall step | step in steps :: !step.Snapshot? && !step.AppendRecovered?
  }

  lemma {:induction false} StaysParked(s: State, c: nat, steps: seq<Step>)
    requires IsRun(s, steps) && NoRescue(steps)
    requires s.flagged && Quiet(s) && s.admitted == 0 && c in s.waiters && !s.closed && s.tasks == 0
    ensures c in Run(s, steps).waiters
    decreases |steps|
  {
    if steps != [] {
      StaysParked(Next(s, steps[0]), c, steps[1..]);
    }
  }
}
