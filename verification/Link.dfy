/** Heartbeat and reconnection: misses spawn disconnect handlers, and at most one reconnect
    loop may be alive, whatever the interleaving. Stop is not part of these runs. */
module Link {
  import opened Basics
  import Backoff

  const MISS_THRESHOLD := 3

  // ------------------------------------------------------------------- heartbeat

  /** What moves the miss counter: a missed beat, or a success or a new connection. */
  datatype Beat = Missed | Reset

  class Heartbeat {
    var missCount: nat
    var losses: nat            // calls of the loss handler
    ghost var beats: seq<Beat>

    ghost predicate Valid()
      reads this
    {
      missCount == Streak(beats) && losses == Losses(beats)
    }

    constructor ()
      ensures Valid() && beats == []
    {
      missCount, losses, beats := 0, 0, [];
    }

    /** recordMiss: the handler is called on the third miss in a row and on every later one. */
    method RecordMiss()
      requires Valid()
      modifies this
      ensures Valid() && beats == old(beats) + [Missed]
      ensures losses == old(losses) + if LostAt(beats, |beats| - 1) then 1 else 0
    {
      missCount := missCount + 1;
      if missCount >= MISS_THRESHOLD {
        losses := losses + 1;
      }
      Appended(beats, Missed);
      beats := beats + [Missed];
    }

    /** UpdateConn, and the end of a successful sendOnce. */
    method ResetCount()
      requires Valid()
      modifies this
      ensures Valid() && beats == old(beats) + [Reset] && losses == old(losses)
    {
      missCount := 0;
      Appended(beats, Reset);
      beats := beats + [Reset];
    }

    /** sendOnce, by outcome: no connection, envelope or write failed, or sent. */
    method SendOnce(connected: bool, marshalled: bool, written: bool)
      requires Valid()
      modifies this
      ensures Valid()
      ensures beats == old(beats) + [if connected && marshalled && written then Reset else Missed]
    {
      if !connected {
        RecordMiss();
        return;
      }
      if !marshalled {
        RecordMiss();
        return;
      }
      if !written {
        RecordMiss();
        return;
      }
      ResetCount();
    }
  }

  /** Misses since the last reset. */
  function Streak(bs: seq<Beat>): nat {
    if bs == [] || bs[|bs| - 1].Reset? then 0 else 1 + Streak(bs[..|bs| - 1])
  }

  /** Beat `i` is the third or a later miss of an unbroken streak. */
  predicate LostAt(bs: seq<Beat>, i: int) {
    2 <= i < |bs| && bs[i].Missed? && bs[i - 1].Missed? && bs[i - 2].Missed?
  }

  function Losses(bs: seq<Beat>): nat {
    if bs == [] then 0
    else Losses(bs[..|bs| - 1]) + if LostAt(bs, |bs| - 1) then 1 else 0
  }

  lemma Unsnoc(bs: seq<Beat>, b: Beat)
    ensures (bs + [b])[..|bs + [b]| - 1] == bs
  {
  }

  lemma {:induction false} StreakMeans(bs: seq<Beat>)
    ensures Streak(bs) >= MISS_THRESHOLD <==> LostAt(bs, |bs| - 1)
    ensures Streak(bs) >= 2 <==> |bs| >= 2 && bs[|bs| - 1].Missed? && bs[|bs| - 2].Missed?
    ensures Streak(bs) >= 1 <==> |bs| >= 1 && bs[|bs| - 1].Missed?
  {
    if bs != [] {
      StreakMeans(bs[..|bs| - 1]);
    }
  }

  /** What one more beat does to the counter and to the losses. */
  lemma {:induction false} Appended(bs: seq<Beat>, b: Beat)
    ensures Streak(bs + [b]) == if b.Missed? then Streak(bs) + 1 else 0
    ensures LostAt(bs + [b], |bs|) <==> b.Missed? && Streak(bs) + 1 >= MISS_THRESHOLD
    ensures Losses(bs + [b]) == Losses(bs) + if b.Missed? && Streak(bs) + 1 >= MISS_THRESHOLD then 1 else 0
  {
  }

  // ------------------------------------------------------------- the interleaving

  datatype Kind = LocalWait | BackoffLoop

  datatype Phase =
    | Waiting     // for the ticker or the delay
    | Attempting  // inside the reconnect callback
    | Connected   // the callback succeeded, the flag is not cleared yet

  datatype Loop = Loop(kind: Kind, phase: Phase)

  datatype State = State(
    beats: seq<Beat>,   // history of the heartbeat counter
    handlers: nat,      // handlers spawned and not yet past the test of the flag
    running: bool,
    loops: seq<Loop>,   // reconnect loops alive
    abandoned: nat)     // history: local-recovery loops that ended on a failed attempt

  const INITIAL := State([], 0, false, [], 0)

  datatype Step =
    | Miss                        // recordMiss
    | Success                     // a heartbeat went through, or the domain switch connected
    | Handle(kind: Kind)          // HandleDisconnect classifies and tests the flag
    | Attempt(i: nat)
    | AttemptOk(i: nat)           // connect succeeded; it resets the miss counter
    | AttemptFail(i: nat)
    | Clear(i: nat)               // tryReconnect clears the flag and the loop returns

  predicate Enabled(s: State, step: Step) {
    match step
    case Miss => true
    case Success => true
    case Handle(_) => s.handlers > 0
    case Attempt(i) => i < |s.loops| && s.loops[i].phase.Waiting?
    case AttemptOk(i) => i < |s.loops| && s.loops[i].phase.Attempting?
    case AttemptFail(i) => i < |s.loops| && s.loops[i].phase.Attempting?
    case Clear(i) => i < |s.loops| && s.loops[i].phase.Connected?
  }

  function Without(loops: seq<Loop>, i: nat): seq<Loop>
    requires i < |loops|
  {
    loops[..i] + loops[i + 1..]
  }

  function Next(s: State, step: Step): State
    requires Enabled(s, step)
  {
    match step
    case Miss =>
      var beats := s.beats + [Missed];
      s.(beats := beats, handlers := s.handlers + if Streak(beats) >= MISS_THRESHOLD then 1 else 0)
    case Success => s.(beats := s.beats + [Reset])
    case Handle(kind) =>
      var s1 := s.(handlers := s.handlers - 1);
      if s.running then s1 else s1.(running := true, loops := s.loops + [Loop(kind, Waiting)])
    case Attempt(i) => s.(loops := s.loops[i := s.loops[i].(phase := Attempting)])
    case AttemptOk(i) => s.(loops := s.loops[i := s.loops[i].(phase := Connected)], beats := s.beats + [Reset])
    case AttemptFail(i) =>
      if s.loops[i].kind.BackoffLoop? then s.(loops := s.loops[i := s.loops[i].(phase := Waiting)])
      else s.(loops := Without(s.loops, i), abandoned := s.abandoned + 1)
    case Clear(i) => s.(running := false, loops := Without(s.loops, i))
  }

  predicate IsRun(s: State, steps: seq<Step>)
    decreases |steps|
  {
    steps == [] || (Enabled(s, steps[0]) && IsRun(Next(s, steps[0]), steps[1..]))
  }

  function Run(s: State, steps: seq<Step>): State
    requires IsRun(s, steps)
    decreases |steps|
  {
    if steps == [] then s else Run(Next(s, steps[0]), steps[1..])
  }

  predicate Inv(s: State) {
    && |s.loops| <= 1
    && (s.loops != [] ==> s.running && s.abandoned == 0)
    && (s.running && s.loops == [] <==> s.abandoned > 0)
    && s.abandoned <= 1
  }

  lemma {:induction false} StepKeepsInv(s: State, step: Step)
    requires Inv(s) && Enabled(s, step)
    ensures Inv(Next(s, step))
  {
  }

  lemma {:induction false} RunKeepsInv(s: State, steps: seq<Step>)
    requires Inv(s) && IsRun(s, steps)
    ensures Inv(Run(s, steps))
    decreases |steps|
  {
    if steps != [] {
      StepKeepsInv(s, steps[0]);
      RunKeepsInv(Next(s, steps[0]), steps[1..]);
    }
  }

  /** Single flight: in every run at most one loop that can still attempt a reconnect is
      alive, and none while the flag is clear. */
  lemma {:induction false} SingleFlight(steps: seq<Step>)
    requires IsRun(INITIAL, steps)
    ensures |Run(INITIAL, steps).loops| <= 1
    ensures !Run(INITIAL, steps).running ==> Run(INITIAL, steps).loops == []
  {
    RunKeepsInv(INITIAL, steps);
  }

  /** The other direction fails in exactly one way: the flag is set with no loop alive if and
      only if a local-recovery loop ended on a failed attempt. */
  lemma {:induction false} FlagWithoutLoopIff(steps: seq<Step>)
    requires IsRun(INITIAL, steps)
    ensures var s := Run(INITIAL, steps);
            s.running && s.loops == [] <==> s.abandoned > 0
  {
    RunKeepsInv(INITIAL, steps);
  }

  /** And that state is final: no number of lost heartbeats starts a loop again. */
  lemma {:induction false} AbandonedForGood(s: State, steps: seq<Step>)
    requires s.running && s.loops == [] && IsRun(s, steps)
    ensures Run(s, steps).running && Run(s, steps).loops == []
    decreases |steps|
  {
    if steps != [] {
      AbandonedForGood(Next(s, steps[0]), steps[1..]);
    }
  }

  /** It is reachable: three misses, a local outage, one attempt that fails. */
  lemma {:induction false} AbandonReachable() returns (steps: seq<Step>)
    ensures IsRun(INITIAL, steps) && Run(INITIAL, steps).abandoned == 1
  {
    var s1 := Next(INITIAL, Miss);
    Unsnoc([], Missed);
    assert Streak(s1.beats) == 1;
    var s2 := Next(s1, Miss);
    Unsnoc(s1.beats, Missed);
    assert Streak(s2.beats) == 2;
    var s3 := Next(s2, Miss);
    Unsnoc(s2.beats, Missed);
    assert s3.handlers == 1 && s3.loops == [] && !s3.running;
    steps := Extend(INITIAL, [], INITIAL, Miss);
    steps := Extend(INITIAL, steps, s1, Miss);
    steps := Extend(INITIAL, steps, s2, Miss);
    var s4 := s3.(handlers := 0, running := true, loops := [Loop(LocalWait, Waiting)]);
    steps := Extend(INITIAL, steps, s3, Handle(LocalWait));
    steps := Extend(INITIAL, steps, s4, Attempt(0));
    steps := Extend(INITIAL, steps, s4.(loops := [Loop(LocalWait, Attempting)]), AttemptFail(0));
  }

  lemma {:induction false} Extend(s0: State, steps: seq<Step>, s: State, step: Step) returns (longer: seq<Step>)
    requires IsRun(s0, steps) && Run(s0, steps) == s && Enabled(s, step)
    ensures IsRun(s0, longer) && Run(s0, longer) == Next(s, step)
  {
    longer := steps + [step];
    RunConcat(s0, steps, [step]);
  }

  lemma {:induction false} RunConcat(s: State, a: seq<Step>, b: seq<Step>)
    requires IsRun(s, a) && IsRun(Run(s, a), b)
    ensures IsRun(s, a + b) && Run(s, a + b) == Run(Run(s, a), b)
    decreases |a|
  {
    if a == [] {
      assert a + b == b;
    } else {
      assert (a + b)[1..] == a[1..] + b;
      RunConcat(Next(s, a[0]), a[1..], b);
    }
  }

  /** Only local-recovery loops give up: if no disconnect was classified as a local failure, every
      loop went on until it was connected. */
  lemma {:induction false} OnlyLocalLoopsGiveUp(steps: seq<Step>)
    requires IsRun(INITIAL, steps) && Handle(LocalWait) !in steps
    ensures
      var s := Run(INITIAL, steps);
      && s.abandoned == 0 && (s.running <==> s.loops != [])
      && forall i :: 0 <= i < |s.loops| ==> s.loops[i].kind.BackoffLoop?
    decreases |steps|
  {
    RunKeepsInv(INITIAL, steps);
    if steps != [] {
      var n := |steps| - 1;
      RunSplit(INITIAL, steps);
      OnlyLocalLoopsGiveUp(steps[..n]);
      assert steps[n] in steps;
    }
  }

  /** Missed heartbeats since the last success, reconnection or domain switch. */
  function Since(steps: seq<Step>): nat {
    if steps == [] then 0
    else
      var earlier := steps[..|steps| - 1];
      match steps[|steps| - 1]
      case Miss => Since(earlier) + 1
      case Success => 0
      case AttemptOk(_) => 0
      case _ => Since(earlier)
  }

  /** The counter counts exactly those, and a handler is spawned for each from the third on. */
  lemma {:induction false} CounterFollowsRun(steps: seq<Step>)
    requires IsRun(INITIAL, steps)
    ensures Streak(Run(INITIAL, steps).beats) == Since(steps)
    ensures steps != [] && steps[|steps| - 1].Miss? ==>
      IsRun(INITIAL, steps[..|steps| - 1]) &&
      Run(INITIAL, steps).handlers ==
        Run(INITIAL, steps[..|steps| - 1]).handlers + if Since(steps) >= 3 then 1 else 0
    decreases |steps|
  {
    if steps != [] {
      var n := |steps| - 1;
      RunSplit(INITIAL, steps);
      CounterFollowsRun(steps[..n]);
      var s := Run(INITIAL, steps[..n]);
      Appended(s.beats, Missed);
      Appended(s.beats, Reset);
    }
  }

  // ------------------------------------------------------------- loss handlers

  function Handled(steps: seq<Step>): nat {
    if steps == [] then 0 else Handled(steps[..|steps| - 1]) + if steps[|steps| - 1].Handle? then 1 else 0
  }

  lemma {:induction false} StepCounts(s: State, step: Step)
    requires Enabled(s, step)
    ensures
      var t := Next(s, step);
      t.handlers + (if step.Handle? then 1 else 0) - s.handlers == Losses(t.beats) - Losses(s.beats)
  {
    match step
    case Miss => Appended(s.beats, Missed);
    case Success => Appended(s.beats, Reset);
    case Handle(_) =>
    case Attempt(_) =>
    case AttemptOk(_) => Appended(s.beats, Reset);
    case AttemptFail(_) =>
    case Clear(_) =>
  }

  /** In every run the loss handler is spawned exactly once for each miss that is the third
      or a later one of an unbroken streak: those handled plus those still to be handled. */
  lemma {:induction false} HandlersSpawned(steps: seq<Step>)
    requires IsRun(INITIAL, steps)
    ensures Run(INITIAL, steps).handlers + Handled(steps) == Losses(Run(INITIAL, steps).beats)
    decreases |steps|
  {
    if steps != [] {
      var n := |steps| - 1;
      RunSplit(INITIAL, steps);
      HandlersSpawned(steps[..n]);
      StepCounts(Run(INITIAL, steps[..n]), steps[n]);
    }
  }

  lemma {:induction false} RunSplit(s: State, steps: seq<Step>)
    requires steps != [] && IsRun(s, steps)
    ensures
      var n := |steps| - 1;
      && IsRun(s, steps[..n]) && Enabled(Run(s, steps[..n]), steps[n])
      && Run(s, steps) == Next(Run(s, steps[..n]), steps[n])
    decreases |steps|
  {
    var n := |steps| - 1;
    if n > 0 {
      RunSplit(Next(s, steps[0]), steps[1..]);
      assert steps[1..][..n - 1] == steps[..n][1..];
    }
  }

  // ----------------------------------------------------------------- the object

  /** The fields of Reconnect, with its critical sections tied to the steps of the machine. */
  class Reconnect {
    var attempt: nat
    var running: bool
    ghost var state: State

    ghost predicate Valid()
      reads this
    {
      running == state.running && Inv(state)
    }

    constructor ()
      ensures Valid() && attempt == 0 && state == INITIAL
    {
      attempt, running, state := 0, false, INITIAL;
    }

    /** HandleDisconnect up to the start of a loop: the test-and-set that both loops begin with. */
    method HandleDisconnect(kind: Kind) returns (starts: bool)
      requires Valid() && state.handlers > 0
      modifies this
      ensures Valid() && state == Next(old(state), Handle(kind)) && attempt == old(attempt)
      ensures starts <==> |state.loops| == |old(state).loops| + 1
    {
      StepKeepsInv(state, Handle(kind));
      state := Next(state, Handle(kind));
      if running {
        return false;
      }
      running := true;
      return true;
    }

    /** nextDelay. `converted` is what the conversion of the power to an int64 yields where Go
        leaves it undefined, from the 64th failure in a row on. */
    method NextDelay(converted: Int64) returns (delay: int)
      requires Valid()
      modifies this`attempt
      ensures attempt == old(attempt) + 1 && delay <= Backoff.MAX_DELAY
      ensures attempt <= 63 ==> delay == Backoff.Delay(attempt)
      ensures attempt <= 31 ==> delay == Backoff.Ideal(attempt)
    {
      attempt := attempt + 1;
      delay := Wrap64(Backoff.INIT_DELAY * if attempt <= 63 then Pow2(attempt - 1) else converted);
      if delay > Backoff.MAX_DELAY {
        delay := Backoff.MAX_DELAY;
      }
      if attempt <= 63 {
        Backoff.DelayIsIdealIff(attempt);
      }
    }

    /** tryReconnect of loop `i`, by the outcome of the reconnect callback. */
    method TryReconnect(i: nat, connected: bool) returns (ok: bool)
      requires Valid() && Enabled(state, AttemptOk(i))
      modifies this
      ensures Valid() && ok == connected
      ensures state == if ok then Next(Next(old(state), AttemptOk(i)), Clear(i)) else Next(old(state), AttemptFail(i))
      ensures if ok then attempt == 0 && !running else attempt == old(attempt) && running == old(running)
    {
      if !connected {
        StepKeepsInv(state, AttemptFail(i));
        state := Next(state, AttemptFail(i));
        return false;
      }
      StepKeepsInv(state, AttemptOk(i));
      state := Next(state, AttemptOk(i));
      StepKeepsInv(state, Clear(i));
      state := Next(state, Clear(i));
      attempt, running := 0, false;
      return true;
    }
  }
}
