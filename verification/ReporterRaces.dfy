/** The reporter with concurrent Sends and flushes: every locked section and every write is a
    step of its own. Messages are numbered in the order in which Send is called. */
module ReporterRaces {

  const BUFFER_SIZE := 256

  /** A goroutine in UpdateConn. */
  datatype Flusher =
    | Installed                                // about to take the buffer
    | Took(pending: seq<nat>)                  // about to read the connection
    | PutBack(pending: seq<nat>)               // read no connection
    | Writing(pending: seq<nat>)
    | Rebuffer(failed: nat, pending: seq<nat>) // a write failed
    | Finished

  datatype State = State(
    connected: bool,
    sent: nat,
    started: set<nat>,    // Sends about to read the connection
    writing: set<nat>,    // Sends about to write
    failing: set<nat>,    // Sends about to buffer
    flushers: seq<Flusher>,
    buf: seq<nat>,
    delivered: seq<nat>,
    evicted: seq<nat>)

  const INITIAL := State(false, 0, {}, {}, {}, [], [], [], [])

  datatype Step =
    | Call                    // Send is called with a message
    | Look(m: nat)
    | WriteOk(m: nat)
    | WriteFail(m: nat)
    | Keep(m: nat)            // Send buffers its message
    | Install(conn: bool)     // UpdateConn stores a connection or nil
    | Take(f: nat)
    | FlushLook(f: nat)
    | Return(f: nat)          // buf = append(pending, buf...)
    | FlushOk(f: nat)
    | FlushFail(f: nat)
    | FlushKeep(f: nat)
    | Finish(f: nat)

  predicate Enabled(s: State, step: Step) {
    match step
    case Call => true
    case Look(m) => m in s.started
    case WriteOk(m) => m in s.writing
    case WriteFail(m) => m in s.writing
    case Keep(m) => m in s.failing
    case Install(_) => true
    case Take(f) => f < |s.flushers| && s.flushers[f].Installed?
    case FlushLook(f) => f < |s.flushers| && s.flushers[f].Took?
    case Return(f) => f < |s.flushers| && s.flushers[f].PutBack?
    case FlushOk(f) => f < |s.flushers| && s.flushers[f].Writing? && s.flushers[f].pending != []
    case FlushFail(f) => f < |s.flushers| && s.flushers[f].Writing? && s.flushers[f].pending != []
    case FlushKeep(f) => f < |s.flushers| && s.flushers[f].Rebuffer?
    case Finish(f) => f < |s.flushers| && s.flushers[f].Writing? && s.flushers[f].pending == []
  }

  function Push(s: State, m: nat): State {
    if |s.buf| >= BUFFER_SIZE then s.(buf := s.buf[1..] + [m], evicted := s.evicted + [s.buf[0]])
    else s.(buf := s.buf + [m])
  }

  function Becomes(s: State, f: nat, g: Flusher): State
    requires f < |s.flushers|
  {
    s.(flushers := s.flushers[f := g])
  }

  function Next(s: State, step: Step): State
    requires Enabled(s, step)
  {
    match step
    case Call => s.(sent := s.sent + 1, started := s.started + {s.sent})
    case Look(m) =>
      if s.connected then s.(started := s.started - {m}, writing := s.writing + {m})
      else s.(started := s.started - {m}, failing := s.failing + {m})
    case WriteOk(m) => s.(writing := s.writing - {m}, delivered := s.delivered + [m])
    case WriteFail(m) => s.(writing := s.writing - {m}, failing := s.failing + {m})
    case Keep(m) => Push(s.(failing := s.failing - {m}), m)
    case Install(conn) =>
      if conn then s.(connected := true, flushers := s.flushers + [Installed]) else s.(connected := false)
    case Take(f) =>
      if s.buf == [] then Becomes(s, f, Finished) else Becomes(s.(buf := []), f, Took(s.buf))
    case FlushLook(f) =>
      var p := s.flushers[f].pending;
      Becomes(s, f, if s.connected then Writing(p) else PutBack(p))
    case Return(f) => Becomes(s.(buf := s.flushers[f].pending + s.buf), f, Finished)
    case FlushOk(f) =>
      var p := s.flushers[f].pending;
      Becomes(s.(delivered := s.delivered + [p[0]]), f, Writing(p[1..]))
    case FlushFail(f) =>
      var p := s.flushers[f].pending;
      Becomes(s, f, Rebuffer(p[0], p[1..]))
    case FlushKeep(f) => Becomes(Push(s, s.flushers[f].failed), f, Writing(s.flushers[f].pending))
    case Finish(f) => Becomes(s, f, Finished)
  }

  predicate IsRun(s: State, steps: seq<Step>)
    decreases |steps|
  {
    steps == [] || (Enabled(s, steps[0]) && IsRun(Next(s, steps[0]), steps[1..]))
  }

  function Run(s: State, steps: seq<Step>): State
    requires IsRun(s, steps)
    decreases |steps|
  {
    if steps == [] then s else Run(Next(s, steps[0]), steps[1..])
  }

  // ------------------------------------------------------------- conservation

  function One(b: bool): nat { if b then 1 else 0 }

  /** Occurrences of message `m` in `q`. */
  function Count(q: seq<nat>, m: nat): nat {
    if q == [] then 0 else One(q[0] == m) + Count(q[1..], m)
  }

  function HeldBy(f: Flusher, m: nat): nat {
    match f
    case Took(p) => Count(p, m)
    case PutBack(p) => Count(p, m)
    case Writing(p) => Count(p, m)
    case Rebuffer(failed, p) => One(failed == m) + Count(p, m)
    case _ => 0
  }

  function HeldByAll(fs: seq<Flusher>, m: nat): nat {
    if fs == [] then 0 else HeldBy(fs[0], m) + HeldByAll(fs[1..], m)
  }

  /** Copies of message `m`, wherever they are. */
  function Copies(s: State, m: nat): nat {
    One(m in s.started) + One(m in s.writing) + One(m in s.failing) + HeldByAll(s.flushers, m)
    + Count(s.buf, m) + Count(s.delivered, m) + Count(s.evicted, m)
  }

  lemma {:induction false} CountConcat(a: seq<nat>, b: seq<nat>, m: nat)
    ensures Count(a + b, m) == Count(a, m) + Count(b, m)
  {
    if a == [] {
      assert a + b == b;
    } else {
      CountConcat(a[1..], b, m);
      assert (a + b)[1..] == a[1..] + b;
    }
  }

  lemma {:induction false} CountAppend(a: seq<nat>, x: nat, m: nat)
    ensures Count(a + [x], m) == Count(a, m) + One(x == m)
  {
    CountConcat(a, [x], m);
    assert [x][1..] == [];
  }

  lemma {:induction false} HeldUpdate(fs: seq<Flusher>, f: nat, g: Flusher, m: nat)
    requires f < |fs|
    ensures HeldByAll(fs[f := g], m) + HeldBy(fs[f], m) == HeldByAll(fs, m) + HeldBy(g, m)
  {
    if f == 0 {
      assert fs[f := g][1..] == fs[1..];
    } else {
      HeldUpdate(fs[1..], f - 1, g, m);
      assert fs[f := g][1..] == fs[1..][f - 1 := g];
    }
  }

  lemma {:induction false} HeldAppend(fs: seq<Flusher>, g: Flusher, m: nat)
    ensures HeldByAll(fs + [g], m) == HeldByAll(fs, m) + HeldBy(g, m)
  {
    if fs == [] {
      assert fs + [g] == [g] && [g][1..] == [];
    } else {
      HeldAppend(fs[1..], g, m);
      assert (fs + [g])[1..] == fs[1..] + [g];
    }
  }

  lemma {:induction false} PushKeeps(s: State, x: nat, m: nat)
    ensures
      var s' := Push(s, x);
      Count(s'.buf, m) + Count(s'.evicted, m) == Count(s.buf, m) + Count(s.evicted, m) + One(x == m)
  {
    if |s.buf| >= BUFFER_SIZE {
      CountAppend(s.buf[1..], x, m);
      CountAppend(s.evicted, s.buf[0], m);
    } else {
      CountAppend(s.buf, x, m);
    }
  }

  lemma {:induction false} SenderStep(s: State, step: Step, m: nat)
    requires Enabled(s, step) && Copies(s, m) == One(m < s.sent)
    requires !OfFlusher(step)
    ensures Copies(Next(s, step), m) == One(m < Next(s, step).sent)
  {
    match step
    case WriteOk(x) => CountAppend(s.delivered, x, m);
    case Keep(x) => PushKeeps(s.(failing := s.failing - {x}), x, m);
    case Install(conn) => HeldAppend(s.flushers, Installed, m);
    case _ =>
  }

  /** Copies of `m` around flusher `f`: in its hands and in the shared sequences. */
  function Around(s: State, f: nat, m: nat): nat
    requires f < |s.flushers|
  {
    HeldBy(s.flushers[f], m) + Count(s.buf, m) + Count(s.delivered, m) + Count(s.evicted, m)
  }

  lemma {:induction false} OnlyAround(s: State, s': State, f: nat, m: nat)
    requires f < |s.flushers| && |s'.flushers| == |s.flushers|
    requires s'.flushers == s.flushers[f := s'.flushers[f]]
    requires s'.started == s.started && s'.writing == s.writing && s'.failing == s.failing
    requires Around(s', f, m) == Around(s, f, m)
    ensures Copies(s', m) == Copies(s, m)
  {
    HeldUpdate(s.flushers, f, s'.flushers[f], m);
  }

  predicate OfFlusher(step: Step) {
    step.Take? || step.FlushLook? || step.Return? || step.FlushOk? || step.FlushFail? || step.FlushKeep? || step.Finish?
  }

  lemma {:induction false} FlusherStep(s: State, step: Step, m: nat)
    requires Enabled(s, step) && OfFlusher(step)
    ensures Around(Next(s, step), step.f, m) == Around(s, step.f, m)
  {
    match step
    case Return(f) => CountConcat(s.flushers[f].pending, s.buf, m);
    case FlushOk(f) => CountAppend(s.delivered, s.flushers[f].pending[0], m);
    case FlushKeep(f) => PushKeeps(s, s.flushers[f].failed, m);
    case _ =>
  }

  lemma {:induction false} StepConserves(s: State, step: Step, m: nat)
    requires Enabled(s, step) && Copies(s, m) == One(m < s.sent)
    ensures Copies(Next(s, step), m) == One(m < Next(s, step).sent)
  {
    if OfFlusher(step) {
      FlusherStep(s, step, m);
      OnlyAround(s, Next(s, step), step.f, m);
    } else {
      SenderStep(s, step, m);
    }
  }

  lemma {:induction false} RunConserves(s: State, steps: seq<Step>, m: nat)
    requires IsRun(s, steps) && Copies(s, m) == One(m < s.sent)
    ensures Copies(Run(s, steps), m) == One(m < Run(s, steps).sent)
    decreases |steps|
  {
    if steps != [] {
      StepConserves(s, steps[0], m);
      RunConserves(Next(s, steps[0]), steps[1..], m);
    }
  }

  /** In every interleaving each message that was sent is in exactly one place, once: in a
      sender's hands, in the buffer, in a flusher's hands, delivered, or evicted. */
  lemma {:induction false} ExactlyOnce(steps: seq<Step>, m: nat)
    requires IsRun(INITIAL, steps)
    ensures
      var s := Run(INITIAL, steps);
      One(m in s.started) + One(m in s.writing) + One(m in s.failing) + HeldByAll(s.flushers, m)
      + Count(s.buf, m) + Count(s.delivered, m) + Count(s.evicted, m) == One(m < s.sent)
  {
    RunConserves(INITIAL, steps, m);
  }

  // ------------------------------------------------------------ buffer bound

  /** Only connections are installed, never nil; the agent's wiring keeps to this. */
  predicate NeverNil(steps: seq<Step>) {
    forall step | step in steps :: step.Install? ==> step.conn
  }

  ghost predicate Bounded(s: State) {
    && |s.buf| <= BUFFER_SIZE
    && (forall i | 0 <= i < |s.flushers| :: !s.flushers[i].PutBack?)
    && (s.flushers != [] ==> s.connected)
  }

  lemma {:induction false} RunBounded(s: State, steps: seq<Step>)
    requires IsRun(s, steps) && NeverNil(steps) && Bounded(s)
    ensures Bounded(Run(s, steps))
    decreases |steps|
  {
    if steps != [] {
      RunBounded(Next(s, steps[0]), steps[1..]);
    }
  }

  /** As long as nil is never installed the buffer never exceeds 256 and no flusher ever
      finds the connection missing. */
  lemma {:induction false} BufferBounded(steps: seq<Step>)
    requires IsRun(INITIAL, steps) && NeverNil(steps)
    ensures |Run(INITIAL, steps).buf| <= 256
    ensures forall f | f in Run(INITIAL, steps).flushers :: !f.PutBack?
  {
    RunBounded(INITIAL, steps);
  }

  /** With nil the bound fails: a flusher that took a full buffer and then meets nil puts it
      all back in front of what was buffered meanwhile, so that all 257 messages wait in order. */
  lemma {:induction false} NilOverflows() returns (steps: seq<Step>)
    ensures IsRun(INITIAL, steps) && Run(INITIAL, steps).buf == UpFrom(0, 257)
  {
    steps := FillBuffer(INITIAL, 256);
    var s1 := Run(INITIAL, steps);
    assert s1 == INITIAL.(sent := 256, buf := UpFrom(0, 256));
    var taken := TakenThenNil(s1);
    RunConcat(INITIAL, steps, taken);
    steps := steps + taken;
    assert UpFrom(0, 256) + UpFrom(256, 1) == UpFrom(0, 257);
  }

  /** A flusher takes the buffer, nil is installed, and one more message is buffered before the
      flusher puts everything back. */
  lemma {:induction false} TakenThenNil(s: State) returns (steps: seq<Step>)
    requires !s.connected && s.flushers == [] && s.started == {} && s.failing == {} && s.buf != []
    ensures IsRun(s, steps) && Run(s, steps).buf == s.buf + UpFrom(s.sent, 1)
  {
    var s2 := s.(connected := true, flushers := [Installed]);
    steps := Extend(s, [], s, Install(true));
    steps := Extend(s, steps, s2, Take(0));
    steps := Extend(s, steps, s2.(buf := [], flushers := [Took(s.buf)]), Install(false));
    var s4 := s.(buf := [], flushers := [Took(s.buf)]);
    var more := FillBuffer(s4, 1);
    RunConcat(s, steps, more);
    steps := steps + more;
    var s5 := s4.(sent := s.sent + 1, buf := UpFrom(s.sent, 1));
    steps := Extend(s, steps, s5, FlushLook(0));
    steps := Extend(s, steps, s5.(flushers := [PutBack(s.buf)]), Return(0));
  }

  lemma Extend(s0: State, steps: seq<Step>, s: State, step: Step) returns (longer: seq<Step>)
    requires IsRun(s0, steps) && Run(s0, steps) == s && Enabled(s, step)
    ensures IsRun(s0, longer) && Run(s0, longer) == Next(s, step)
  {
    longer := steps + [step];
    RunConcat(s0, steps, [step]);
  }

  function UpFrom(first: nat, n: nat): seq<nat> {
    seq(n, i => first + i)
  }

  /** `n` Sends without a connection. */
  lemma {:induction false} FillBuffer(s: State, n: nat) returns (steps: seq<Step>)
    requires !s.connected && |s.buf| + n <= BUFFER_SIZE
    requires s.started == {} && s.failing == {}
    ensures IsRun(s, steps)
    ensures var s' := Run(s, steps);
            s' == s.(sent := s.sent + n, buf := s.buf + UpFrom(s.sent, n))
    decreases n
  {
    if n == 0 {
      steps := [];
      assert s.buf + UpFrom(s.sent, 0) == s.buf;
    } else {
      var m := s.sent;
      var s1 := Next(s, Call);
      var s2 := Next(s1, Look(m));
      var s3 := Next(s2, Keep(m));
      assert s3 == s.(sent := m + 1, buf := s.buf + [m]);
      assert [m] + UpFrom(m + 1, n - 1) == UpFrom(m, n);
      assert s.buf + [m] + UpFrom(m + 1, n - 1) == s.buf + UpFrom(m, n);
      var first := [Call, Look(m), Keep(m)];
      assert first[1..] == [Look(m), Keep(m)] && first[1..][1..] == [Keep(m)] && first[1..][1..][1..] == [];
      assert IsRun(s2, [Keep(m)]) && Run(s2, [Keep(m)]) == s3;
      assert IsRun(s1, first[1..]) && Run(s1, first[1..]) == s3;
      assert IsRun(s, first) && Run(s, first) == s3;
      var rest := FillBuffer(s3, n - 1);
      RunConcat(s, first, rest);
      steps := first + rest;
    }
  }

  lemma {:induction false} RunConcat(s: State, a: seq<Step>, b: seq<Step>)
    requires IsRun(s, a) && IsRun(Run(s, a), b)
    ensures IsRun(s, a + b) && Run(s, a + b) == Run(Run(s, a), b)
    decreases |a|
  {
    if a == [] {
      assert a + b == b;
    } else {
      assert (a + b)[1..] == a[1..] + b;
      RunConcat(Next(s, a[0]), a[1..], b);
    }
  }

  // --------------------------------------------------------------------- order

  lemma ThereAndBack(a: set<nat>, m: nat)
    requires m !in a
    ensures a + {m} - {m} == a
  {
  }

  /** A Send on a connection that takes the message leaves the buffer alone. */
  lemma {:induction false} DirectSend(s: State) returns (steps: seq<Step>)
    requires s.connected && s.sent !in s.started + s.writing + s.failing
    ensures IsRun(s, steps)
    ensures Run(s, steps) == s.(sent := s.sent + 1, delivered := s.delivered + [s.sent])
  {
    var m := s.sent;
    var s1 := Next(s, Call);
    var s2 := Next(s1, Look(m));
    var s3 := Next(s2, WriteOk(m));
    ThereAndBack(s.started, m);
    ThereAndBack(s.writing, m);
    steps := [Call, Look(m), WriteOk(m)];
    assert steps[1..] == [Look(m), WriteOk(m)] && steps[1..][1..] == [WriteOk(m)] && steps[1..][1..][1..] == [];
    assert IsRun(s2, [WriteOk(m)]) && Run(s2, [WriteOk(m)]) == s3;
    assert IsRun(s1, steps[1..]) && Run(s1, steps[1..]) == s3;
  }

  /** The messages that a step, or a run, puts at the end of the buffer. */
  function KeptBy(s: State, step: Step): seq<nat>
    requires Enabled(s, step)
  {
    match step
    case Keep(m) => [m]
    case FlushKeep(f) => [s.flushers[f].failed]
    case _ => []
  }

  function Kept(s: State, steps: seq<Step>): seq<nat>
    requires IsRun(s, steps)
    decreases |steps|
  {
    if steps == [] then [] else KeptBy(s, steps[0]) + Kept(Next(s, steps[0]), steps[1..])
  }

  predicate Queues(s: State, t: State, kept: seq<nat>) {
    && t.evicted + t.buf == s.evicted + s.buf + kept
    && |t.buf| >= |s.buf| && (|t.evicted| > |s.evicted| ==> |t.buf| >= 256)
  }

  lemma PushQueues(s: State, m: nat)
    ensures Queues(s, Push(s, m), [m])
  {
    if |s.buf| >= BUFFER_SIZE {
      assert s.buf == [s.buf[0]] + s.buf[1..];
    }
  }

  lemma {:induction false} StepQueues(s: State, step: Step)
    requires Enabled(s, step) && !step.Take? && !step.Return?
    ensures Queues(s, Next(s, step), KeptBy(s, step))
  {
    if step.Keep? {
      PushQueues(s.(failing := s.failing - {step.m}), step.m);
    } else if step.FlushKeep? {
      PushQueues(s, s.flushers[step.f].failed);
    }
  }

  lemma QueuesFurther(s: State, t: State, u: State, a: seq<nat>, b: seq<nat>)
    requires Queues(s, t, a) && Queues(t, u, b)
    ensures Queues(s, u, a + b)
  {
    assert s.evicted + s.buf + a + b == s.evicted + s.buf + (a + b);
    assert |t.evicted| + |t.buf| == |s.evicted| + |s.buf| + |a|;
  }

  /** Between two flushes the buffer is a queue that loses its oldest messages, and it loses one
      only when it is full. */
  lemma {:induction false} BufferIsQueue(s: State, steps: seq<Step>)
    requires IsRun(s, steps) && forall step | step in steps :: !step.Take? && !step.Return?
    ensures
      var t := Run(s, steps);
      && t.evicted + t.buf == s.evicted + s.buf + Kept(s, steps)
      && |t.buf| >= |s.buf| && (|t.evicted| > |s.evicted| ==> |t.buf| >= 256)
    decreases |steps|
  {
    hide Next, Enabled, KeptBy;
    if steps != [] {
      var t := Next(s, steps[0]);
      StepQueues(s, steps[0]);
      BufferIsQueue(t, steps[1..]);
      QueuesFurther(s, t, Run(s, steps), KeptBy(s, steps[0]), Kept(t, steps[1..]));
    }
  }

  function Pending(f: Flusher): seq<nat> {
    match f
    case Took(p) => p
    case PutBack(p) => p
    case Writing(p) => p
    case Rebuffer(_, p) => p
    case _ => []
  }

  lemma PushOnly(s: State, m: nat)
    ensures Push(s, m).flushers == s.flushers
  {
  }

  /** `f` has taken the buffer, and what it has not tried yet in `t` is the end of that in `s`. */
  predicate Rest(s: State, t: State, f: nat) {
    && f < |s.flushers| && f < |t.flushers| && !t.flushers[f].Installed?
    && var p, q := Pending(s.flushers[f]), Pending(t.flushers[f]);
       |q| <= |p| && q == p[|p| - |q|..]
  }

  lemma {:induction false} OtherStepRest(s: State, step: Step, f: nat)
    requires Enabled(s, step) && f < |s.flushers| && !(OfFlusher(step) && step.f == f)
    ensures f < |Next(s, step).flushers| && Next(s, step).flushers[f] == s.flushers[f]
  {
    match step
    case Keep(m) => PushOnly(s.(failing := s.failing - {m}), m);
    case FlushKeep(g) => PushOnly(s, s.flushers[g].failed);
    case _ =>
  }

  lemma {:induction false} OwnStepRest(s: State, step: Step)
    requires Enabled(s, step) && OfFlusher(step) && !step.Take?
    ensures Rest(s, Next(s, step), step.f)
  {
    if step.FlushKeep? {
      PushOnly(s, s.flushers[step.f].failed);
    }
  }

  lemma TakesOnce(s: State, step: Step)
    requires Enabled(s, step) && OfFlusher(step) && !s.flushers[step.f].Installed?
    ensures !step.Take?
  {
  }

  /** What a flusher has not tried yet is the rest of what it had, so it writes in order. */
  lemma {:induction false} FlusherKeepsOrder(s: State, f: nat, steps: seq<Step>)
    requires f < |s.flushers| && !s.flushers[f].Installed? && IsRun(s, steps)
    ensures Rest(s, Run(s, steps), f)
    decreases |steps|
  {
    hide Next, Enabled, Pending;
    if steps != [] {
      if OfFlusher(steps[0]) && steps[0].f == f {
        TakesOnce(s, steps[0]);
        OwnStepRest(s, steps[0]);
      } else {
        OtherStepRest(s, steps[0], f);
      }
      FlusherKeepsOrder(Next(s, steps[0]), f, steps[1..]);
    }
  }
}
