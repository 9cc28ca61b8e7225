/** The print pipeline as an interleaving of atomic steps: producers that append to and
    cancel from per-device queues, one consumer goroutine per device, a bounded channel
    shared by all devices, a fixed set of workers, and shutdown. */
module Pipeline {
  import opened Tasks

  /** An accepted task. `uid` is its position in its device's acceptance order, so that
      two tasks with equal fields stay distinct. */
  datatype Entry = Entry(uid: nat, task: Task)

  /** Program counter of a device's consumer goroutine. */
  datatype Consumer =
    | NotStarted
    | Checking                // about to test the context
    | Dequeuing               // inside Dequeue, running or waiting on the condition
    | Holding(entry: Entry)   // dequeued, blocked in the channel select
    | Dropped(entry: Entry)   // left through the context branch of that select
    | Exited

  datatype Device = Device(
    accepted: seq<Entry>,     // history: everything appended to the queue
    cancelled: set<nat>,      // history: uids removed by a successful Cancel
    queue: seq<Entry>,
    closed: bool,
    consumer: Consumer,
    received: seq<Entry>)     // history: what workers took from the channel

  const FRESH_DEVICE := Device([], {}, [], false, NotStarted, [])

  datatype State = State(
    devices: map<string, Device>,
    channel: seq<Entry>,
    running: map<nat, Entry>, // busy workers
    quit: set<nat>,           // workers that saw the cancelled context
    stopped: bool,            // the context is cancelled
    capacity: nat,
    workers: nat)
  {
    function At(d: string): Device {
      if d in devices then devices[d] else FRESH_DEVICE
    }

    function With(d: string, dev: Device): State {
      this.(devices := devices[d := dev])
    }
  }

  const DEFAULT_CAPACITY := 100
  const DEFAULT_WORKERS := 5

  function Init(capacity: int, workerCount: int): State {
    State(map[], [], map[], {}, false,
          if capacity <= 0 then DEFAULT_CAPACITY else capacity,
          if workerCount <= 0 then DEFAULT_WORKERS else workerCount)
  }

  datatype Step =
    | Accept(task: Task)               // locked section of Enqueue or of enqueueRecovered
    | Cancel(d: string, taskId: string)
    | CloseQueue(d: string)
    | Stop
    | Launch(d: string)
    | Check(d: string)
    | Take(d: string)
    | Send(d: string)
    | Drop(d: string)
    | Receive(w: nat)
    | Finish(w: nat)
    | Quit(w: nat)

  /** Index of the first entry with the given task id, or the length. */
  function FirstIndex(q: seq<Entry>, taskId: string): (i: nat)
    ensures i <= |q|
    ensures i < |q| ==> q[i].task.taskId == taskId
    ensures forall j | 0 <= j < i :: q[j].task.taskId != taskId
  {
    if q == [] || q[0].task.taskId == taskId then 0 else 1 + FirstIndex(q[1..], taskId)
  }

  predicate Enabled(s: State, step: Step) {
    match step
    case Accept(t) => !s.At(t.deviceId).closed && |s.At(t.deviceId).queue| < s.capacity
    case Cancel(d, id) =>
      var q := s.At(d).queue;
      var i := FirstIndex(q, id);
      i < |q| && q[i].task.status.Pending?
    case CloseQueue(d) => true
    case Stop => true
    case Launch(d) => s.At(d).consumer.NotStarted?
    case Check(d) => s.At(d).consumer.Checking?
    case Take(d) => s.At(d).consumer.Dequeuing? && (s.At(d).closed || s.At(d).queue != [])
    case Send(d) => s.At(d).consumer.Holding? && |s.channel| < s.workers
    case Drop(d) => s.At(d).consumer.Holding? && s.stopped
    case Receive(w) => w < s.workers && w !in s.running && w !in s.quit && s.channel != []
    case Finish(w) => w in s.running
    case Quit(w) => w < s.workers && w !in s.running && s.stopped
  }

  function Next(s: State, step: Step): State
    requires Enabled(s, step)
  {
    match step
    case Accept(t) =>
      var dev := s.At(t.deviceId);
      var e := Entry(|dev.accepted|, t);
      s.With(t.deviceId, dev.(accepted := dev.accepted + [e], queue := dev.queue + [e]))
    case Cancel(d, id) =>
      var dev := s.At(d);
      var i := FirstIndex(dev.queue, id);
      s.With(d, dev.(cancelled := dev.cancelled + {dev.queue[i].uid},
                     queue := dev.queue[..i] + dev.queue[i + 1..]))
    case CloseQueue(d) => s.With(d, s.At(d).(closed := true))
    case Stop => s.(stopped := true)
    case Launch(d) => s.With(d, s.At(d).(consumer := Checking))
    case Check(d) => s.With(d, s.At(d).(consumer := if s.stopped then Exited else Dequeuing))
    case Take(d) =>
      var dev := s.At(d);
      s.With(d, if dev.closed then dev.(consumer := Exited)
                else dev.(consumer := Holding(dev.queue[0]), queue := dev.queue[1..]))
    case Send(d) =>
      var dev := s.At(d);
      s.(channel := s.channel + [dev.consumer.entry]).With(d, dev.(consumer := Checking))
    case Drop(d) =>
      var dev := s.At(d);
      s.With(d, dev.(consumer := Dropped(dev.consumer.entry)))
    case Receive(w) =>
      var e := s.channel[0];
      var d := e.task.deviceId;
      s.(channel := s.channel[1..], running := s.running[w := e])
      .With(d, s.At(d).(received := s.At(d).received + [e]))
    case Finish(w) => s.(running := s.running - {w})
    case Quit(w) => s.(quit := s.quit + {w})
  }

  predicate IsRun(s: State, steps: seq<Step>)
    decreases |steps|
  {
    steps == [] || (Enabled(s, steps[0]) && IsRun(Next(s, steps[0]), steps[1..]))
  }

  function Run(s: State, steps: seq<Step>): State
    requires IsRun(s, steps)
    decreases |steps|
  {
    if steps == [] then s else Run(Next(s, steps[0]), steps[1..])
  }

  // ---------------------------------------------------------------- conservation

  /** The accepted entries that were not cancelled, in acceptance order. */
  function Live(accepted: seq<Entry>, cancelled: set<nat>): seq<Entry> {
    if accepted == [] then []
    else
      var rest := Live(accepted[..|accepted| - 1], cancelled);
      var last := accepted[|accepted| - 1];
      if last.uid in cancelled then rest else rest + [last]
  }

  /** The entries of device `d` in the shared channel, in channel order. */
  function Of(channel: seq<Entry>, d: string): seq<Entry> {
    if channel == [] then []
    else if channel[0].task.deviceId == d then [channel[0]] + Of(channel[1..], d)
    else Of(channel[1..], d)
  }

  function Hand(c: Consumer): seq<Entry> {
    if c.Holding? || c.Dropped? then [c.entry] else []
  }

  /** What a device's entries look like read from the workers back to the queue. */
  function InFlight(s: State, d: string): seq<Entry> {
    var dev := s.At(d);
    dev.received + Of(s.channel, d) + Hand(dev.consumer) + dev.queue
  }

  ghost predicate Increasing(es: seq<Entry>) {
    forall i, j | 0 <= i < j < |es| :: es[i].uid < es[j].uid
  }

  ghost predicate Conserved(s: State, d: string) {
    Live(s.At(d).accepted, s.At(d).cancelled) == InFlight(s, d)
  }

  ghost predicate Numbered(dev: Device, d: string) {
    && (forall i | 0 <= i < |dev.accepted| ::
          dev.accepted[i].uid == i && dev.accepted[i].task.deviceId == d)
    && (forall u | u in dev.cancelled :: u < |dev.accepted|)
  }

  ghost predicate Inv(s: State) {
    && (forall d {:trigger s.At(d)} :: Numbered(s.At(d), d) && Conserved(s, d))
    && |s.channel| <= s.workers
    && (forall w | w in s.running :: w < s.workers)
  }

  lemma {:induction false} LiveProperties(accepted: seq<Entry>, cancelled: set<nat>, d: string)
    requires forall i | 0 <= i < |accepted| :: accepted[i].uid == i && accepted[i].task.deviceId == d
    ensures Increasing(Live(accepted, cancelled))
    ensures forall e :: e in Live(accepted, cancelled) <==> e in accepted && e.uid !in cancelled
  {
    if accepted != [] {
      var init := accepted[..|accepted| - 1];
      LiveProperties(init, cancelled, d);
      assert accepted == init + [accepted[|accepted| - 1]];
    }
  }

  lemma {:induction false} OfConcat(a: seq<Entry>, b: seq<Entry>, d: string)
    ensures Of(a + b, d) == Of(a, d) + Of(b, d)
  {
    if a == [] {
      assert a + b == b;
    } else {
      OfConcat(a[1..], b, d);
      assert (a + b)[1..] == a[1..] + b;
    }
  }

  /** `es` with the entries numbered `u` removed. */
  function Without(es: seq<Entry>, u: nat): seq<Entry> {
    if es == [] then []
    else
      var rest := Without(es[..|es| - 1], u);
      if es[|es| - 1].uid == u then rest else rest + [es[|es| - 1]]
  }

  lemma {:induction false} LiveWithout(accepted: seq<Entry>, cancelled: set<nat>, u: nat)
    ensures Live(accepted, cancelled + {u}) == Without(Live(accepted, cancelled), u)
  {
    if accepted != [] {
      var init, last := accepted[..|accepted| - 1], accepted[|accepted| - 1];
      LiveWithout(init, cancelled, u);
      assert (Live(init, cancelled) + [last])[..|Live(init, cancelled)|] == Live(init, cancelled);
    }
  }

  lemma {:induction false} WithoutConcat(a: seq<Entry>, b: seq<Entry>, u: nat)
    ensures Without(a + b, u) == Without(a, u) + Without(b, u)
    decreases |b|
  {
    if b == [] {
      assert a + b == a;
    } else {
      var m := |b| - 1;
      assert (a + b)[..|a + b| - 1] == a + b[..m];
      WithoutConcat(a, b[..m], u);
    }
  }

  lemma {:induction false} WithoutSplit(before: seq<Entry>, x: Entry, after: seq<Entry>)
    requires Increasing(before + [x] + after)
    ensures Without(before + [x] + after, x.uid) == before + after
  {
    var all := before + [x] + after;
    assert all[|before|] == x;
    forall i | 0 <= i < |before| ensures before[i].uid != x.uid { assert all[i] == before[i]; }
    forall i | 0 <= i < |after| ensures after[i].uid != x.uid { assert all[|before| + 1 + i] == after[i]; }
    WithoutConcat(before + [x], after, x.uid);
    WithoutConcat(before, [x], x.uid);
    WithoutAbsent(before, x.uid);
    WithoutAbsent(after, x.uid);
    assert Without([x], x.uid) == [];
  }

  lemma {:induction false} WithoutAbsent(es: seq<Entry>, u: nat)
    requires forall i | 0 <= i < |es| :: es[i].uid != u
    ensures Without(es, u) == es
  {
    if es != [] {
      WithoutAbsent(es[..|es| - 1], u);
    }
  }

  /** Cancelling one more uid removes exactly that entry from the live sequence. */
  lemma LiveCancel(accepted: seq<Entry>, cancelled: set<nat>, d: string,
                   before: seq<Entry>, x: Entry, after: seq<Entry>)
    requires forall i | 0 <= i < |accepted| :: accepted[i].uid == i && accepted[i].task.deviceId == d
    requires Live(accepted, cancelled) == before + [x] + after
    ensures Live(accepted, cancelled + {x.uid}) == before + after
  {
    LiveProperties(accepted, cancelled, d);
    LiveWithout(accepted, cancelled, x.uid);
    WithoutSplit(before, x, after);
  }

  lemma InitInv(capacity: int, workerCount: int)
    ensures Inv(Init(capacity, workerCount))
  {
  }

  /** Whatever is on its way was accepted by that device. */
  lemma InFlightAccepted(s: State, d: string, k: nat)
    requires Inv(s) && k < |InFlight(s, d)|
    ensures InFlight(s, d)[k].uid < |s.At(d).accepted|
    ensures InFlight(s, d)[k].task.deviceId == d
  {
    var dev := s.At(d);
    assert Numbered(dev, d) && Conserved(s, d);
    LiveProperties(dev.accepted, dev.cancelled, d);
    assert InFlight(s, d)[k] in Live(dev.accepted, dev.cancelled);
  }

  lemma CancelKeepsNumbered(s: State, d: string, taskId: string)
    requires Inv(s) && Enabled(s, Cancel(d, taskId))
    ensures Numbered(Next(s, Cancel(d, taskId)).At(d), d)
  {
    var dev := s.At(d);
    assert Numbered(dev, d);
    var i := FirstIndex(dev.queue, taskId);
    var k := |InFlight(s, d)| - |dev.queue| + i;
    assert InFlight(s, d)[k] == dev.queue[i];
    InFlightAccepted(s, d, k);
  }

  lemma OthersKeepNumbered(s: State, step: Step, d: string)
    requires Numbered(s.At(d), d) && Enabled(s, step) && !(step.Cancel? && step.d == d)
    ensures Numbered(Next(s, step).At(d), d)
  {
  }

  lemma StepKeepsNumbered(s: State, step: Step, d: string)
    requires Inv(s) && Enabled(s, step)
    ensures Numbered(Next(s, step).At(d), d)
  {
    assert Numbered(s.At(d), d);
    if step.Cancel? && step.d == d {
      CancelKeepsNumbered(s, d, step.taskId);
    } else {
      OthersKeepNumbered(s, step, d);
    }
  }

  lemma CancelConserves(s: State, d: string, id: string)
    requires Inv(s) && Enabled(s, Cancel(d, id))
    ensures Conserved(Next(s, Cancel(d, id)), d)
  {
    var dev := s.At(d);
    assert Numbered(dev, d) && Conserved(s, d);
    var i := FirstIndex(dev.queue, id);
    var front := dev.received + Of(s.channel, d) + Hand(dev.consumer);
    SplitBehind(front, dev.queue, i);
    LiveCancel(dev.accepted, dev.cancelled, d, front + dev.queue[..i], dev.queue[i], dev.queue[i + 1..]);
  }

  lemma SplitBehind(front: seq<Entry>, queue: seq<Entry>, i: nat)
    requires i < |queue|
    ensures front + queue == (front + queue[..i]) + [queue[i]] + queue[i + 1..]
    ensures front + (queue[..i] + queue[i + 1..]) == (front + queue[..i]) + queue[i + 1..]
  {
    assert queue == queue[..i] + [queue[i]] + queue[i + 1..];
  }

  lemma AcceptConserves(s: State, t: Task)
    requires Inv(s) && Enabled(s, Accept(t))
    ensures Conserved(Next(s, Accept(t)), t.deviceId)
  {
  }

  /** A consumer only ever holds a task of its own device. */
  lemma SenderOwns(s: State, d: string)
    requires Inv(s) && s.At(d).consumer.Holding?
    ensures s.At(d).consumer.entry.task.deviceId == d
  {
    var dev := s.At(d);
    var k := |dev.received| + |Of(s.channel, d)|;
    assert InFlight(s, d)[k] == dev.consumer.entry;
    InFlightAccepted(s, d, k);
  }

  lemma OfAppend(channel: seq<Entry>, e: Entry, d: string)
    ensures Of(channel + [e], d) == Of(channel, d) + if e.task.deviceId == d then [e] else []
  {
    OfConcat(channel, [e], d);
    assert [e][1..] == [];
  }

  /** `e` has moved from the hands of `sender` to the end of the channel. */
  predicate HandedOver(s: State, s': State, sender: string, e: Entry, d: string) {
    var dev, dev' := s.At(d), s'.At(d);
    && s'.channel == s.channel + [e] && dev'.accepted == dev.accepted && dev'.cancelled == dev.cancelled
    && dev'.queue == dev.queue && dev'.received == dev.received
    && (if sender == d then Hand(dev.consumer) == [e] && Hand(dev'.consumer) == [] else dev'.consumer == dev.consumer)
  }

  lemma SendHandsOver(s: State, sender: string, d: string)
    requires Enabled(s, Send(sender))
    ensures HandedOver(s, Next(s, Send(sender)), sender, s.At(sender).consumer.entry, d)
  {
  }

  lemma HandedOverConserves(s: State, s': State, sender: string, e: Entry, d: string)
    requires Conserved(s, d) && HandedOver(s, s', sender, e, d) && e.task.deviceId == sender
    ensures Conserved(s', d)
  {
    OfAppend(s.channel, e, d);
    MoveOn(s.At(d).received, Of(s.channel, d), e, s.At(d).queue);
  }

  lemma SendConserves(s: State, sender: string, d: string)
    requires Inv(s) && Enabled(s, Send(sender))
    ensures Conserved(Next(s, Send(sender)), d)
  {
    assert Conserved(s, d);
    SenderOwns(s, sender);
    SendHandsOver(s, sender, d);
    HandedOverConserves(s, Next(s, Send(sender)), sender, s.At(sender).consumer.entry, d);
  }

  /** From the consumer's hand to the end of the channel. */
  lemma MoveOn(received: seq<Entry>, channel: seq<Entry>, e: Entry, queue: seq<Entry>)
    ensures received + (channel + [e]) + [] + queue == received + channel + [e] + queue
    ensures received + (channel + []) + queue == received + channel + queue
  {
    assert channel + [] == channel;
    assert received + (channel + [e]) == received + channel + [e];
  }

  lemma TakeConserves(s: State, d: string)
    requires Inv(s) && Enabled(s, Take(d))
    ensures Conserved(Next(s, Take(d)), d)
  {
  }

  lemma ReceiveConserves(s: State, w: nat, d: string)
    requires Inv(s) && Enabled(s, Receive(w))
    ensures Conserved(Next(s, Receive(w)), d)
  {
    var dev := s.At(d);
    assert Conserved(s, d);
    var e := s.channel[0];
    if e.task.deviceId == d {
      assert dev.received + ([e] + Of(s.channel[1..], d)) == (dev.received + [e]) + Of(s.channel[1..], d);
    }
  }

  /** The two states agree on everything conservation for `d` speaks about. */
  predicate SamePath(s: State, s': State, d: string) {
    var dev, dev' := s.At(d), s'.At(d);
    && s'.channel == s.channel && dev'.accepted == dev.accepted && dev'.cancelled == dev.cancelled
    && dev'.queue == dev.queue && dev'.received == dev.received && Hand(dev'.consumer) == Hand(dev.consumer)
  }

  lemma OtherStepsKeepPath(s: State, step: Step, d: string)
    requires Enabled(s, step) && !step.Send? && !step.Receive?
    requires !(step.Accept? && step.task.deviceId == d)
    requires !(step.Cancel? && step.d == d) && !(step.Take? && step.d == d)
    ensures SamePath(s, Next(s, step), d)
  {
  }

  lemma SamePathConserves(s: State, s': State, d: string)
    requires Conserved(s, d) && SamePath(s, s', d)
    ensures Conserved(s', d)
  {
  }

  lemma StepConserves(s: State, step: Step, d: string)
    requires Inv(s) && Enabled(s, step)
    ensures Conserved(Next(s, step), d)
  {
    assert Conserved(s, d);
    if step.Send? {
      SendConserves(s, step.d, d);
    } else if step.Receive? {
      ReceiveConserves(s, step.w, d);
    } else if step.Accept? && step.task.deviceId == d {
      AcceptConserves(s, step.task);
    } else if step.Cancel? && step.d == d {
      CancelConserves(s, d, step.taskId);
    } else if step.Take? && step.d == d {
      TakeConserves(s, d);
    } else {
      OtherStepsKeepPath(s, step, d);
      SamePathConserves(s, Next(s, step), d);
    }
  }

  lemma StepKeepsInv(s: State, step: Step)
    requires Inv(s) && Enabled(s, step)
    ensures Inv(Next(s, step))
  {
    forall d ensures Numbered(Next(s, step).At(d), d) && Conserved(Next(s, step), d) {
      StepKeepsNumbered(s, step, d);
      StepConserves(s, step, d);
    }
  }

  lemma {:induction false} RunKeepsInv(s: State, steps: seq<Step>)
    requires Inv(s) && IsRun(s, steps)
    ensures Inv(Run(s, steps))
    decreases |steps|
  {
    if steps != [] {
      StepKeepsInv(s, steps[0]);
      RunKeepsInv(Next(s, steps[0]), steps[1..]);
    }
  }

  /** Conservation, in every interleaving: a device's accepted tasks minus its successful
      cancels are exactly what workers received, then what is in the channel, then what
      the consumer holds or dropped, then the queue, in that order. */
  lemma Conservation(capacity: int, workerCount: int, steps: seq<Step>, d: string)
    requires IsRun(Init(capacity, workerCount), steps)
    ensures
      var s := Run(Init(capacity, workerCount), steps);
      Live(s.At(d).accepted, s.At(d).cancelled)
      == s.At(d).received + Of(s.channel, d) + Hand(s.At(d).consumer) + s.At(d).queue
  {
    InitInv(capacity, workerCount);
    RunKeepsInv(Init(capacity, workerCount), steps);
    assert Conserved(Run(Init(capacity, workerCount), steps), d);
  }

  /** Workers start a device's tasks in acceptance order, each at most once, and never
      one whose Cancel succeeded. */
  lemma StartOrder(capacity: int, workerCount: int, steps: seq<Step>, d: string)
    requires IsRun(Init(capacity, workerCount), steps)
    ensures
      var dev := Run(Init(capacity, workerCount), steps).At(d);
      && dev.received <= Live(dev.accepted, dev.cancelled)
      && Increasing(dev.received)
      && (forall e | e in dev.received :: e in dev.accepted && e.uid !in dev.cancelled)
  {
    InitInv(capacity, workerCount);
    RunKeepsInv(Init(capacity, workerCount), steps);
    var s := Run(Init(capacity, workerCount), steps);
    var dev := s.At(d);
    assert Numbered(dev, d) && Conserved(s, d);
    LiveProperties(dev.accepted, dev.cancelled, d);
    assert forall i | 0 <= i < |dev.received| :: dev.received[i] == Live(dev.accepted, dev.cancelled)[i];
  }

  /** `dev'` is a later state of `dev`: histories have only grown, and a closed queue has
      accepted nothing more. */
  predicate Later(dev: Device, dev': Device) {
    && dev.accepted <= dev'.accepted && dev.received <= dev'.received && dev.cancelled <= dev'.cancelled
    && (dev.closed ==> dev'.closed && dev'.accepted == dev.accepted)
  }

  lemma StepIsLater(s: State, step: Step, d: string)
    requires Enabled(s, step)
    ensures Later(s.At(d), Next(s, step).At(d))
  {
  }

  /** What the theorems above say of a state is never revised by a longer run. */
  lemma {:induction false} HistoriesGrow(s: State, steps: seq<Step>, d: string)
    requires IsRun(s, steps)
    ensures Later(s.At(d), Run(s, steps).At(d))
    decreases |steps|
  {
    if steps != [] {
      StepIsLater(s, steps[0], d);
      HistoriesGrow(Next(s, steps[0]), steps[1..], d);
    }
  }

  // ------------------------------------------------- serial execution per device

  /** No two workers execute tasks of the same device at once. */
  ghost predicate SerialPerDevice(s: State) {
    forall v, w | v in s.running && w in s.running && v != w ::
      s.running[v].task.deviceId != s.running[w].task.deviceId
  }

  lemma {:induction false} RunConcat(s: State, a: seq<Step>, b: seq<Step>)
    requires IsRun(s, a) && IsRun(Run(s, a), b)
    ensures IsRun(s, a + b) && Run(s, a + b) == Run(Run(s, a), b)
    decreases |a|
  {
    if a == [] {
      assert a + b == b;
    } else {
      assert (a + b)[1..] == a[1..] + b;
      RunConcat(Next(s, a[0]), a[1..], b);
    }
  }

  /** A device whose consumer is back at the top of its loop and whose path is empty. */
  predicate Ready(s: State, d: string, w: nat) {
    && s.At(d).consumer.Checking? && s.At(d).queue == [] && !s.At(d).closed
    && s.channel == [] && !s.stopped && s.capacity > 0
    && w < s.workers && w !in s.running && w !in s.quit
  }

  /** From there one more task goes all the way to worker `w` while the others keep running. */
  lemma PassThrough(s: State, t: Task, w: nat) returns (steps: seq<Step>)
    requires Ready(s, t.deviceId, w)
    ensures IsRun(s, steps)
    ensures
      var s' := Run(s, steps);
      && w !in s.running && s'.running == s.running[w := Entry(|s.At(t.deviceId).accepted|, t)]
      && s'.workers == s.workers && s'.quit == s.quit
      && (forall v: nat | v < s.workers && v !in s'.running && v !in s.quit :: Ready(s', t.deviceId, v))
  {
    var d, e := t.deviceId, Entry(|s.At(t.deviceId).accepted|, t);
    steps := Extend(s, [], s, Accept(t));
    var s1 := Next(s, Accept(t));
    assert s1.At(d).queue == [e] && s1.At(d).consumer.Checking?;
    steps := Extend(s, steps, s1, Check(d));
    var s2 := Next(s1, Check(d));
    assert s2.At(d).queue == [e] && s2.At(d).consumer.Dequeuing?;
    steps := Extend(s, steps, s2, Take(d));
    var s3 := Next(s2, Take(d));
    assert s3.At(d).queue == [] && s3.At(d).consumer == Holding(e) && s3.channel == [];
    steps := Extend(s, steps, s3, Send(d));
    var s4 := Next(s3, Send(d));
    assert s4.At(d).queue == [] && s4.At(d).consumer.Checking? && s4.channel == [e];
    steps := Extend(s, steps, s4, Receive(w));
    var s5 := Next(s4, Receive(w));
    assert s5.At(d).queue == [] && s5.At(d).consumer.Checking? && s5.channel == [];
  }

  /** A run from `s0` to `s` and one more step. */
  lemma Extend(s0: State, steps: seq<Step>, s: State, step: Step) returns (longer: seq<Step>)
    requires IsRun(s0, steps) && Run(s0, steps) == s && Enabled(s, step)
    ensures IsRun(s0, longer) && Run(s0, longer) == Next(s, step)
  {
    longer := steps + [step];
    assert [step][1..] == [] && Run(Next(s, step), []) == Next(s, step);
    RunConcat(s0, steps, [step]);
  }

  /** Two tasks for one device, two workers: both tasks run at the same time. */
  lemma OverlapReachable(capacity: int, workerCount: int, a: Task, b: Task) returns (steps: seq<Step>)
    requires workerCount != 1 && a.deviceId == b.deviceId
    ensures IsRun(Init(capacity, workerCount), steps)
    ensures !SerialPerDevice(Run(Init(capacity, workerCount), steps))
  {
    var s0 := Init(capacity, workerCount);
    var launch := [Launch(a.deviceId)];
    var s1 := Next(s0, launch[0]);
    assert launch[1..] == [] && IsRun(s1, []) && Run(s1, []) == s1;
    assert IsRun(s0, launch) && Run(s0, launch) == s1;
    var first := PassThrough(s1, a, 0);
    var s2 := Run(s1, first);
    var second := PassThrough(s2, b, 1);
    var s3 := Run(s2, second);
    RunConcat(s0, launch, first);
    RunConcat(s0, launch + first, second);
    steps := launch + first + second;
    assert s3.running[0].task == a && s3.running[1].task == b;
  }

  /** The documented "one task at a time per printer" holds of every run exactly when the
      executor was started with one worker. */
  lemma SerialIffOneWorker(capacity: int, workerCount: int)
    ensures (forall steps | IsRun(Init(capacity, workerCount), steps) ::
               SerialPerDevice(Run(Init(capacity, workerCount), steps)))
       <==> workerCount == 1
  {
    if workerCount == 1 {
      forall steps | IsRun(Init(capacity, workerCount), steps)
        ensures SerialPerDevice(Run(Init(capacity, workerCount), steps))
      {
        InitInv(capacity, workerCount);
        RunKeepsInv(Init(capacity, workerCount), steps);
        WorkersFixed(Init(capacity, workerCount), steps);
      }
    } else {
      var t := Task("t", "d", Pending, 0, 0, 0, 0, 0, 0, "", "", "");
      var steps := OverlapReachable(capacity, workerCount, t, t);
    }
  }

  lemma {:induction false} WorkersFixed(s: State, steps: seq<Step>)
    requires IsRun(s, steps)
    ensures Run(s, steps).workers == s.workers && Run(s, steps).capacity == s.capacity
    decreases |steps|
  {
    if steps != [] {
      WorkersFixed(Next(s, steps[0]), steps[1..]);
    }
  }

  // ------------------------------------------------------------- bounds and shutdown

  /** The defaults, and what else holds of every state: bounded queues and a bounded channel,
      cancels of PENDING tasks only, and nobody leaves before shutdown reaches him. */
  ghost predicate Orderly(s: State) {
    && |s.channel| <= s.workers
    && (forall d {:trigger s.At(d)} :: OrderlyDevice(s, d))
    && (forall w | w in s.quit :: s.stopped)
  }

  ghost predicate OrderlyDevice(s: State, d: string) {
    var dev := s.At(d);
    && |dev.queue| <= s.capacity
    && (forall u | u in dev.cancelled && u < |dev.accepted| :: dev.accepted[u].task.status == Pending)
    && (dev.consumer.Dropped? ==> s.stopped)
    && (dev.consumer.Exited? ==> s.stopped || dev.closed)
  }

  lemma InitDefaults(capacity: int, workerCount: int)
    ensures
      var s := Init(capacity, workerCount);
      s.capacity == (if capacity <= 0 then 100 else capacity) && s.workers == if workerCount <= 0 then 5 else workerCount
  {
  }

  lemma InitOrderly(capacity: int, workerCount: int)
    ensures Orderly(Init(capacity, workerCount))
  {
    var s := Init(capacity, workerCount);
    forall d ensures OrderlyDevice(s, d) {
      assert s.At(d) == FRESH_DEVICE;
    }
  }

  lemma {:induction false} CancelOrderly(s: State, d: string, taskId: string)
    requires Inv(s) && OrderlyDevice(s, d) && Enabled(s, Cancel(d, taskId))
    ensures OrderlyDevice(Next(s, Cancel(d, taskId)), d)
  {
    var dev := s.At(d);
    assert Numbered(dev, d) && Conserved(s, d);
    LiveProperties(dev.accepted, dev.cancelled, d);
    var i := FirstIndex(dev.queue, taskId);
    var k := |InFlight(s, d)| - |dev.queue| + i;
    assert InFlight(s, d)[k] == dev.queue[i] && dev.queue[i] in Live(dev.accepted, dev.cancelled);
  }

  lemma {:induction false} StepOrderlyDevice(s: State, step: Step, d: string)
    requires Inv(s) && OrderlyDevice(s, d) && Enabled(s, step)
    ensures OrderlyDevice(Next(s, step), d)
  {
    if step.Cancel? && step.d == d {
      CancelOrderly(s, d, step.taskId);
    } else {
      OtherStepOrderly(s, step, d);
    }
  }

  lemma {:induction false} OtherStepOrderly(s: State, step: Step, d: string)
    requires Numbered(s.At(d), d) && OrderlyDevice(s, d) && Enabled(s, step) && !(step.Cancel? && step.d == d)
    ensures OrderlyDevice(Next(s, step), d)
  {
  }

  lemma {:induction false} RunOrderly(s: State, steps: seq<Step>)
    requires Inv(s) && Orderly(s) && IsRun(s, steps)
    ensures Orderly(Run(s, steps))
    decreases |steps|
  {
    if steps != [] {
      var t := Next(s, steps[0]);
      StepKeepsInv(s, steps[0]);
      forall d ensures OrderlyDevice(t, d) {
        assert OrderlyDevice(s, d) && Numbered(s.At(d), d);
        StepOrderlyDevice(s, steps[0], d);
      }
      RunOrderly(t, steps[1..]);
    }
  }

  /** In every run: a queue holds at most its capacity and the channel one task per worker; what
      was cancelled was PENDING; a consumer drops the task it holds, and a worker quits, only
      after Stop; and a consumer leaves only after Stop or because its queue was closed. */
  lemma {:induction false} OrderlyRuns(capacity: int, workerCount: int, steps: seq<Step>, d: string)
    requires IsRun(Init(capacity, workerCount), steps)
    ensures
      var s := Run(Init(capacity, workerCount), steps);
      var dev := s.At(d);
      && |dev.queue| <= (if capacity <= 0 then 100 else capacity)
      && |s.channel| <= (if workerCount <= 0 then 5 else workerCount)
      && (forall u | u in dev.cancelled :: u < |dev.accepted| && dev.accepted[u].task.status == Pending)
      && (dev.consumer.Dropped? || s.quit != {} ==> s.stopped)
      && (dev.consumer.Exited? ==> s.stopped || dev.closed)
  {
    var s0 := Init(capacity, workerCount);
    InitInv(capacity, workerCount);
    InitDefaults(capacity, workerCount);
    RunKeepsInv(s0, steps);
    InitOrderly(capacity, workerCount);
    RunOrderly(s0, steps);
    WorkersFixed(s0, steps);
    assert OrderlyDevice(Run(s0, steps), d) && Numbered(Run(s0, steps).At(d), d);
  }

  // ------------------------------------------------------------------- a closed queue

  /** Tasks of the device that have left its queue for a worker. */
  function Gone(s: State, d: string): nat {
    |s.At(d).received| + |Of(s.channel, d)| + |Hand(s.At(d).consumer)|
  }

  lemma {:induction false} ShipAfterClose(s: State, step: Step, d: string)
    requires Inv(s) && Enabled(s, step) && s.At(d).closed && (step.Send? || step.Receive?)
    ensures Next(s, step).At(d).closed && Gone(Next(s, step), d) == Gone(s, d)
  {
    if step.Send? {
      SenderOwns(s, step.d);
      OfAppend(s.channel, s.At(step.d).consumer.entry, d);
    }
  }

  lemma {:induction false} StepAfterClose(s: State, step: Step, d: string)
    requires Inv(s) && Enabled(s, step) && s.At(d).closed
    ensures Next(s, step).At(d).closed && Gone(Next(s, step), d) == Gone(s, d)
  {
    if step.Send? || step.Receive? {
      ShipAfterClose(s, step, d);
    } else {
      hide Inv, Of;
    }
  }

  /** Closing a device queue ends it: nothing more is taken from it, whatever still waits. */
  lemma {:induction false} ClosedGivesNothing(capacity: int, workerCount: int, before: seq<Step>, after: seq<Step>, d: string)
    requires IsRun(Init(capacity, workerCount), before)
    requires Run(Init(capacity, workerCount), before).At(d).closed
    requires IsRun(Run(Init(capacity, workerCount), before), after)
    ensures
      var s := Run(Init(capacity, workerCount), before);
      Gone(Run(s, after), d) == Gone(s, d)
  {
    InitInv(capacity, workerCount);
    RunKeepsInv(Init(capacity, workerCount), before);
    RunAfterClose(Run(Init(capacity, workerCount), before), after, d);
  }

  lemma {:induction false} RunAfterClose(s: State, steps: seq<Step>, d: string)
    requires Inv(s) && IsRun(s, steps) && s.At(d).closed
    ensures Gone(Run(s, steps), d) == Gone(s, d)
    decreases |steps|
  {
    if steps != [] {
      StepAfterClose(s, steps[0], d);
      StepKeepsInv(s, steps[0]);
      RunAfterClose(Next(s, steps[0]), steps[1..], d);
    }
  }

  // --------------------------------------------------------------------- after Stop

  function Takes(steps: seq<Step>, d: string): nat {
    if steps == [] then 0 else (if steps[0] == Take(d) then 1 else 0) + Takes(steps[1..], d)
  }

  /** Once the context is cancelled a consumer comes back from Dequeue at most once more, and only
      if it was inside, because it tests the context before every call. */
  lemma {:induction false} StopEndsTaking(s: State, later: seq<Step>, d: string)
    requires s.stopped && IsRun(s, later)
    ensures Takes(later, d) <= if s.At(d).consumer.Dequeuing? then 1 else 0
    decreases |later|
  {
    if later != [] {
      StopEndsTaking(Next(s, later[0]), later[1..], d);
    }
  }

  /** A worker that has seen the cancelled context never runs a task again. */
  lemma {:induction false} QuitForGood(s: State, later: seq<Step>, w: nat)
    requires w in s.quit && w !in s.running && IsRun(s, later)
    ensures w in Run(s, later).quit && w !in Run(s, later).running
    ensures Receive(w) !in later
    decreases |later|
  {
    if later != [] {
      QuitForGood(Next(s, later[0]), later[1..], w);
    }
  }
}
