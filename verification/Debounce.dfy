/** The status debouncer with its timers: each locked section, each firing and each report made
    outside the lock is a step of its own. An entry is numbered when it is created, and its
    timer carries the same number. */
module Debounce {
  import opened Basics

  datatype DeviceStatus = Online | Offline | ProbeFailed

  datatype Entry = Entry(id: nat, device: string, status: DeviceStatus)

  /** A call of ApplyChange and the entry that it created or updated. */
  datatype Call = Call(id: nat, device: string, status: DeviceStatus)

  datatype Phase = Serving | Draining | Drained

  datatype State = State(
    pending: map<string, Entry>,
    armed: set<nat>,             // timers still counting
    fired: set<nat>,             // timers whose flush has not got the lock yet
    inHand: map<nat, Entry>,     // entries taken by a flush and not yet reported
    phase: Phase,
    owner: seq<string>,          // history: the device of each entry ever created
    calls: seq<Call>,            // history
    reported: seq<Entry>,        // history
    overtaking: set<nat>,        // history: entries reported while an older one of the device was in hand
    late: set<nat>,              // history: entries drained although their timer had fired
    robbed: set<nat>)            // history: entries that the timer of another one flushed

  const INITIAL := State(map[], {}, {}, map[], Serving, [], [], [], {}, {}, {})

  datatype Step =
    | Apply(device: string, status: DeviceStatus)
    | Fire(id: nat)              // a timer's window ends
    | Flush(id: nat)             // its flush runs under the lock
    | Report(id: nat)            // and reports what it took
    | BeginDrain                 // the context is done and the drain got the lock
    | DrainOne(device: string)   // in whatever order the map yields
    | EndDrain

  predicate Enabled(s: State, step: Step) {
    match step
    case Apply(_, _) => !s.phase.Draining?
    case Fire(id) => id in s.armed
    case Flush(id) => id in s.fired && id < |s.owner| && !s.phase.Draining?
    case Report(id) => id in s.inHand
    case BeginDrain => s.phase.Serving?
    case DrainOne(d) => s.phase.Draining? && d in s.pending
    case EndDrain => s.phase.Draining? && s.pending == map[]
  }

  /** An entry of device `d` older than `id` is in some flush's hands. */
  predicate HoldsOlder(s: State, d: string, id: nat) {
    exists k :: k in s.inHand && s.inHand[k].device == d && k < id
  }

  function Reported(s: State, e: Entry): State {
    s.(reported := s.reported + [e],
       overtaking := if HoldsOlder(s, e.device, e.id) then s.overtaking + {e.id} else s.overtaking)
  }

  function Next(s: State, step: Step): State
    requires Enabled(s, step)
  {
    match step
    case Apply(d, status) => Applied(s, d, status)
    case Fire(id) => s.(armed := s.armed - {id}, fired := s.fired + {id})
    case Flush(id) => Flushed(s, id)
    case Report(id) =>
      var e := s.inHand[id];
      Reported(s.(inHand := s.inHand - {id}), e)
    case BeginDrain => s.(phase := Draining)
    case DrainOne(d) =>
      Reported(Drawn(s, d), s.pending[d])
    case EndDrain => s.(phase := Drained)
  }

  /** The drain has stopped the timer, if that was still possible, and removed the entry. */
  function Drawn(s: State, d: string): State
    requires d in s.pending
  {
    var id := s.pending[d].id;
    s.(pending := s.pending - {d}, armed := s.armed - {id},
       late := if id in s.fired then s.late + {id} else s.late)
  }

  function Applied(s: State, d: string, status: DeviceStatus): State {
    if d in s.pending then
      var e := s.pending[d];
      s.(pending := s.pending[d := e.(status := status)], calls := s.calls + [Call(e.id, d, status)])
    else
      var id := |s.owner|;
      s.(pending := s.pending[d := Entry(id, d, status)], armed := s.armed + {id},
         owner := s.owner + [d], calls := s.calls + [Call(id, d, status)])
  }

  /** A flush looks its device up again, so it takes whatever entry is pending there now. */
  function Flushed(s: State, id: nat): State
    requires id < |s.owner|
  {
    var d := s.owner[id];
    var s1 := s.(fired := s.fired - {id});
    if d in s.pending then
      var e := s.pending[d];
      s1.(pending := s.pending - {d}, inHand := s.inHand[e.id := e],
          robbed := if e.id == id then s.robbed else s.robbed + {e.id})
    else s1
  }

  predicate IsRun(s: State, steps: seq<Step>)
    decreases |steps|
  {
    steps == [] || (Enabled(s, steps[0]) && IsRun(Next(s, steps[0]), steps[1..]))
  }

  function Run(s: State, steps: seq<Step>): State
    requires IsRun(s, steps)
    decreases |steps|
  {
    if steps == [] then s else Run(Next(s, steps[0]), steps[1..])
  }

  // --------------------------------------------------------- where an entry is

  predicate IsPending(s: State, id: nat) {
    id < |s.owner| && s.owner[id] in s.pending && s.pending[s.owner[id]].id == id
  }

  function Count(es: seq<Entry>, id: nat): nat {
    if es == [] then 0 else Count(es[..|es| - 1], id) + if es[|es| - 1].id == id then 1 else 0
  }

  function Places(s: State, id: nat): nat {
    (if IsPending(s, id) then 1 else 0) + (if id in s.inHand then 1 else 0) + Count(s.reported, id)
  }

  lemma CountAppend(es: seq<Entry>, e: Entry, id: nat)
    ensures Count(es + [e], id) == Count(es, id) + if e.id == id then 1 else 0
  {
  }

  lemma {:induction false} CountPositive(es: seq<Entry>, i: nat)
    requires i < |es|
    ensures Count(es, es[i].id) >= 1
  {
    if i < |es| - 1 {
      CountPositive(es[..|es| - 1], i);
    }
  }

  /** Every entry knows its own number and device. */
  ghost predicate Labelled(s: State) {
    && (forall d :: d in s.pending ==> s.pending[d].device == d && s.pending[d].id < |s.owner| && s.owner[s.pending[d].id] == d)
    && (forall k :: k in s.inHand ==> s.inHand[k].id == k && k < |s.owner| && s.owner[k] == s.inHand[k].device)
    && (forall i :: 0 <= i < |s.reported| ==> s.reported[i].id < |s.owner| && s.owner[s.reported[i].id] == s.reported[i].device)
    && (forall id :: id in s.armed ==> id < |s.owner|)
    && (forall id :: id in s.fired ==> id < |s.owner|)
  }

  ghost predicate OnePlace(s: State) {
    forall id: nat :: Places(s, id) == if id < |s.owner| then 1 else 0
  }

  lemma {:induction false} StepKeepsLabels(s: State, step: Step)
    requires Labelled(s) && Enabled(s, step)
    ensures Labelled(Next(s, step))
  {
    match step
    case Apply(d, status) => ApplyKeepsLabels(s, d, status);
    case Fire(_) =>
    case Flush(_) =>
    case Report(_) =>
    case BeginDrain =>
    case DrainOne(_) =>
    case EndDrain =>
  }

  lemma {:induction false} ApplyKeepsLabels(s: State, d: string, status: DeviceStatus)
    requires Labelled(s)
    ensures Labelled(Applied(s, d, status))
  {
  }

  lemma {:induction false} StepKeepsPlace(s: State, step: Step, id: nat)
    requires Labelled(s) && OnePlace(s) && Enabled(s, step)
    ensures var t := Next(s, step); Places(t, id) == if id < |t.owner| then 1 else 0
  {
    assert Places(s, id) == if id < |s.owner| then 1 else 0;
    match step
    case Apply(d, status) => ApplyKeepsPlace(s, d, status, id);
    case Fire(_) =>
    case Flush(k) => FlushKeepsPlace(s, k, id);
    case Report(k) => CountAppend(s.reported, s.inHand[k], id);
    case BeginDrain =>
    case DrainOne(d) => DrainKeepsPlace(s, d, id);
    case EndDrain =>
  }

  lemma {:induction false} ApplyKeepsPlace(s: State, d: string, status: DeviceStatus, id: nat)
    requires Labelled(s) && Places(s, id) == if id < |s.owner| then 1 else 0
    ensures var t := Applied(s, d, status); Places(t, id) == if id < |t.owner| then 1 else 0
  {
  }

  lemma {:induction false} FlushKeepsPlace(s: State, k: nat, id: nat)
    requires Labelled(s) && k < |s.owner| && Places(s, id) == if id < |s.owner| then 1 else 0
    ensures Places(Flushed(s, k), id) == Places(s, id)
  {
  }

  lemma {:induction false} DrainKeepsPlace(s: State, d: string, id: nat)
    requires Labelled(s) && d in s.pending
    requires Enabled(s, DrainOne(d))
    ensures Places(Next(s, DrainOne(d)), id) == Places(s, id)
  {
  }

  // -------------------------------------------------------------- the last status

  /** The status that the latest call for entry `id` asked for. */
  function LastFor(calls: seq<Call>, id: nat): Option<DeviceStatus> {
    if calls == [] then None
    else if calls[|calls| - 1].id == id then Some(calls[|calls| - 1].status)
    else LastFor(calls[..|calls| - 1], id)
  }

  /** The status that the latest call for device `d` asked for. */
  function LatestOf(calls: seq<Call>, d: string): Option<DeviceStatus> {
    if calls == [] then None
    else if calls[|calls| - 1].device == d then Some(calls[|calls| - 1].status)
    else LatestOf(calls[..|calls| - 1], d)
  }

  lemma CallAppend(calls: seq<Call>, c: Call, id: nat, d: string)
    ensures LastFor(calls + [c], id) == if c.id == id then Some(c.status) else LastFor(calls, id)
    ensures LatestOf(calls + [c], d) == if c.device == d then Some(c.status) else LatestOf(calls, d)
  {
  }

  ghost predicate UpToDate(s: State) {
    && (forall d :: d in s.pending ==>
          LastFor(s.calls, s.pending[d].id) == Some(s.pending[d].status) == LatestOf(s.calls, d))
    && (forall k :: k in s.inHand ==> LastFor(s.calls, k) == Some(s.inHand[k].status))
    && (forall i :: 0 <= i < |s.reported| ==> LastFor(s.calls, s.reported[i].id) == Some(s.reported[i].status))
  }

  lemma {:induction false} StepKeepsStatuses(s: State, step: Step)
    requires Labelled(s) && OnePlace(s) && UpToDate(s) && Enabled(s, step)
    ensures UpToDate(Next(s, step))
  {
    if step.Apply? {
      ApplyKeepsStatuses(s, step.device, step.status);
    }
  }

  lemma {:induction false} ApplyKeepsStatuses(s: State, d: string, status: DeviceStatus)
    requires Labelled(s) && OnePlace(s) && UpToDate(s)
    ensures UpToDate(Applied(s, d, status))
  {
    var t := Applied(s, d, status);
    var c := t.calls[|s.calls|];
    assert Places(s, c.id) == if c.id < |s.owner| then 1 else 0;
    forall e | e in t.pending
      ensures LastFor(t.calls, t.pending[e].id) == Some(t.pending[e].status) == LatestOf(t.calls, e)
    {
      CallAppend(s.calls, c, t.pending[e].id, e);
    }
    forall k | k in t.inHand ensures LastFor(t.calls, k) == Some(t.inHand[k].status) {
      CallAppend(s.calls, c, k, d);
    }
    forall i | 0 <= i < |t.reported| ensures LastFor(t.calls, t.reported[i].id) == Some(t.reported[i].status) {
      CallAppend(s.calls, c, t.reported[i].id, d);
      CountPositive(s.reported, i);
    }
  }

  /** The newest entry of a device carries the device's latest status. */
  ghost predicate LatestIsNewest(s: State) {
    forall id: nat :: IsNewest(s, id) ==> LastFor(s.calls, id) == LatestOf(s.calls, s.owner[id])
  }

  predicate IsNewest(s: State, id: nat) {
    id < |s.owner| && forall k :: id < k < |s.owner| ==> s.owner[k] != s.owner[id]
  }

  lemma {:induction false} StepKeepsLatest(s: State, step: Step)
    requires Labelled(s) && Newest(s) && LatestIsNewest(s) && Enabled(s, step)
    ensures LatestIsNewest(Next(s, step))
  {
    var t := Next(s, step);
    if step.Apply? {
      var c := t.calls[|s.calls|];
      forall id: nat | IsNewest(t, id) ensures LastFor(t.calls, id) == LatestOf(t.calls, t.owner[id]) {
        CallAppend(s.calls, c, id, t.owner[id]);
        if id < |s.owner| {
          assert t.owner[id] == s.owner[id];
          assert forall k :: id < k < |s.owner| ==> t.owner[k] == s.owner[k];
          assert IsNewest(s, id);
          assert step.device !in s.pending ==> t.owner[|s.owner|] == step.device;
          if step.device == s.owner[id] {
            assert id <= s.pending[step.device].id;
            assert s.owner[s.pending[step.device].id] == s.owner[id];
            assert c.id == id;
          } else {
            assert c.id != id;
          }
        }
      }
    } else {
      forall id: nat | IsNewest(t, id) ensures LastFor(t.calls, id) == LatestOf(t.calls, t.owner[id]) {
        assert IsNewest(s, id);
      }
    }
  }

  // ----------------------------------------------------------------------- timers

  predicate HasTimer(s: State, id: nat) {
    id in s.armed || id in s.fired
  }

  /** A pending entry has its own timer, armed or fired but not yet run; before the drain there
      are no other timers. */
  ghost predicate Timed(s: State) {
    && s.armed !! s.fired
    && (forall d :: d in s.pending ==> HasTimer(s, s.pending[d].id))
    && (s.phase.Serving? ==> forall id :: HasTimer(s, id) ==> IsPending(s, id))
  }

  lemma {:induction false} StepKeepsTimers(s: State, step: Step)
    requires Labelled(s) && Timed(s) && Enabled(s, step)
    ensures Timed(Next(s, step))
  {
    var t := Next(s, step);
    if t.phase.Serving? {
      if step.Flush? {
        assert HasTimer(s, step.id);
      }
      forall id: nat | HasTimer(t, id) ensures IsPending(t, id) {
        if HasTimer(s, id) {
          assert IsPending(s, id);
          assert t.owner[id] == s.owner[id];
        }
      }
    }
  }

  // ------------------------------------------------------------------------ order

  /** A pending entry is newer than every other entry of its device. */
  ghost predicate Newest(s: State) {
    forall id: nat :: id < |s.owner| && s.owner[id] in s.pending ==> id <= s.pending[s.owner[id]].id
  }

  lemma {:induction false} StepKeepsNewest(s: State, step: Step)
    requires Labelled(s) && Newest(s) && Enabled(s, step)
    ensures Newest(Next(s, step))
  {
  }

  /** After report `i` an older entry of its device was reported. */
  predicate Followed(es: seq<Entry>, i: nat) {
    exists j :: i < j < |es| && es[j].device == es[i].device && es[j].id < es[i].id
  }

  /** Report `i` came before an older entry of its device, which is reported later or still in
      hand. */
  predicate Early(s: State, i: nat) {
    && i < |s.reported|
    && (HoldsOlder(s, s.reported[i].device, s.reported[i].id) || Followed(s.reported, i))
  }

  ghost predicate Tracked(s: State) {
    && (forall i: nat :: i < |s.reported| ==> (s.reported[i].id in s.overtaking <==> Early(s, i)))
    && (forall id: nat :: id in s.overtaking ==> Count(s.reported, id) >= 1)
  }

  lemma FollowedAppend(es: seq<Entry>, e: Entry, i: nat)
    requires i < |es|
    ensures Followed(es + [e], i) <==> Followed(es, i) || (e.device == es[i].device && e.id < es[i].id)
  {
    var fs := es + [e];
    assert fs[i] == es[i] && fs[|es|] == e;
    if Followed(es, i) {
      var j :| i < j < |es| && es[j].device == es[i].device && es[j].id < es[i].id;
      assert fs[j] == es[j];
    }
  }

  /** Taking an entry into hand, seen from both sides. */
  ghost predicate OneMoreHeld(s: State, t: State, e: Entry) {
    && t.reported == s.reported && t.overtaking == s.overtaking
    && forall d: string, id: nat ::
         HoldsOlder(t, d, id) <==> HoldsOlder(s, d, id) || (e.device == d && e.id < id)
  }

  /** A report of `e`, which was in hand in `s` and is not in `rest`. */
  lemma {:induction false} ReportKeepsTracked(s: State, rest: State, e: Entry)
    requires Tracked(s) && OneMoreHeld(rest, s, e) && Count(s.reported, e.id) == 0
    ensures Tracked(Reported(rest, e))
  {
    var t, n := Reported(rest, e), |s.reported|;
    assert t.reported[n] == e && !Followed(t.reported, n);
    forall i: nat | i < n ensures t.reported[i].id in t.overtaking <==> Early(t, i) {
      assert t.reported[i] == s.reported[i];
      CountPositive(s.reported, i);
      FollowedAppend(s.reported, e, i);
      assert Early(t, i) <==> Early(s, i);
    }
    forall id: nat | id in t.overtaking ensures Count(t.reported, id) >= 1 {
      CountAppend(s.reported, e, id);
    }
  }

  /** What a flush takes is newer than every report of its device. */
  lemma {:induction false} TakeKeepsTracked(s: State, t: State, e: Entry)
    requires Tracked(s) && OneMoreHeld(s, t, e)
    requires forall i :: 0 <= i < |s.reported| && s.reported[i].device == e.device ==> s.reported[i].id <= e.id
    ensures Tracked(t)
  {
    forall i: nat ensures Early(t, i) == Early(s, i) {
    }
  }

  lemma {:induction false} SameReports(s: State, t: State)
    requires Tracked(s) && t.inHand == s.inHand && t.reported == s.reported && t.overtaking == s.overtaking
    ensures Tracked(t)
  {
    forall i: nat ensures Early(t, i) == Early(s, i) {
    }
  }

  lemma {:induction false} HoldMore(s: State, e: Entry)
    requires Labelled(s) && (e.id in s.inHand ==> s.inHand[e.id] == e)
    ensures OneMoreHeld(s, s.(inHand := s.inHand[e.id := e]), e)
  {
    var t := s.(inHand := s.inHand[e.id := e]);
    assert t.inHand[e.id] == e;
    forall d: string, id: nat
      ensures HoldsOlder(t, d, id) <==> HoldsOlder(s, d, id) || (e.device == d && e.id < id)
    {
      if HoldsOlder(s, d, id) {
        var k :| k in s.inHand && s.inHand[k].device == d && k < id;
        assert k in t.inHand && t.inHand[k].device == d;
      }
    }
  }

  lemma NewestReported(s: State, d: string)
    requires Labelled(s) && Newest(s) && d in s.pending
    ensures forall i :: 0 <= i < |s.reported| && s.reported[i].device == d ==> s.reported[i].id <= s.pending[d].id
  {
  }

  lemma {:induction false} FlushKeepsTracked(s: State, k: nat)
    requires Labelled(s) && OnePlace(s) && Newest(s) && Tracked(s) && k < |s.owner|
    ensures Tracked(Flushed(s, k))
  {
    var d, t := s.owner[k], Flushed(s, k);
    if d in s.pending {
      var e := s.pending[d];
      assert Places(s, e.id) == 1;
      NewestReported(s, d);
      HoldMore(s, e);
      var held := s.(inHand := s.inHand[e.id := e]);
      TakeKeepsTracked(s, held, e);
      SameReports(held, t);
    } else {
      SameReports(s, t);
    }
  }

  lemma {:induction false} DrainKeepsTracked(s: State, d: string)
    requires Labelled(s) && OnePlace(s) && Newest(s) && Tracked(s) && Enabled(s, DrainOne(d))
    ensures Tracked(Next(s, DrainOne(d)))
  {
    var e := s.pending[d];
    var rest := Drawn(s, d);
    assert Places(s, e.id) == 1;
    NewestReported(s, d);
    HoldMore(rest, e);
    var held := rest.(inHand := rest.inHand[e.id := e]);
    SameReports(s, rest);
    TakeKeepsTracked(rest, held, e);
    ReportKeepsTracked(held, rest, e);
  }

  lemma {:induction false} StepKeepsTracked(s: State, step: Step)
    requires Labelled(s) && OnePlace(s) && Newest(s) && Tracked(s) && Enabled(s, step)
    ensures Tracked(Next(s, step))
  {
    match step
    case Apply(d, status) => SameReports(s, Applied(s, d, status));
    case Fire(_) => SameReports(s, Next(s, step));
    case Flush(k) => FlushKeepsTracked(s, k);
    case Report(k) =>
      var rest := s.(inHand := s.inHand - {k});
      assert Places(s, k) == 1;
      assert rest.inHand[k := s.inHand[k]] == s.inHand;
      HoldMore(rest, s.inHand[k]);
      ReportKeepsTracked(s, rest, s.inHand[k]);
    case BeginDrain => SameReports(s, Next(s, step));
    case DrainOne(d) => DrainKeepsTracked(s, d);
    case EndDrain => SameReports(s, Next(s, step));
  }

  // ----------------------------------------------------------------- stray timers

  /** Whose timer can meet an entry that is not its own: one drained too late to stop it, and
      then one that such a timer robbed. */
  ghost predicate Strayed(s: State) {
    && (forall id :: id in s.fired ==> IsPending(s, id) || id in s.late || id in s.robbed)
    && (forall id :: id in s.armed ==> IsPending(s, id) || id in s.robbed)
    && (forall id :: id in s.late || id in s.robbed ==> id < |s.owner| && !IsPending(s, id))
    && (s.robbed != {} ==> s.late != {})
  }

  lemma {:induction false} StepKeepsStrayed(s: State, step: Step)
    requires Labelled(s) && Timed(s) && Strayed(s) && Enabled(s, step)
    ensures Strayed(Next(s, step))
  {
    match step
    case Apply(d, status) => ApplyKeepsStrayed(s, d, status);
    case Fire(_) =>
    case Flush(id) => FlushKeepsStrayed(s, id);
    case Report(_) =>
    case BeginDrain =>
    case DrainOne(d) => DrawKeepsStrayed(s, d);
    case EndDrain =>
  }

  /** Removing the entry of a device leaves the others where they are. */
  lemma {:induction false} OthersStay(s: State, t: State, d: string, id: nat)
    requires Labelled(s) && d in s.pending && t.owner == s.owner && t.pending == s.pending - {d}
    ensures IsPending(t, id) <==> IsPending(s, id) && id != s.pending[d].id
  {
  }

  lemma {:induction false} ApplyKeepsStrayed(s: State, d: string, status: DeviceStatus)
    requires Labelled(s) && Strayed(s)
    ensures Strayed(Applied(s, d, status))
  {
    var t := Applied(s, d, status);
    forall id: nat ensures IsPending(t, id) <==> IsPending(s, id) || (d !in s.pending && id == |s.owner|) {
      assert id < |s.owner| ==> t.owner[id] == s.owner[id];
    }
  }

  lemma {:induction false} FlushKeepsStrayed(s: State, id: nat)
    requires Labelled(s) && Timed(s) && Strayed(s) && id in s.fired && id < |s.owner|
    ensures Strayed(Flushed(s, id))
  {
    var t := Flushed(s, id);
    if s.owner[id] in s.pending {
      forall k: nat ensures IsPending(t, k) <==> IsPending(s, k) && k != s.pending[s.owner[id]].id {
        OthersStay(s, t, s.owner[id], k);
      }
    }
  }

  lemma {:induction false} DrawKeepsStrayed(s: State, d: string)
    requires Labelled(s) && Timed(s) && Strayed(s) && d in s.pending
    ensures Strayed(Drawn(s, d))
  {
    var t := Drawn(s, d);
    forall k: nat ensures IsPending(t, k) <==> IsPending(s, k) && k != s.pending[d].id {
      OthersStay(s, t, d, k);
    }
  }

  // ---------------------------------------------------------------- over whole runs

  ghost predicate Inv(s: State) {
    Labelled(s) && OnePlace(s) && UpToDate(s) && LatestIsNewest(s) && Timed(s) && Newest(s) && Tracked(s) && Strayed(s)
  }

  lemma {:induction false} StepKeepsInv(s: State, step: Step)
    requires Inv(s) && Enabled(s, step)
    ensures Inv(Next(s, step))
  {
    var t := Next(s, step);
    assert Labelled(t) by { StepKeepsLabels(s, step); }
    assert OnePlace(t) by {
      forall id: nat ensures Places(t, id) == if id < |t.owner| then 1 else 0 {
        StepKeepsPlace(s, step, id);
      }
    }
    assert UpToDate(t) by { StepKeepsStatuses(s, step); }
    assert LatestIsNewest(t) by { StepKeepsLatest(s, step); }
    assert Timed(t) by { StepKeepsTimers(s, step); }
    assert Newest(t) by { StepKeepsNewest(s, step); }
    assert Tracked(t) by { StepKeepsTracked(s, step); }
    assert Strayed(t) by { StepKeepsStrayed(s, step); }
  }

  lemma {:induction false} RunKeepsInv(s: State, steps: seq<Step>)
    requires Inv(s) && IsRun(s, steps)
    ensures Inv(Run(s, steps))
    decreases |steps|
  {
    if steps != [] {
      StepKeepsInv(s, steps[0]);
      RunKeepsInv(Next(s, steps[0]), steps[1..]);
    }
  }

  lemma {:induction false} Reachable(steps: seq<Step>)
    requires IsRun(INITIAL, steps)
    ensures Inv(Run(INITIAL, steps))
  {
    RunKeepsInv(INITIAL, steps);
  }

  /** In every interleaving, stale timers and the drain included, each entry ever created is in
      exactly one place: pending, in one flush's hands, or reported, and that once. */
  lemma {:induction false} ReportedAtMostOnce(steps: seq<Step>, id: nat)
    requires IsRun(INITIAL, steps)
    ensures
      var s := Run(INITIAL, steps);
      id < |s.owner| ==>
        (if IsPending(s, id) then 1 else 0) + (if id in s.inHand then 1 else 0) + Count(s.reported, id) == 1
  {
    Reachable(steps);
    assert Places(Run(INITIAL, steps), id) >= 0;
  }

  /** And it is reported with the status of the last call that went into it. */
  lemma {:induction false} ReportedWithLastStatus(steps: seq<Step>, i: nat)
    requires IsRun(INITIAL, steps) && i < |Run(INITIAL, steps).reported|
    ensures
      var s := Run(INITIAL, steps);
      var e := s.reported[i];
      e.id < |s.owner| && s.owner[e.id] == e.device && LastFor(s.calls, e.id) == Some(e.status)
  {
    Reachable(steps);
  }

  /** No entry is forgotten: one still pending has its own timer, counting or fired and about
      to flush. Once no timer and no flush is left, every entry has been reported. */
  lemma {:induction false} NothingStranded(steps: seq<Step>)
    requires IsRun(INITIAL, steps)
    ensures
      var s := Run(INITIAL, steps);
      && (forall d :: d in s.pending ==> s.pending[d].id in s.armed || s.pending[d].id in s.fired)
      && (s.armed == {} && s.fired == {} && s.inHand == map[] ==>
            s.pending == map[] && forall id :: 0 <= id < |s.owner| ==> Count(s.reported, id) == 1)
  {
    Reachable(steps);
    var s := Run(INITIAL, steps);
    forall d | d in s.pending ensures s.pending[d].id in s.armed || s.pending[d].id in s.fired {
      assert HasTimer(s, s.pending[d].id);
    }
    if s.armed == {} && s.fired == {} && s.inHand == map[] {
      forall id | 0 <= id < |s.owner| ensures Count(s.reported, id) == 1 {
        assert Places(s, id) == 1;
      }
    }
  }

  function Firings(steps: seq<Step>, id: nat): nat {
    if steps == [] then 0 else (if steps[0] == Fire(id) then 1 else 0) + Firings(steps[1..], id)
  }

  function Flushes(steps: seq<Step>, id: nat): nat {
    if steps == [] then 0 else (if steps[0] == Flush(id) then 1 else 0) + Flushes(steps[1..], id)
  }

  /** How far timer `id` is: not made yet, counting, fired, or done. */
  predicate Ahead(s: State, id: nat) {
    (id in s.armed ==> id < |s.owner|) && (id in s.fired ==> id < |s.owner|) && !(id in s.armed && id in s.fired)
  }

  /** The window is fixed when the entry is made: its timer fires at most once and flushes at most
      once, however many calls go into the entry. */
  lemma {:induction false} WindowIsFixed(s: State, steps: seq<Step>, id: nat)
    requires Ahead(s, id) && IsRun(s, steps)
    ensures Firings(steps, id) <= if id in s.armed || id >= |s.owner| then 1 else 0
    ensures Flushes(steps, id) <= if id in s.armed || id in s.fired || id >= |s.owner| then 1 else 0
    decreases |steps|
  {
    if steps != [] {
      WindowIsFixed(Next(s, steps[0]), steps[1..], id);
    }
  }

  /** Until the drain a timer only ever flushes its own entry. */
  lemma {:induction false} OwnTimerUntilDrain(steps: seq<Step>, id: nat)
    requires IsRun(INITIAL, steps) && Run(INITIAL, steps).phase.Serving?
    requires Enabled(Run(INITIAL, steps), Flush(id))
    ensures
      var s := Run(INITIAL, steps);
      IsPending(s, id) && Flushed(s, id).inHand == s.inHand[id := s.pending[s.owner[id]]]
  {
    Reachable(steps);
    assert HasTimer(Run(INITIAL, steps), id);
  }

  /** Which flush takes an entry that is not its own: exactly one whose own entry was drained
      too late or robbed, while a newer entry of the device is pending. Without an entry
      drained too late every flush takes its own. */
  lemma {:induction false} ForeignFlushIff(steps: seq<Step>, id: nat)
    requires IsRun(INITIAL, steps) && Enabled(Run(INITIAL, steps), Flush(id))
    ensures
      var s := Run(INITIAL, steps);
      var d := s.owner[id];
      && (d in s.pending && s.pending[d].id != id <==> d in s.pending && (id in s.late || id in s.robbed))
      && (s.late == {} ==> IsPending(s, id))
  {
    Reachable(steps);
    var s := Run(INITIAL, steps);
    assert id in s.fired;
    assert id in s.late || id in s.robbed ==> !IsPending(s, id);
  }

  /** After the drain a timer that it came too late to stop flushes a newer entry early. */
  lemma {:induction false} StaleTimerAfterDrain() returns (steps: seq<Step>)
    ensures IsRun(INITIAL, steps)
    ensures
      var s := Run(INITIAL, steps);
      && Enabled(s, Flush(0)) && !IsPending(s, 0) && 1 in Flushed(s, 0).inHand && 1 in s.armed
      && s.phase.Drained? && s.owner == ["d", "d"] && s.pending.Keys == {"d"} && s.late == {0} && s.robbed == {}
  {
    var d, s0 := "d", INITIAL;
    var s1 := Applied(s0, d, Offline);
    steps := Follow(INITIAL, [], s0, Apply(d, Offline));
    steps := Follow(INITIAL, steps, s1, Fire(0));
    var s2 := Next(s1, Fire(0));
    steps := Follow(INITIAL, steps, s2, BeginDrain);
    var s3 := s2.(phase := Draining);
    steps := Follow(INITIAL, steps, s3, DrainOne(d));
    var s4 := Next(s3, DrainOne(d));
    assert s4.pending == map[];
    steps := Follow(INITIAL, steps, s4, EndDrain);
    steps := Follow(INITIAL, steps, s4.(phase := Drained), Apply(d, Online));
  }

  /** And the entry it robbed was never drained, but its timer then strays in turn. */
  lemma {:induction false} RobbedTimerStrays() returns (steps: seq<Step>)
    ensures IsRun(INITIAL, steps)
    ensures
      var s := Run(INITIAL, steps);
      Enabled(s, Flush(1)) && 1 !in s.late && 1 in s.robbed && 2 in Flushed(s, 1).inHand
  {
    var first := StaleTimerAfterDrain();
    var s0 := Run(INITIAL, first);
    Reachable(first);
    steps := Follow(INITIAL, first, s0, Flush(0));
    var s1 := Flushed(s0, 0);
    steps := Follow(INITIAL, steps, s1, Fire(1));
    var s2 := Next(s1, Fire(1));
    steps := Follow(INITIAL, steps, s2, Apply("d", Online));
  }

  predicate InOrder(es: seq<Entry>, d: string) {
    forall i, j :: 0 <= i < j < |es| && es[i].device == d == es[j].device ==> es[i].id < es[j].id
  }

  /** Nothing of device `d` is in a flush's hands. */
  predicate NoneInHand(s: State, d: string) {
    forall k :: k in s.inHand ==> s.inHand[k].device != d
  }

  /** The reports of a device come in the order in which its entries were made if and only if
      none of them was made while a flush still held an older entry of that device. */
  lemma {:induction false} ReportOrderIff(steps: seq<Step>, d: string)
    requires IsRun(INITIAL, steps) && NoneInHand(Run(INITIAL, steps), d)
    ensures
      var s := Run(INITIAL, steps);
      InOrder(s.reported, d)
      <==> forall i :: 0 <= i < |s.reported| && s.reported[i].device == d ==> s.reported[i].id !in s.overtaking
  {
    Reachable(steps);
    var s := Run(INITIAL, steps);
    forall i: nat | i < |s.reported| && s.reported[i].device == d
      ensures s.reported[i].id in s.overtaking <==> Followed(s.reported, i)
    {
      assert Early(s, i) <==> Followed(s.reported, i);
    }
    forall i, j | 0 <= i < j < |s.reported| ensures s.reported[i].id != s.reported[j].id {
      assert Places(s, s.reported[i].id) == 1;
      if s.reported[i].id == s.reported[j].id {
        CountTwice(s.reported, i, j);
        assert false;
      }
    }
  }

  lemma {:induction false} CountTwice(es: seq<Entry>, i: nat, j: nat)
    requires i < j < |es| && es[i].id == es[j].id
    ensures Count(es, es[i].id) >= 2
  {
    if j == |es| - 1 {
      CountPositive(es[..j], i);
    } else {
      CountTwice(es[..|es| - 1], i, j);
    }
  }

  /** Nothing of device `d` is pending or in hand, and report `i` is its last one. */
  predicate LastReport(s: State, d: string, i: nat) {
    && d !in s.pending && NoneInHand(s, d)
    && i < |s.reported| && s.reported[i].device == d
    && forall j :: i < j < |s.reported| ==> s.reported[j].device != d
  }

  /** Once nothing of the device is pending or in hand, its last report is that of its newest
      entry if and only if that entry was not reported while an older one was in hand; and then
      it is the latest status that was asked for. */
  lemma {:induction false} LastReportIsNewestIff(steps: seq<Step>, d: string, i: nat, newest: nat)
    requires IsRun(INITIAL, steps) && LastReport(Run(INITIAL, steps), d, i)
    requires IsNewest(Run(INITIAL, steps), newest) && Run(INITIAL, steps).owner[newest] == d
    ensures
      var s := Run(INITIAL, steps);
      && (s.reported[i].id == newest <==> newest !in s.overtaking)
      && (newest !in s.overtaking ==> LatestOf(s.calls, d) == Some(s.reported[i].status))
  {
    Reachable(steps);
    var s := Run(INITIAL, steps);
    LastIsNewestIff(s, d, i, newest);
    assert LastFor(s.calls, newest) == LatestOf(s.calls, d);
  }

  lemma {:induction false} LastIsNewestIff(s: State, d: string, i: nat, newest: nat)
    requires Labelled(s) && OnePlace(s) && Tracked(s) && LastReport(s, d, i)
    requires IsNewest(s, newest) && s.owner[newest] == d
    ensures s.reported[i].id == newest <==> newest !in s.overtaking
  {
    var j := WhereReported(s, newest);
    assert s.owner[s.reported[i].id] == d;
    assert newest in s.overtaking <==> Early(s, j);
    if j < i {
      assert Places(s, newest) == 1;
      if s.reported[i].id == newest {
        CountTwice(s.reported, j, i);
        assert false;
      }
      assert Followed(s.reported, j);
    }
  }

  lemma {:induction false} WhereReported(s: State, k: nat) returns (j: nat)
    requires Labelled(s) && OnePlace(s) && k < |s.owner|
    requires s.owner[k] !in s.pending && (k in s.inHand ==> s.inHand[k].device != s.owner[k])
    ensures j < |s.reported| && s.reported[j].id == k && s.reported[j].device == s.owner[k]
  {
    assert Places(s, k) == 1;
    j := WhereCounted(s.reported, k);
  }

  lemma {:induction false} WhereCounted(es: seq<Entry>, id: nat) returns (j: nat)
    requires Count(es, id) >= 1
    ensures j < |es| && es[j].id == id
  {
    if es[|es| - 1].id == id {
      j := |es| - 1;
    } else {
      j := WhereCounted(es[..|es| - 1], id);
    }
  }

  /** Otherwise the last report can be an old one: a flush that holds the entry while the next
      window passes. */
  lemma {:induction false} OutdatedLastReport() returns (steps: seq<Step>)
    ensures IsRun(INITIAL, steps)
    ensures
      var s := Run(INITIAL, steps);
      && s.armed == {} && s.fired == {} && s.inHand == map[] && |s.reported| == 2
      && s.reported[1].status == Offline && LatestOf(s.calls, "d") == Some(Online)
  {
    var s0 := INITIAL.(owner := ["d"], calls := [Call(0, "d", Offline)], inHand := map[0 := Entry(0, "d", Offline)]);
    steps := TakeOne([], INITIAL, Offline);
    assert TakenOne(INITIAL, Offline) == s0;
    steps := TakeOne(steps, s0, Online);
    var s1 := TakenOne(s0, Online);
    assert s1.inHand[1] == Entry(1, "d", Online);
    steps := Follow(INITIAL, steps, s1, Report(1));
    var s2 := Next(s1, Report(1));
    steps := Follow(INITIAL, steps, s2, Report(0));
    assert s2.inHand[0] == Entry(0, "d", Offline);
  }

  /** A change of device "d" whose window passes and whose entry a flush then holds. */
  function TakenOne(s: State, status: DeviceStatus): State {
    var e := Entry(|s.owner|, "d", status);
    s.(owner := s.owner + ["d"], calls := s.calls + [Call(e.id, "d", status)], inHand := s.inHand[e.id := e])
  }

  lemma {:induction false} TakeOne(before: seq<Step>, s: State, status: DeviceStatus) returns (steps: seq<Step>)
    requires IsRun(INITIAL, before) && Run(INITIAL, before) == s
    requires s.pending == map[] && s.armed == {} && s.fired == {} && s.phase.Serving?
    ensures IsRun(INITIAL, steps) && Run(INITIAL, steps) == TakenOne(s, status)
  {
    var id := |s.owner|;
    steps := Follow(INITIAL, before, s, Apply("d", status));
    var s1 := Applied(s, "d", status);
    steps := Follow(INITIAL, steps, s1, Fire(id));
    var s2 := Next(s1, Fire(id));
    steps := Follow(INITIAL, steps, s2, Flush(id));
    var s3 := Flushed(s2, id);
    assert s3.pending == map[] && s3.armed == {} && s3.fired == {};
  }

  lemma {:induction false} RunAppend(s: State, steps: seq<Step>, step: Step)
    requires IsRun(s, steps) && Enabled(Run(s, steps), step)
    ensures IsRun(s, steps + [step]) && Run(s, steps + [step]) == Next(Run(s, steps), step)
    decreases |steps|
  {
    if steps == [] {
      assert steps + [step] == [step];
      assert Run(Next(s, step), []) == Next(s, step);
    } else {
      assert (steps + [step])[1..] == steps[1..] + [step];
      RunAppend(Next(s, steps[0]), steps[1..], step);
    }
  }

  // ------------------------------------------------------------------------ the object

  /** What the reporter callback gets to see. */
  function Shown(es: seq<Entry>): (r: seq<(string, DeviceStatus)>)
    ensures |r| == |es|
  {
    if es == [] then [] else Shown(es[..|es| - 1]) + [(es[|es| - 1].device, es[|es| - 1].status)]
  }

  lemma Regroup<T>(all: seq<T>, a: seq<T>, b: seq<T>, x: T)
    requires all == a + b
    ensures all + [x] == a + (b + [x])
  {
  }

  lemma ShownAppend(es: seq<Entry>, e: Entry)
    ensures Shown(es + [e]) == Shown(es) + [(e.device, e.status)]
  {
  }

  /** An entry as the source keeps it, updated in place by later calls. */
  class PendingChange {
    const id: nat
    const device: string
    var status: DeviceStatus

    constructor (id: nat, device: string, status: DeviceStatus)
      ensures this.id == id && this.device == device && this.status == status
    {
      this.id, this.device, this.status := id, device, status;
    }
  }

  /** The locked sections, each tied to its step of the machine. The timers counting and the
      next number belong to the runtime. */
  class Debouncer {
    var pending: map<string, PendingChange>
    var armed: set<nat>
    var nextId: nat
    ghost var state: State

    ghost predicate Valid()
      reads this, pending.Values
    {
      && pending.Keys == state.pending.Keys
      && (forall d :: d in pending ==>
            pending[d].device == d && state.pending[d] == Entry(pending[d].id, d, pending[d].status))
      && armed == state.armed && nextId == |state.owner|
    }

    constructor ()
      ensures Valid() && state == INITIAL
    {
      pending, armed, nextId, state := map[], {}, 0, INITIAL;
    }

    method ApplyChange(device: string, status: DeviceStatus)
      requires Valid()
      modifies this, pending.Values
      ensures Valid() && fresh(pending.Values - old(pending.Values))
      ensures state == Applied(old(state), device, status)
    {
      state := Applied(state, device, status);
      if device in pending {
        var existing := pending[device];
        assert existing in pending.Values;
        existing.status := status;
        return;
      }
      var pc := new PendingChange(nextId, device, status);
      armed := armed + {nextId};
      nextId := nextId + 1;
      pending := pending[device := pc];
    }

    /** The locked half of flush, run by the fired timer `id` of `device`. */
    method Flush(ghost id: nat, device: string) returns (taken: Option<(string, DeviceStatus)>)
      requires Valid() && id < |state.owner| && state.owner[id] == device
      modifies this
      ensures Valid() && pending.Values <= old(pending.Values)
      ensures state == Flushed(old(state), id)
      ensures taken ==
        if device in old(state).pending then Some((device, old(state).pending[device].status)) else None
    {
      state := Flushed(state, id);
      if device !in pending {
        return None;
      }
      var pc := pending[device];
      pending := pending - {device};
      return Some((pc.device, pc.status));
    }

    /** The body of the drain's loop. */
    method DrainDevice(device: string) returns (status: DeviceStatus)
      requires Valid() && state.phase.Draining? && device in pending
      modifies this
      ensures Valid() && pending == old(pending) - {device} && |pending| < |old(pending)|
      ensures state == Next(old(state), DrainOne(device))
      ensures status == old(pending[device].status)
      ensures Shown(state.reported) == Shown(old(state).reported) + [(device, status)]
    {
      var pc := pending[device];
      ShownAppend(state.reported, state.pending[device]);
      state := Next(state, DrainOne(device));
      armed := armed - {pc.id};
      status := pc.status;
      pending := pending - {device};
    }

    /** The shutdown drain, which keeps the lock throughout. */
    method Drain() returns (reports: seq<(string, DeviceStatus)>, ghost steps: seq<Step>)
      requires Valid() && state.phase.Serving?
      modifies this
      ensures Valid() && pending == map[]
      ensures IsRun(old(state), steps) && Run(old(state), steps) == state && state.phase.Drained?
      ensures state.fired == old(state).fired && state.inHand == old(state).inHand
      ensures Shown(state.reported) == Shown(old(state).reported) + reports
    {
      ghost var before := state;
      reports, steps := [], [];
      steps := Follow(before, steps, state, BeginDrain);
      state := Next(state, BeginDrain);
      while pending != map[]
        invariant Valid() && state.phase.Draining?
        invariant IsRun(before, steps) && Run(before, steps) == state
        invariant state.fired == before.fired && state.inHand == before.inHand
        invariant Shown(state.reported) == Shown(before.reported) + reports
        decreases |pending|
      {
        var device :| device in pending;
        steps := Follow(before, steps, state, DrainOne(device));
        Regroup(Shown(state.reported), Shown(before.reported), reports, (device, pending[device].status));
        var status := DrainDevice(device);
        reports := reports + [(device, status)];
      }
      steps := Follow(before, steps, state, EndDrain);
      state := Next(state, EndDrain);
    }
  }

  lemma {:induction false} Follow(s0: State, steps: seq<Step>, s: State, step: Step) returns (longer: seq<Step>)
    requires IsRun(s0, steps) && Run(s0, steps) == s && Enabled(s, step)
    ensures IsRun(s0, longer) && Run(s0, longer) == Next(s, step)
  {
    longer := steps + [step];
    RunAppend(s0, steps, step);
  }
}
