/** The reporter: messages to the cloud, with a bounded buffer for the time the link is down.
    Calls are atomic here; ReporterRaces interleaves them. */
module Reporter {
  import opened Basics

  const BUFFER_SIZE := 256

  datatype Envelope = Envelope(msgType: string, traceId: string, payload: string)

  /** A message with its position in the order of Send calls. */
  datatype Sent = Sent(at: nat, msg: Envelope)

  /** `link` is the number of writes the installed connection still takes before it breaks
      for good; `None` is no connection. The other fields are histories. */
  datatype State = State(link: Option<nat>, buf: seq<Sent>, sent: nat, delivered: seq<Sent>, evicted: seq<Sent>)

  const INITIAL := State(None, [], 0, [], [])

  function Buffered(s: State, m: Sent): State {
    if |s.buf| >= BUFFER_SIZE then s.(buf := s.buf[1..] + [m], evicted := s.evicted + [s.buf[0]])
    else s.(buf := s.buf + [m])
  }

  function Delivered(s: State, m: Sent): State
    requires s.link.Some? && s.link.value > 0
  {
    s.(link := Some(s.link.value - 1), delivered := s.delivered + [m])
  }

  predicate CanWrite(s: State) { s.link.Some? && s.link.value > 0 }

  /** One attempt to write `m`, buffering it on failure. */
  function Offered(s: State, m: Sent): State {
    if CanWrite(s) then Delivered(s, m) else Buffered(s, m)
  }

  function OfferedAll(s: State, ms: seq<Sent>): State
    decreases |ms|
  {
    if ms == [] then s else OfferedAll(Offered(s, ms[0]), ms[1..])
  }

  function Sending(s: State, msg: Envelope): State {
    Offered(s.(sent := s.sent + 1), Sent(s.sent, msg))
  }

  /** UpdateConn, with the flush that follows a connection. */
  function Updated(s: State, link: Option<nat>): State {
    if link.None? then s.(link := None) else OfferedAll(s.(link := link, buf := []), s.buf)
  }

  /** The messages themselves. */
  function Msgs(ms: seq<Sent>): (es: seq<Envelope>)
    ensures |es| == |ms| && forall i | 0 <= i < |ms| :: es[i] == ms[i].msg
  {
    seq(|ms|, i requires 0 <= i < |ms| => ms[i].msg)
  }

  lemma MsgsConcat(a: seq<Sent>, b: seq<Sent>)
    ensures Msgs(a + b) == Msgs(a) + Msgs(b)
  {
  }

  lemma Sliced(before: seq<Sent>, middle: seq<Sent>, after: seq<Sent>)
    requires before <= middle <= after
    ensures after[|before|..] == middle[|before|..] + after[|middle|..]
  {
    assert after == middle + after[|middle|..];
  }

  lemma Joined(wire: seq<Envelope>, a: seq<Envelope>, b: seq<Envelope>)
    ensures wire + a + b == wire + (a + b)
  {
  }

  lemma Wired(wire: seq<Envelope>, before: seq<Sent>, middle: seq<Sent>, after: seq<Sent>)
    requires before <= middle <= after
    ensures wire + Msgs(middle[|before|..]) + Msgs(after[|middle|..]) == wire + Msgs(after[|before|..])
  {
    Sliced(before, middle, after);
    MsgsConcat(middle[|before|..], after[|middle|..]);
    Joined(wire, Msgs(middle[|before|..]), Msgs(after[|middle|..]));
  }

  // ------------------------------------------------------------------ the code

  /** A connection that stays broken once a write has failed. */
  class Conn {
    var left: nat
    var wire: seq<Envelope>

    constructor (left: nat)
      ensures this.left == left && wire == []
    {
      this.left, wire := left, [];
    }

    method Write(msg: Envelope) returns (ok: bool)
      modifies this
      ensures ok == (old(left) > 0)
      ensures wire == if ok then old(wire) + [msg] else old(wire)
      ensures left == if ok then old(left) - 1 else 0
    {
      if left == 0 {
        return false;
      }
      wire := wire + [msg];
      left := left - 1;
      return true;
    }
  }

  class Reporter {
    var conn: Conn?
    var buf: seq<Envelope>
    ghost var view: State

    ghost predicate Valid()
      reads this, conn
    {
      && |buf| == |view.buf| && (forall i | 0 <= i < |buf| :: buf[i] == view.buf[i].msg)
      && view.link == if conn == null then None else Some(conn.left)
    }

    /** What went over `c` since `before` is what the history delivered since. */
    static ghost predicate OnWire(c: Conn?, wire: seq<Envelope>, before: seq<Sent>, after: seq<Sent>)
      reads c
    {
      before <= after && if c == null then after == before else c.wire == wire + Msgs(after[|before|..])
    }

    constructor ()
      ensures Valid() && view == INITIAL
    {
      conn, buf, view := null, [], INITIAL;
    }

    method Send(msg: Option<Envelope>) returns (ok: bool)
      requires Valid()
      modifies this, conn
      ensures Valid() && conn == old(conn)
      ensures view == if msg.None? then old(view) else Sending(old(view), msg.value)
      ensures OnWire(conn, if conn == null then [] else old(conn.wire), old(view).delivered, view.delivered)
      ensures ok <==> msg.None? || conn == null || CanWrite(old(view))
    {
      if msg.None? {
        return true;
      }
      view := view.(sent := view.sent + 1);
      ok := Offer(msg.value, Sent(view.sent - 1, msg.value));
      // Without a connection the message is buffered and no error is reported.
      ok := ok || conn == null;
    }

    /** Write `msg`, or buffer it when there is no connection or the write fails. */
    method Offer(msg: Envelope, ghost m: Sent) returns (ok: bool)
      requires Valid() && m.msg == msg
      modifies this, conn
      ensures Valid() && conn == old(conn)
      ensures view == Offered(old(view), m) && ok == CanWrite(old(view))
      ensures OnWire(conn, if conn == null then [] else old(conn.wire), old(view).delivered, view.delivered)
    {
      if conn != null {
        ok := conn.Write(msg);
        if ok {
          view := Delivered(view, m);
          return;
        }
      }
      Buffer(msg, m);
      return false;
    }

    method Buffer(msg: Envelope, ghost m: Sent)
      requires Valid() && m.msg == msg
      modifies this
      ensures Valid() && conn == old(conn) && view == Buffered(old(view), m)
    {
      if |buf| >= BUFFER_SIZE {
        buf := buf[1..];
      }
      buf := buf + [msg];
      view := Buffered(view, m);
    }

    method UpdateConn(conn: Conn?)
      requires Valid()
      modifies this, conn
      ensures Valid() && this.conn == conn
      ensures view == Updated(old(view), if conn == null then None else Some(old(conn.left)))
      ensures OnWire(conn, if conn == null then [] else old(conn.wire), old(view).delivered, view.delivered)
    {
      this.conn := conn;
      view := view.(link := if conn == null then None else Some(conn.left));
      if conn != null {
        FlushBuffer();
      }
    }

    method FlushBuffer()
      requires Valid() && conn != null
      modifies this, conn
      ensures Valid() && conn == old(conn)
      ensures view == OfferedAll(old(view).(buf := []), old(view).buf)
      ensures OnWire(conn, old(conn.wire), old(view).delivered, view.delivered)
    {
      if |buf| == 0 {
        assert old(view).buf == [];
        return;
      }
      var pending := buf;
      ghost var ms := view.buf;
      buf, view := [], view.(buf := []);
      ghost var goal := OfferedAll(view, ms);
      var i := 0;
      while i < |pending|
        invariant i <= |pending| && Valid() && conn == old(conn)
        invariant OfferedAll(view, ms[i..]) == goal
        invariant OnWire(conn, old(conn.wire), old(view).delivered, view.delivered)
      {
        assert ms[i..][0] == ms[i] && ms[i..][1..] == ms[i + 1..];
        ghost var middle := view.delivered;
        var ok := Offer(pending[i], ms[i]);
        Wired(old(conn.wire), old(view).delivered, middle, view.delivered);
        i := i + 1;
      }
    }
  }

  // ---------------------------------------------------------------- whole runs

  datatype Call = DoSend(msg: Envelope) | DoUpdate(link: Option<nat>)

  function Apply(s: State, c: Call): State {
    match c
    case DoSend(m) => Sending(s, m)
    case DoUpdate(l) => Updated(s, l)
  }

  function ApplyAll(s: State, calls: seq<Call>): State
    decreases |calls|
  {
    if calls == [] then s else ApplyAll(Apply(s, calls[0]), calls[1..])
  }

  ghost predicate Increasing(ms: seq<Sent>) {
    forall i, j | 0 <= i < j < |ms| :: ms[i].at < ms[j].at
  }

  ghost predicate Below(ms: seq<Sent>, n: nat) {
    forall i | 0 <= i < |ms| :: ms[i].at < n
  }

  ghost predicate Holds(ms: seq<Sent>, at: nat) {
    exists i :: 0 <= i < |ms| && ms[i].at == at
  }

  /** Every message is in exactly one place, in order, and a working link leaves nothing
      behind in the buffer. */
  ghost predicate Inv(s: State) {
    && Increasing(s.delivered + s.buf) && Increasing(s.evicted + s.buf)
    && Below(s.delivered, s.sent) && Below(s.buf, s.sent) && Below(s.evicted, s.sent)
    && (forall at: nat | at < s.sent :: Holds(s.delivered, at) || Holds(s.buf, at) || Holds(s.evicted, at))
    && |s.delivered| + |s.buf| + |s.evicted| == s.sent
    && |s.buf| <= BUFFER_SIZE
    && (CanWrite(s) ==> s.buf == [])
  }

  lemma {:induction false} HoldsAppend(ms: seq<Sent>, m: Sent, at: nat)
    ensures Holds(ms + [m], at) <==> Holds(ms, at) || m.at == at
  {
    if i :| 0 <= i < |ms| && ms[i].at == at {
      assert (ms + [m])[i].at == at;
    }
    assert (ms + [m])[|ms|] == m;
  }

  lemma {:induction false} HoldsTail(ms: seq<Sent>, at: nat)
    requires ms != []
    ensures Holds(ms, at) <==> ms[0].at == at || Holds(ms[1..], at)
  {
  }

  lemma {:induction false} SendingKeepsInv(s: State, msg: Envelope)
    requires Inv(s)
    ensures Inv(Sending(s, msg))
  {
    var m := Sent(s.sent, msg);
    var s' := Sending(s, msg);
    forall at: nat | at < s'.sent
      ensures Holds(s'.delivered, at) || Holds(s'.buf, at) || Holds(s'.evicted, at)
    {
      HoldsAppend(s.delivered, m, at);
      HoldsAppend(s.buf, m, at);
      if |s.buf| >= BUFFER_SIZE {
        HoldsTail(s.buf, at);
        HoldsAppend(s.evicted, s.buf[0], at);
        HoldsAppend(s.buf[1..], m, at);
      }
    }
    if CanWrite(s) {
      assert s'.delivered + s'.buf == s'.delivered && s.delivered + s.buf == s.delivered;
      assert s'.evicted + s'.buf == s.evicted + s.buf;
    } else if |s.buf| >= BUFFER_SIZE {
      EvictionOrder(s, m);
    } else {
      assert s'.delivered + s'.buf == (s.delivered + s.buf) + [m];
      assert s'.evicted + s'.buf == (s.evicted + s.buf) + [m];
    }
  }

  lemma {:induction false} EvictionOrder(s: State, m: Sent)
    requires Inv(s) && m.at >= s.sent && |s.buf| >= BUFFER_SIZE
    ensures Increasing(s.delivered + (s.buf[1..] + [m]))
    ensures Increasing((s.evicted + [s.buf[0]]) + (s.buf[1..] + [m]))
  {
    assert (s.evicted + [s.buf[0]]) + (s.buf[1..] + [m]) == (s.evicted + s.buf) + [m];
    var a, b := s.delivered + s.buf, s.delivered + (s.buf[1..] + [m]);
    forall i, j | 0 <= i < j < |b| ensures b[i].at < b[j].at {
      var i' := if i < |s.delivered| then i else i + 1;
      var j' := if j < |s.delivered| then j else j + 1;
      assert i < |b| - 1 ==> b[i] == a[i'];
      assert j < |b| - 1 ==> b[j] == a[j'];
    }
  }

  lemma {:induction false} OneFurther(a: seq<Sent>, ms: seq<Sent>, n: nat)
    requires 0 < n <= |ms|
    ensures (a + [ms[0]]) + ms[1..][..n - 1] == a + ms[..n] && ms[1..][n - 1..] == ms[n..]
  {
    assert [ms[0]] + ms[1..][..n - 1] == ms[..n];
  }

  /** On a broken link everything goes back to the buffer, in order. */
  lemma {:induction false} FlushKeeps(s: State, ms: seq<Sent>)
    requires s.link == Some(0) && |s.buf| + |ms| <= BUFFER_SIZE
    ensures OfferedAll(s, ms) == s.(buf := s.buf + ms)
    decreases |ms|
  {
    if ms == [] {
      assert s.buf + [] == s.buf;
    } else {
      FlushKeeps(Offered(s, ms[0]), ms[1..]);
      OneFurther(s.buf, ms, |ms|);
      assert ms[1..][..|ms| - 1] == ms[1..] && ms[..|ms|] == ms;
    }
  }

  /** `n` of the messages delivered, the rest back in the buffer. */
  function FlushedTo(s: State, ms: seq<Sent>, n: nat): State
    requires n <= |ms| && s.link.Some? && n <= s.link.value
  {
    s.(link := Some(s.link.value - n), delivered := s.delivered + ms[..n], buf := s.buf + ms[n..])
  }

  lemma {:induction false} FlushedFurther(s: State, ms: seq<Sent>, n: nat)
    requires 0 < n <= |ms| && s.link.Some? && n <= s.link.value
    ensures FlushedTo(Delivered(s, ms[0]), ms[1..], n - 1) == FlushedTo(s, ms, n)
  {
    OneFurther(s.delivered, ms, n);
  }

  lemma {:induction false} NothingFlushed(s: State, ms: seq<Sent>)
    requires s.link.Some?
    ensures FlushedTo(s, ms, 0) == s.(buf := s.buf + ms)
  {
    assert s.delivered + ms[..0] == s.delivered && ms[0..] == ms;
  }

  /** A flush delivers, in order, as many buffered messages as the link takes and keeps the
      rest, in order: nothing is lost and nothing is evicted. */
  lemma {:induction false} FlushDelivers(s: State, ms: seq<Sent>)
    requires s.link.Some? && |s.buf| + |ms| <= BUFFER_SIZE && (CanWrite(s) ==> s.buf == [])
    ensures OfferedAll(s, ms) == FlushedTo(s, ms, if s.link.value < |ms| then s.link.value else |ms|)
    decreases |ms|
  {
    if ms == [] {
      NothingFlushed(s, ms);
      assert s.buf + [] == s.buf;
    } else if s.link.value == 0 {
      FlushKeeps(s, ms);
      NothingFlushed(s, ms);
    } else {
      FlushDelivers(Delivered(s, ms[0]), ms[1..]);
      FlushedFurther(s, ms, if s.link.value < |ms| then s.link.value else |ms|);
    }
  }

  lemma {:induction false} DropMiddle(a: seq<Sent>, b: seq<Sent>, n: nat)
    requires Increasing(a + b) && n <= |b|
    ensures Increasing(a + b[n..])
  {
    var c := a + b[n..];
    forall i, j | 0 <= i < j < |c| ensures c[i].at < c[j].at {
      assert c[i] == (a + b)[if i < |a| then i else i + n];
      assert c[j] == (a + b)[if j < |a| then j else j + n];
    }
  }

  /** Moving the first `n` buffered messages to the delivered ones loses none. */
  lemma {:induction false} HoldsSplit(a: seq<Sent>, b: seq<Sent>, n: nat, at: nat)
    requires n <= |b|
    ensures Holds(a, at) || Holds(b, at) ==> Holds(a + b[..n], at) || Holds(b[n..], at)
  {
    if i :| 0 <= i < |a| && a[i].at == at {
      assert (a + b[..n])[i].at == at;
    } else if i :| 0 <= i < |b| && b[i].at == at {
      if i < n {
        assert (a + b[..n])[|a| + i].at == at;
      } else {
        assert b[n..][i - n].at == at;
      }
    }
  }

  /** The state after the first `n` buffered messages were delivered. */
  function Moved(s: State, n: nat, link: Option<nat>): State
    requires n <= |s.buf|
  {
    s.(link := link, delivered := s.delivered + s.buf[..n], buf := s.buf[n..])
  }

  lemma {:induction false} MovedKeepsInv(s: State, n: nat, link: Option<nat>)
    requires Inv(s) && n <= |s.buf| && (link.Some? && link.value > 0 ==> n == |s.buf|)
    ensures Inv(Moved(s, n, link))
  {
    var delivered, buf := s.delivered + s.buf[..n], s.buf[n..];
    assert delivered + buf == s.delivered + s.buf;
    DropMiddle(s.evicted, s.buf, n);
    forall at: nat | at < s.sent ensures Holds(delivered, at) || Holds(buf, at) || Holds(s.evicted, at) {
      HoldsSplit(s.delivered, s.buf, n, at);
    }
  }

  lemma {:induction false} UpdatedMoves(s: State, k: nat)
    requires |s.buf| <= BUFFER_SIZE
    ensures
      var n := if k < |s.buf| then k else |s.buf|;
      Updated(s, Some(k)) == Moved(s, n, Some(k - n))
  {
    FlushDelivers(s.(link := Some(k), buf := []), s.buf);
  }

  lemma {:induction false} UpdatedKeepsInv(s: State, link: Option<nat>)
    requires Inv(s)
    ensures Inv(Updated(s, link))
  {
    if link.Some? {
      var n := if link.value < |s.buf| then link.value else |s.buf|;
      UpdatedMoves(s, link.value);
      MovedKeepsInv(s, n, Some(link.value - n));
    }
  }

  lemma {:induction false} RunKeepsInv(s: State, calls: seq<Call>)
    requires Inv(s)
    ensures Inv(ApplyAll(s, calls))
    decreases |calls|
  {
    if calls != [] {
      match calls[0] {
        case DoSend(m) => SendingKeepsInv(s, m);
        case DoUpdate(l) => UpdatedKeepsInv(s, l);
      }
      RunKeepsInv(Apply(s, calls[0]), calls[1..]);
    }
  }

  /** Over every run of Send and UpdateConn: what was delivered, followed by the buffer, is
      in the order of the Send calls without duplicates; a message that is in neither was
      evicted; and every evicted message is older than everything still buffered. */
  lemma {:induction false} InOrderDelivery(calls: seq<Call>)
    ensures
      var s := ApplyAll(INITIAL, calls);
      && Increasing(s.delivered + s.buf)
      && Increasing(s.evicted + s.buf)
      && |s.delivered| + |s.buf| + |s.evicted| == s.sent
      && (forall at: nat | at < s.sent :: Holds(s.delivered, at) || Holds(s.buf, at) || Holds(s.evicted, at))
      && |s.buf| <= BUFFER_SIZE
  {
    InitialInv();
    RunKeepsInv(INITIAL, calls);
  }

  /** The buffer holds exactly 256 messages, all newer than `m`. */
  ghost predicate FullAfter(s: State, m: Sent) {
    |s.buf| == 256 && forall i | 0 <= i < |s.buf| :: s.buf[i].at > m.at
  }

  /** A message is evicted only when 256 newer messages are waiting: right after the call
      that evicted it the buffer is full and everything in it is newer. */
  lemma {:induction false} EvictedOnlyWhenFull(calls: seq<Call>, k: nat) returns (n: nat)
    requires k < |ApplyAll(INITIAL, calls).evicted|
    ensures 0 < n <= |calls|
    ensures
      var s := ApplyAll(INITIAL, calls[..n]);
      k < |s.evicted| && s.evicted[k] == ApplyAll(INITIAL, calls).evicted[k] && FullAfter(s, s.evicted[k])
    decreases |calls|
  {
    var m := |calls| - 1;
    var before := ApplyAll(INITIAL, calls[..m]);
    ApplySnoc(INITIAL, calls);
    InitialInv();
    RunKeepsInv(INITIAL, calls[..m]);
    OneEviction(before, calls[m]);
    if k < |before.evicted| {
      n := EvictedOnlyWhenFull(calls[..m], k);
      assert calls[..m][..n] == calls[..n];
    } else {
      n := |calls|;
      assert calls[..n] == calls;
    }
  }

  lemma InitialInv()
    ensures Inv(INITIAL)
  {
  }

  lemma {:induction false} ApplySnoc(s: State, calls: seq<Call>)
    requires calls != []
    ensures ApplyAll(s, calls) == Apply(ApplyAll(s, calls[..|calls| - 1]), calls[|calls| - 1])
    decreases |calls|
  {
    if |calls| > 1 {
      ApplySnoc(Apply(s, calls[0]), calls[1..]);
      assert calls[1..][..|calls| - 2] == calls[..|calls| - 1][1..];
    }
  }

  lemma {:induction false} OneEviction(s: State, c: Call)
    requires Inv(s)
    ensures
      var s' := Apply(s, c);
      || s'.evicted == s.evicted
      || (exists m :: s'.evicted == s.evicted + [m] && FullAfter(s', m))
  {
    if c.DoUpdate? {
      if c.link.Some? {
        UpdatedMoves(s, c.link.value);
      }
    } else if !CanWrite(s) && |s.buf| >= BUFFER_SIZE {
      var s' := Apply(s, c);
      forall i | 0 < i < |s.buf| ensures s.buf[i].at > s.buf[0].at {
        assert (s.evicted + s.buf)[|s.evicted|] == s.buf[0] && (s.evicted + s.buf)[|s.evicted| + i] == s.buf[i];
      }
      assert s'.evicted == s.evicted + [s.buf[0]] && FullAfter(s', s.buf[0]);
    }
  }

  // ------------------------------------------- links that fail and then recover

  /** The pending messages whose write succeeds, and those that go back to the buffer, for
      arbitrary write outcomes. */
  function Through(ms: seq<Sent>, ok: seq<bool>): seq<Sent>
    requires |ms| == |ok|
  {
    if ms == [] then [] else (if ok[0] then [ms[0]] else []) + Through(ms[1..], ok[1..])
  }

  function Kept(ms: seq<Sent>, ok: seq<bool>): seq<Sent>
    requires |ms| == |ok|
  {
    if ms == [] then [] else (if ok[0] then [] else [ms[0]]) + Kept(ms[1..], ok[1..])
  }

  /** No write succeeds after one has failed. */
  predicate StaysBroken(ok: seq<bool>) {
    forall i, j | 0 <= i < j < |ok| && !ok[i] :: !ok[j]
  }

  lemma {:induction false} AllKept(ms: seq<Sent>, ok: seq<bool>)
    requires |ms| == |ok| && forall i | 0 <= i < |ok| :: !ok[i]
    ensures Through(ms, ok) == [] && Kept(ms, ok) == ms
  {
    if ms != [] {
      AllKept(ms[1..], ok[1..]);
    }
  }

  lemma {:induction false} FirstThrough(ms: seq<Sent>, ok: seq<bool>)
    requires |ms| == |ok| && exists j :: 0 <= j < |ok| && ok[j]
    ensures Through(ms, ok) != [] && Through(ms, ok)[0] in ms
  {
    var j :| 0 <= j < |ok| && ok[j];
    if !ok[0] {
      assert ok[1..][j - 1];
      FirstThrough(ms[1..], ok[1..]);
    }
  }

  lemma {:induction false} StaysBrokenTail(ok: seq<bool>)
    requires ok != [] && ok[0]
    ensures StaysBroken(ok) <==> StaysBroken(ok[1..])
  {
  }

  lemma {:induction false} ConsEqual(h: Sent, a: seq<Sent>, b: seq<Sent>, ms: seq<Sent>)
    requires ms != [] && ms[0] == h
    ensures ([h] + a) + b == ms <==> a + b == ms[1..]
  {
  }

  /** Why the link has to stay broken: a flush keeps the order of the messages, delivered
      ones before kept ones, exactly when no write succeeds after a failed one. */
  lemma {:induction false} FlushOrderIff(ms: seq<Sent>, ok: seq<bool>)
    requires |ms| == |ok| && Increasing(ms)
    ensures Through(ms, ok) + Kept(ms, ok) == ms <==> StaysBroken(ok)
  {
    if ms != [] {
      if ok[0] {
        FlushOrderIff(ms[1..], ok[1..]);
        StaysBrokenTail(ok);
        ConsEqual(ms[0], Through(ms[1..], ok[1..]), Kept(ms[1..], ok[1..]), ms);
      } else if exists j :: 0 <= j < |ok| && ok[j] {
        var j :| 0 <= j < |ok| && ok[j];
        FirstThrough(ms[1..], ok[1..]) by { assert ok[1..][j - 1]; }
        var first := Through(ms[1..], ok[1..])[0];
        assert (Through(ms, ok) + Kept(ms, ok))[0] == first && first.at > ms[0].at;
      } else {
        AllKept(ms, ok);
        assert [] + ms == ms;
      }
    }
  }

  // ------------------------------------------------------- whose message is whose

  /** The messages of the Send calls, in order. */
  function Given(calls: seq<Call>): seq<Envelope> {
    if calls == [] then []
    else
      var c := calls[|calls| - 1];
      Given(calls[..|calls| - 1]) + if c.DoSend? then [c.msg] else []
  }

  /** Every entry holds the message of the Send call with its number. */
  ghost predicate Faithful(ms: seq<Sent>, given: seq<Envelope>) {
    forall i | 0 <= i < |ms| :: ms[i].at < |given| && ms[i].msg == given[ms[i].at]
  }

  ghost predicate AllFaithful(s: State, given: seq<Envelope>) {
    s.sent == |given| && Faithful(s.delivered, given) && Faithful(s.buf, given) && Faithful(s.evicted, given)
  }

  lemma {:induction false} SendingFaithful(s: State, msg: Envelope, given: seq<Envelope>)
    requires AllFaithful(s, given)
    ensures AllFaithful(Sending(s, msg), given + [msg])
  {
  }

  lemma {:induction false} UpdatedFaithful(s: State, link: Option<nat>, given: seq<Envelope>)
    requires AllFaithful(s, given) && |s.buf| <= BUFFER_SIZE
    ensures AllFaithful(Updated(s, link), given)
  {
    if link.Some? {
      UpdatedMoves(s, link.value);
    }
  }

  /** Over every run each message delivered, buffered or evicted is the argument of the Send call
      with its number, and the buffer holds at most 256. */
  lemma {:induction false} MessagesAreGiven(calls: seq<Call>)
    ensures AllFaithful(ApplyAll(INITIAL, calls), Given(calls)) && |ApplyAll(INITIAL, calls).buf| <= 256
    decreases |calls|
  {
    InOrderDelivery(calls);
    if calls != [] {
      var n := |calls| - 1;
      ApplySnoc(INITIAL, calls);
      MessagesAreGiven(calls[..n]);
      match calls[n]
      case DoSend(m) => SendingFaithful(ApplyAll(INITIAL, calls[..n]), m, Given(calls[..n]));
      case DoUpdate(l) => UpdatedFaithful(ApplyAll(INITIAL, calls[..n]), l, Given(calls[..n]));
    }
  }
}
