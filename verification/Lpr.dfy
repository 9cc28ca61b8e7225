/** The LPR exchange: what goes over the wire, in which order, and what a receiver that goes by
    the announced byte count makes of it. A char stands for a byte. The framing is the code's
    own: sections 6.2 and 6.3 of RFC 1179 number the two commands the other way round and end
    a command line with a line feed. */
module Lpr {
  import opened Basics

  const NUL: char := 0 as char
  const DATA_COMMAND: char := 2 as char
  const CONTROL_COMMAND: char := 3 as char
  const LOCAL_HOST := "localhost"

  datatype Event =
    | Out(c: char)   // a byte that reached the connection
    | In(b: char)    // an acknowledgement byte read

  // --------------------------------------------------------------------- framing

  function Digit(d: nat): (c: char)
    requires d < 10
    ensures '0' <= c <= '9' && c as int - '0' as int == d
  {
    ('0' as int + d) as char
  }

  /** fmt's %d of a length. */
  function Decimal(n: nat): string {
    if n < 10 then [Digit(n)] else Decimal(n / 10) + [Digit(n % 10)]
  }

  function Header(command: char, length: nat, name: string): string {
    [command] + Decimal(length) + " " + name + [NUL]
  }

  function DataName(): string { "dfA001" + LOCAL_HOST }

  function ControlName(): string { "cfA001" + LOCAL_HOST }

  function ControlFile(queue: string): string {
    "H" + LOCAL_HOST + "\nPagent\nfdfA001\nNdoc\nUdfA001\nL" + queue + "\n"
  }

  // ---------------------------------------------------------------- the receiver

  datatype File = File(command: char, name: string, body: string)

  /** Where the receiver is. In `Owes` it has to acknowledge before the sender may go on. */
  datatype Receiver =
    | Idle
    | Counting(command: char, length: nat)
    | Naming(command: char, length: nat, name: string)
    | OwesHeader(command: char, length: nat, name: string)
    | Taking(command: char, length: nat, name: string, body: string)
    | OwesFile(file: File)
    | Refused
    | Broken   // a byte that does not fit, or one sent out of turn

  datatype Watched = Watched(state: Receiver, files: seq<File>)

  /** Goes by the decimal count, never by the contents; it shares none of the sender's names. */
  function Receive(w: Watched, c: char): Watched {
    match w.state
    case Idle =>
      w.(state := if c == 2 as char || c == 3 as char then Counting(c, 0) else Broken)
    case Counting(command, n) =>
      if '0' <= c <= '9' then w.(state := Counting(command, 10 * n + (c as int - '0' as int)))
      else w.(state := if c == ' ' then Naming(command, n, "") else Broken)
    case Naming(command, n, name) =>
      w.(state := if c == 0 as char then OwesHeader(command, n, name) else Naming(command, n, name + [c]))
    case Taking(command, n, name, body) =>
      if |body| < n then w.(state := Taking(command, n, name, body + [c]))
      else w.(state := if c == 0 as char then OwesFile(File(command, name, body)) else Broken)
    case _ => w.(state := Broken)
  }

  /** The receiver watching both directions; a zero byte accepts. */
  function Watch(w: Watched, e: Event): Watched {
    match e
    case Out(c) => Receive(w, c)
    case In(b) =>
      match w.state
      case OwesHeader(command, n, name) =>
        w.(state := if b == 0 as char then Taking(command, n, name, "") else Refused)
      case OwesFile(file) =>
        if b == 0 as char then Watched(Idle, w.files + [file]) else w.(state := Refused)
      case _ => w.(state := Broken)
  }

  function WatchAll(w: Watched, es: seq<Event>): Watched
    decreases |es|
  {
    if es == [] then w else WatchAll(Watch(w, es[0]), es[1..])
  }

  const START := Watched(Idle, [])

  // ------------------------------------------------------------------ the script

  function Outs(s: string): (es: seq<Event>)
    ensures |es| == |s| && forall i :: 0 <= i < |s| ==> es[i] == Out(s[i])
  {
    seq(|s|, i requires 0 <= i < |s| => Out(s[i]))
  }

  /** Bytes sent in one go and accepted. */
  function Part(s: string): seq<Event> {
    Outs(s) + [In(NUL)]
  }

  /** One file sent and accepted. */
  function FileScript(command: char, name: string, body: string): seq<Event> {
    Part(Header(command, |body|, name)) + Part(body + [NUL])
  }

  function Script(payload: string, queue: string): seq<Event> {
    FileScript(DATA_COMMAND, DataName(), payload) + FileScript(CONTROL_COMMAND, ControlName(), ControlFile(queue))
  }

  /** The exchange stopped early: after some part of the script, or on a refusal where the
      script has an acceptance. */
  predicate CutShort(es: seq<Event>, script: seq<Event>) {
    exists n :: 0 <= n < |script| && CutAt(es, script, n)
  }

  predicate CutAt(es: seq<Event>, script: seq<Event>, n: nat) {
    && n < |script| && n <= |es| <= n + 1 && es[..n] == script[..n]
    && (|es| == n + 1 ==> script[n] == In(NUL) && es[n].In? && es[n].b != NUL)
  }

  lemma {:induction false} CutFirst(es: seq<Event>, a: seq<Event>, b: seq<Event>)
    requires CutShort(es, a)
    ensures CutShort(es, a + b)
  {
    var n :| 0 <= n < |a| && CutAt(es, a, n);
    assert (a + b)[..n] == a[..n];
    assert CutAt(es, a + b, n);
  }

  lemma {:induction false} CutSecond(es: seq<Event>, a: seq<Event>, b: seq<Event>)
    requires CutShort(es, b)
    ensures CutShort(a + es, a + b)
  {
    var n :| 0 <= n < |b| && CutAt(es, b, n);
    assert (a + es)[..|a| + n] == a + es[..n];
    assert (a + b)[..|a| + n] == a + b[..n];
    assert CutAt(a + es, a + b, |a| + n);
  }

  lemma CutInPart(all: string, s: string, k: nat)
    requires s <= all && k <= |s|
    ensures CutShort(Outs(s)[..k], Part(all))
  {
    assert Part(all)[..k] == Outs(s)[..k];
    assert CutAt(Outs(s)[..k], Part(all), k);
  }

  lemma CutAtAck(s: string, r: Option<char>)
    requires r != Some(NUL)
    ensures CutShort(Outs(s) + (if r.Some? then [In(r.value)] else []), Part(s))
  {
    assert Part(s)[..|s|] == Outs(s);
    assert (Outs(s) + (if r.Some? then [In(r.value)] else []))[..|s|] == Outs(s);
    assert CutAt(Outs(s) + (if r.Some? then [In(r.value)] else []), Part(s), |s|);
  }

  // ------------------------------------------------------------------- the sender

  /** Write operation `i` succeeds, or fails after that many of the bytes not yet flushed got
      out; acknowledgement `j` is a byte or an error. */
  datatype Peer = Peer(writes: nat -> Option<nat>, acks: nat -> Option<char>)

  predicate WritesOk(peer: Peer, from: nat, n: nat) {
    forall i :: from <= i < from + n ==> peer.writes(i) == None
  }

  /** The buffered writer and reader over one connection. */
  class Connection {
    const peer: Peer
    var trace: seq<Event>
    var buffered: string
    var writes: nat
    var acks: nat

    constructor (peer: Peer)
      ensures this.peer == peer && trace == [] && buffered == "" && writes == 0 && acks == 0
    {
      this.peer, trace, buffered, writes, acks := peer, [], "", 0, 0;
    }

    /** Fprintf, Write, WriteString and WriteByte. */
    method Write(s: string) returns (ok: bool, ghost k: nat)
      modifies this
      ensures ok <==> peer.writes(old(writes)) == None
      ensures writes == old(writes) + 1 && acks == old(acks) && buffered == old(buffered) + s
      ensures ok ==> trace == old(trace)
      ensures !ok ==> k <= |buffered| && trace == old(trace) + Outs(buffered)[..k]
    {
      buffered := buffered + s;
      ok, k := Attempt();
    }

    method Flush() returns (ok: bool, ghost k: nat)
      modifies this
      ensures ok <==> peer.writes(old(writes)) == None
      ensures writes == old(writes) + 1 && acks == old(acks)
      ensures ok ==> buffered == "" && trace == old(trace) + Outs(old(buffered))
      ensures !ok ==> k <= |old(buffered)| && trace == old(trace) + Outs(old(buffered))[..k]
    {
      ok, k := Attempt();
      if ok {
        trace := trace + Outs(buffered);
        buffered := "";
      }
    }

    method Attempt() returns (ok: bool, ghost k: nat)
      modifies this
      ensures ok <==> peer.writes(old(writes)) == None
      ensures writes == old(writes) + 1 && acks == old(acks) && buffered == old(buffered)
      ensures ok ==> trace == old(trace)
      ensures !ok ==> k <= |buffered| && trace == old(trace) + Outs(buffered)[..k]
    {
      var r := peer.writes(writes);
      writes := writes + 1;
      if r == None {
        return true, 0;
      }
      var out := if r.value <= |buffered| then r.value else |buffered|;
      trace := trace + Outs(buffered)[..out];
      return false, out;
    }

    method ReadAck() returns (ok: bool)
      modifies this
      ensures ok <==> peer.acks(old(acks)) == Some(NUL)
      ensures acks == old(acks) + 1 && writes == old(writes) && buffered == old(buffered)
      ensures trace == old(trace) + if peer.acks(old(acks)).Some? then [In(peer.acks(old(acks)).value)] else []
    {
      var r := peer.acks(acks);
      acks := acks + 1;
      if r == None {
        return false;
      }
      trace := trace + [In(r.value)];
      return r.value == NUL;
    }

    /** Flush and wait: what was buffered goes out and is acknowledged. */
    method FlushAndWait() returns (ok: bool, ghost sent: seq<Event>)
      modifies this
      ensures ok <==> peer.writes(old(writes)) == None && peer.acks(old(acks)) == Some(NUL)
      ensures ok ==> buffered == "" && writes == old(writes) + 1 && acks == old(acks) + 1
      ensures trace == old(trace) + sent
      ensures if ok then sent == Part(old(buffered)) else CutShort(sent, Part(old(buffered)))
    {
      ghost var all := buffered;
      ghost var k;
      ok, k := Flush();
      if !ok {
        CutInPart(all, all, k);
        return false, Outs(all)[..k];
      }
      ghost var r := peer.acks(acks);
      ok := ReadAck();
      sent := Outs(all) + if r.Some? then [In(r.value)] else [];
      if !ok {
        CutAtAck(all, r);
      }
    }

    /** The announcement of a file, and its acknowledgement. */
    method SendHeader(header: string) returns (ok: bool, ghost sent: seq<Event>)
      requires buffered == ""
      modifies this
      ensures ok <==> WritesOk(peer, old(writes), 2) && peer.acks(old(acks)) == Some(NUL)
      ensures ok ==> buffered == "" && writes == old(writes) + 2 && acks == old(acks) + 1
      ensures trace == old(trace) + sent && if ok then sent == Part(header) else CutShort(sent, Part(header))
    {
      ghost var k;
      assert buffered + header == header;
      ok, k := Write(header);
      if !ok {
        CutInPart(header, header, k);
        return false, Outs(header)[..k];
      }
      ok, sent := FlushAndWait();
    }

    /** The contents with the terminator, and their acknowledgement. */
    method SendBody(body: string) returns (ok: bool, ghost sent: seq<Event>)
      requires buffered == ""
      modifies this
      ensures ok <==> WritesOk(peer, old(writes), 3) && peer.acks(old(acks)) == Some(NUL)
      ensures ok ==> buffered == "" && writes == old(writes) + 3 && acks == old(acks) + 1
      ensures trace == old(trace) + sent
      ensures if ok then sent == Part(body + [NUL]) else CutShort(sent, Part(body + [NUL]))
    {
      ghost var k;
      assert buffered + body == body;
      ok, k := Write(body);
      if !ok {
        CutInPart(body + [NUL], body, k);
        return false, Outs(body)[..k];
      }
      ok, k := Write([NUL]);
      if !ok {
        CutInPart(body + [NUL], body + [NUL], k);
        return false, Outs(body + [NUL])[..k];
      }
      ok, sent := FlushAndWait();
    }

    /** lprSendDataFile and lprSendControlFile: stop and wait after each of the two. */
    method SendFile(command: char, name: string, body: string) returns (ok: bool, ghost sent: seq<Event>)
      requires buffered == ""
      modifies this
      ensures ok <==> WritesOk(peer, old(writes), 5)
                      && peer.acks(old(acks)) == Some(NUL) && peer.acks(old(acks) + 1) == Some(NUL)
      ensures ok ==> buffered == "" && writes == old(writes) + 5 && acks == old(acks) + 2
      ensures trace == old(trace) + sent
      ensures if ok then sent == FileScript(command, name, body) else CutShort(sent, FileScript(command, name, body))
    {
      var header := Header(command, |body|, name);
      ok, sent := SendHeader(header);
      if !ok {
        CutFirst(sent, Part(header), Part(body + [NUL]));
        return;
      }
      ghost var more;
      ok, more := SendBody(body);
      if !ok {
        CutSecond(more, Part(header), Part(body + [NUL]));
      }
      sent := sent + more;
    }

    /** Send once the connection stands: the data file, then the control file. */
    method Send(payload: string, queue: string) returns (ok: bool)
      requires buffered == "" && trace == [] && writes == 0 && acks == 0
      modifies this
      ensures ok <==> WritesOk(peer, 0, 10) && forall j :: 0 <= j < 4 ==> peer.acks(j) == Some(NUL)
      ensures if ok then trace == Script(payload, queue) else CutShort(trace, Script(payload, queue))
    {
      ghost var sent, more;
      ghost var first := FileScript(DATA_COMMAND, DataName(), payload);
      ghost var second := FileScript(CONTROL_COMMAND, ControlName(), ControlFile(queue));
      ok, sent := SendFile(DATA_COMMAND, DataName(), payload);
      if !ok {
        assert [] + sent == sent;
        CutFirst(sent, first, second);
        return;
      }
      assert [] + sent == sent;
      ok, more := SendFile(CONTROL_COMMAND, ControlName(), ControlFile(queue));
      if !ok {
        CutSecond(more, first, second);
      }
    }
  }

  // --------------------------------------------------------- what a receiver gets

  lemma {:induction false} WatchConcat(w: Watched, a: seq<Event>, b: seq<Event>)
    ensures WatchAll(w, a + b) == WatchAll(WatchAll(w, a), b)
    decreases |a|
  {
    if a == [] {
      assert a + b == b;
    } else {
      assert (a + b)[1..] == a[1..] + b;
      WatchConcat(Watch(w, a[0]), a[1..], b);
    }
  }

  lemma WatchOne(w: Watched, e: Event)
    ensures WatchAll(w, [e]) == Watch(w, e)
  {
  }

  /** Reading a decimal number back. */
  lemma {:induction false} ReadsDecimal(w: Watched, command: char, n: nat)
    requires w.state == Counting(command, 0)
    ensures WatchAll(w, Outs(Decimal(n))) == w.(state := Counting(command, n))
  {
    if n < 10 {
      WatchOne(w, Out(Digit(n)));
      assert Outs(Decimal(n)) == [Out(Digit(n))];
    } else {
      ReadsDecimal(w, command, n / 10);
      assert Outs(Decimal(n)) == Outs(Decimal(n / 10)) + [Out(Digit(n % 10))];
      WatchConcat(w, Outs(Decimal(n / 10)), [Out(Digit(n % 10))]);
      WatchOne(w.(state := Counting(command, n / 10)), Out(Digit(n % 10)));
    }
  }

  lemma {:induction false} ReadsName(w: Watched, command: char, n: nat, got: string, name: string)
    requires w.state == Naming(command, n, got) && NUL !in name
    ensures WatchAll(w, Outs(name)) == w.(state := Naming(command, n, got + name))
    decreases |name|
  {
    if name == "" {
      assert got + name == got && Outs(name) == [];
    } else {
      assert Outs(name)[1..] == Outs(name[1..]) && got + name == (got + [name[0]]) + name[1..];
      ReadsName(Watch(w, Outs(name)[0]), command, n, got + [name[0]], name[1..]);
    }
  }

  lemma {:induction false} ReadsBody(w: Watched, command: char, name: string, got: string, body: string)
    requires w.state == Taking(command, |got| + |body|, name, got)
    ensures WatchAll(w, Outs(body)) == w.(state := Taking(command, |got| + |body|, name, got + body))
    decreases |body|
  {
    if body == "" {
      assert got + body == got && Outs(body) == [];
    } else {
      assert Outs(body)[1..] == Outs(body[1..]) && got + body == (got + [body[0]]) + body[1..];
      ReadsBody(Watch(w, Outs(body)[0]), command, name, got + [body[0]], body[1..]);
    }
  }

  /** One file sent and accepted is one file received, whatever bytes it holds. */
  lemma {:induction false} FileReceived(w: Watched, command: char, name: string, body: string)
    requires w.state.Idle? && (command == DATA_COMMAND || command == CONTROL_COMMAND) && NUL !in name
    ensures WatchAll(w, FileScript(command, name, body)) == Watched(Idle, w.files + [File(command, name, body)])
  {
    var n := |body|;
    HeaderReceived(w, command, n, name);
    var w1 := w.(state := OwesHeader(command, n, name));
    WatchConcat(w, Outs(Header(command, n, name)), [In(NUL)]);
    WatchOne(w1, In(NUL));
    BodyReceived(w.(state := Taking(command, n, name, "")), command, name, body);
    WatchConcat(w, Part(Header(command, n, name)), Part(body + [NUL]));
  }

  lemma {:induction false} BodyReceived(w: Watched, command: char, name: string, body: string)
    requires w.state == Taking(command, |body|, name, "")
    ensures WatchAll(w, Part(body + [NUL])) == Watched(Idle, w.files + [File(command, name, body)])
  {
    ReadsBody(w, command, name, "", body);
    assert "" + body == body;
    assert Part(body + [NUL]) == Outs(body) + [Out(NUL), In(NUL)];
    WatchConcat(w, Outs(body), [Out(NUL), In(NUL)]);
    var w1 := w.(state := Taking(command, |body|, name, body));
    assert [Out(NUL), In(NUL)][1..] == [In(NUL)];
    WatchOne(Watch(w1, Out(NUL)), In(NUL));
  }

  lemma {:induction false} HeaderReceived(w: Watched, command: char, n: nat, name: string)
    requires w.state.Idle? && (command == DATA_COMMAND || command == CONTROL_COMMAND) && NUL !in name
    ensures WatchAll(w, Outs(Header(command, n, name))) == w.(state := OwesHeader(command, n, name))
  {
    var w1 := w.(state := Counting(command, 0));
    var tail := Outs(name) + [Out(NUL)];
    var rest := [Out(' ')] + tail;
    assert Outs(Header(command, n, name)) == [Out(command)] + (Outs(Decimal(n)) + rest);
    WatchConcat(w, [Out(command)], Outs(Decimal(n)) + rest);
    WatchOne(w, Out(command));
    ReadsDecimal(w1, command, n);
    WatchConcat(w1, Outs(Decimal(n)), rest);
    var w2 := w.(state := Counting(command, n));
    WatchConcat(w2, [Out(' ')], tail);
    WatchOne(w2, Out(' '));
    var w3 := w.(state := Naming(command, n, ""));
    ReadsName(w3, command, n, "", name);
    assert "" + name == name;
    WatchConcat(w3, Outs(name), [Out(NUL)]);
    WatchOne(w.(state := Naming(command, n, name)), Out(NUL));
  }

  /** The data file, and the control file with the queue's name in its last line. */
  function Expected(payload: string, queue: string): seq<File> {
    [File(2 as char, "dfA001localhost", payload),
     File(3 as char, "cfA001localhost",
          "H" + "localhost" + "\nPagent\nfdfA001\nNdoc\nUdfA001\nL" + queue + "\n")]
  }

  /** What the sender writes is that, byte for byte. */
  lemma {:induction false} SenderNames(payload: string, queue: string)
    ensures DataName() == "dfA001localhost" && ControlName() == "cfA001localhost"
    ensures Expected(payload, queue) ==
      [File(DATA_COMMAND, DataName(), payload), File(CONTROL_COMMAND, ControlName(), ControlFile(queue))]
  {
  }

  /** Round trip: a successful exchange begins with the byte 2 and hands over the payload and the
      control file exactly. */
  lemma {:induction false} RoundTrip(payload: string, queue: string)
    ensures WatchAll(START, Script(payload, queue)) == Watched(Idle, Expected(payload, queue))
    ensures Script(payload, queue)[0] == Out(2 as char)
  {
    SenderNames(payload, queue);
    var first := FileScript(DATA_COMMAND, DataName(), payload);
    var second := FileScript(CONTROL_COMMAND, ControlName(), ControlFile(queue));
    FileReceived(START, DATA_COMMAND, DataName(), payload);
    var one := [File(DATA_COMMAND, DataName(), payload)];
    assert [] + one == one;
    FileReceived(Watched(Idle, one), CONTROL_COMMAND, ControlName(), ControlFile(queue));
    assert one + [File(CONTROL_COMMAND, ControlName(), ControlFile(queue))] == Expected(payload, queue);
    WatchConcat(START, first, second);
  }

  /** Stop and wait: in every exchange, cut short or not, each byte goes out only when the
      receiver owes nothing, each acknowledgement comes when it owes one, nothing follows a
      refusal, and the files received are the first of those expected. */
  lemma {:induction false} StopAndWait(payload: string, queue: string, es: seq<Event>)
    requires es == Script(payload, queue) || CutShort(es, Script(payload, queue))
    ensures !WatchAll(START, es).state.Broken?
    ensures WatchAll(START, es).files <= Expected(payload, queue)
    ensures var h := |Header(DATA_COMMAND, |payload|, DataName())|; |es| > h + 1 ==> es[h] == In(NUL)
  {
    var script := Script(payload, queue);
    RoundTrip(payload, queue);
    if es != script {
      CutKeeps(START, script, es);
    }
    var header := Header(DATA_COMMAND, |payload|, DataName());
    FirstAck(header, Part(payload + [NUL]), FileScript(CONTROL_COMMAND, ControlName(), ControlFile(queue)), es);
  }

  lemma {:induction false} FirstAck(s: string, body: seq<Event>, rest: seq<Event>, es: seq<Event>)
    requires es == Part(s) + body + rest || CutShort(es, Part(s) + body + rest)
    ensures |es| > |s| + 1 ==> es[|s|] == In(NUL)
  {
  }

  lemma {:induction false} CutKeeps(w0: Watched, script: seq<Event>, es: seq<Event>)
    requires !WatchAll(w0, script).state.Broken? && CutShort(es, script)
    ensures !WatchAll(w0, es).state.Broken? && WatchAll(w0, es).files <= WatchAll(w0, script).files
  {
    var n :| 0 <= n < |script| && CutAt(es, script, n);
    var w := WatchAll(w0, script[..n]);
    assert script[..n] + script[n..] == script;
    WatchConcat(w0, script[..n], script[n..]);
    Onwards(w, script[n..]);
    if |es| == n {
      assert es == script[..n];
    } else {
      assert es == script[..n] + [es[n]];
      WatchConcat(w0, script[..n], [es[n]]);
      WatchOne(w, es[n]);
      Onwards(Watch(w, script[n]), script[n..][1..]);
    }
  }

  /** What is broken stays broken and what is received stays received. */
  lemma {:induction false} Onwards(w: Watched, es: seq<Event>)
    ensures w.files <= WatchAll(w, es).files
    ensures w.state.Broken? ==> WatchAll(w, es).state.Broken?
    decreases |es|
  {
    if es != [] {
      Onwards(Watch(w, es[0]), es[1..]);
    }
  }
}
