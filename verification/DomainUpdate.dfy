/** The change of the cloud domain: a configuration transaction with rollback over the atomic
    save and the switch of the cloud connection. */
module DomainUpdate {
  import opened Basics
  import opened ConfigFile
  import Domains

  function DeriveUrl(protocol: string, endpoint: string): string {
    protocol + "://" + endpoint
  }

  function OnEndpoint(cfg: Config, endpoint: string): Config {
    cfg.(endpoint := endpoint, derivedUrl := DeriveUrl(cfg.protocol, endpoint))
  }

  predicate Consistent(cfg: Config) {
    cfg.derivedUrl == DeriveUrl(cfg.protocol, cfg.endpoint)
  }

  // ---------------------------------------------------------------- observations

  /** Dialling an endpoint and reading the handshake. */
  datatype Dialled = DialFailed | ReadFailed | Rejected | Accepted

  /** What one update meets on its way, as far as it gets. */
  datatype Observed = Observed(
    isAddress: bool, resolved: bool, probe: Dialled, probeError: string,
    save: Faults, switched: Dialled, rollback: Faults)

  datatype Reason = NoReason | InvalidDomain | ProbeError | PersistFailed | SwitchFailed

  /** The acknowledgement as it is sent. */
  datatype Ack = Ack(applied: bool, reason: string, field: string)

  const ENDPOINT_FIELD := "cloud.endpoint"

  // ------------------------------------------------------------------- the promise

  /** The connection as the link, the reporter, the heartbeat and the dispatcher share it, and
      the endpoint that heartbeats name. */
  datatype Link = Link(conn: Option<(string, bool)>, heartbeatEndpoint: string)

  datatype World = World(cfg: Config, stored: Option<Content>, link: Link, acks: seq<Ack>)

  /** Why an update fails, if it does; only in that order are the later observations made. */
  function Verdict(switches: bool, endpoint: string, o: Observed): Reason {
    if !Domains.ValidDomain(endpoint, o.isAddress) then InvalidDomain
    else if !(o.resolved && o.probe.Accepted?) then ProbeError
    else if !NoFault(o.save) then PersistFailed
    else if switches && !o.switched.Accepted? then SwitchFailed
    else NoReason
  }

  function Acknowledged(verdict: Reason, o: Observed): Ack {
    match verdict
    case NoReason => Ack(true, "", ENDPOINT_FIELD)
    case InvalidDomain => Ack(false, "invalid domain", ENDPOINT_FIELD)
    case ProbeError => Ack(false, o.probeError, ENDPOINT_FIELD)
    case PersistFailed => Ack(false, "persist failed", ENDPOINT_FIELD)
    case SwitchFailed => Ack(false, "switch conn failed", ENDPOINT_FIELD)
  }

  function Closed(conn: Option<(string, bool)>): Option<(string, bool)> {
    if conn.Some? then Some((conn.value.0, false)) else None
  }

  /** What UpdateDomain promises, clause by clause. */
  predicate Promised(switches: bool, w: World, t: World, endpoint: string, o: Observed) {
    var verdict := Verdict(switches, endpoint, o);
    // exactly one acknowledgement, which says whether the change was applied and why not
    && t.acks == w.acks + [Acknowledged(verdict, o)]
    // applied: memory, disk and link are all on the new endpoint
    && (verdict.NoReason? ==>
          && t.cfg == OnEndpoint(w.cfg, endpoint) && t.stored == Some(Whole(t.cfg))
          && t.link == if switches then Link(Some((endpoint, true)), endpoint) else w.link)
    // not applied: memory is back on the old endpoint
    && (!verdict.NoReason? ==>
          t.cfg == if verdict.InvalidDomain? || verdict.ProbeError? then w.cfg else OnEndpoint(w.cfg, w.cfg.endpoint))
    // and so is the disk, unless the connection failed and then the second save did too
    && (!verdict.NoReason? ==>
          t.stored ==
            if !verdict.SwitchFailed? then w.stored
            else Some(Whole(if NoFault(o.rollback) then t.cfg else OnEndpoint(w.cfg, endpoint))))
    // but the link is not: the old connection is closed and heartbeats name the new endpoint
    && (!verdict.NoReason? ==>
          t.link == if verdict.SwitchFailed? then Link(Closed(w.link.conn), endpoint) else w.link)
  }

  // ------------------------------------------------------------------- the objects

  /** domain.AgentConfig, shared by the updater and the link. */
  class AgentConfig {
    const protocol: string
    const rest: string
    var endpoint: string
    var derivedUrl: string

    constructor (cfg: Config)
      ensures Value() == cfg
    {
      protocol, rest, endpoint, derivedUrl := cfg.protocol, cfg.rest, cfg.endpoint, cfg.derivedUrl;
    }

    function Value(): Config
      reads this
    {
      Config(protocol, endpoint, derivedUrl, rest)
    }

    /** The pair of assignments that every change and every rollback makes. */
    method SetEndpoint(endpoint: string)
      modifies this
      ensures Value() == OnEndpoint(old(Value()), endpoint)
    {
      this.endpoint := endpoint;
      derivedUrl := DeriveUrl(protocol, endpoint);
    }
  }

  class Conn {
    const endpoint: string
    var open: bool

    constructor (endpoint: string)
      ensures this.endpoint == endpoint && open
    {
      this.endpoint, open := endpoint, true;
    }
  }

  class CloudLink {
    const cfg: AgentConfig
    var conn: Conn?
    var reporterConn: Conn?
    var heartbeatConn: Conn?
    var dispatcherConn: Conn?
    var heartbeatEndpoint: string

    /** Only connect assigns connections, and it assigns all four. */
    ghost predicate Valid()
      reads this
    {
      conn == reporterConn == heartbeatConn == dispatcherConn
    }

    ghost function Value(): Link
      reads this, conn
    {
      Link(if conn == null then None else Some((conn.endpoint, conn.open)), heartbeatEndpoint)
    }

    constructor (cfg: AgentConfig)
      ensures Valid() && this.cfg == cfg && Value() == Link(None, cfg.endpoint)
    {
      this.cfg, heartbeatEndpoint := cfg, cfg.endpoint;
      conn, reporterConn, heartbeatConn, dispatcherConn := null, null, null, null;
    }

    /** Dials whatever endpoint the shared configuration holds now. */
    method Connect(d: Dialled) returns (ok: bool)
      requires Valid()
      modifies this
      ensures Valid() && ok == d.Accepted?
      ensures heartbeatEndpoint == old(heartbeatEndpoint)
      ensures !ok ==> conn == old(conn)
      ensures ok ==> fresh(conn) && conn != null && conn.endpoint == cfg.endpoint && conn.open
    {
      if d.DialFailed? {
        return false;
      }
      var dialled := new Conn(cfg.endpoint);
      if d.ReadFailed? {
        dialled.open := false;
        return false;
      }
      if d.Rejected? {
        dialled.open := false;
        return false;
      }
      conn := dialled;
      reporterConn := conn;
      heartbeatConn := conn;
      dispatcherConn := conn;
      return true;
    }

    method SwitchConn(newEndpoint: string, d: Dialled) returns (ok: bool)
      requires Valid()
      modifies this, conn, cfg
      ensures Valid() && ok == d.Accepted?
      ensures cfg.Value() == OnEndpoint(old(cfg.Value()), newEndpoint)
      ensures conn == old(conn) || fresh(conn)
      ensures Value() ==
        Link(if ok then Some((newEndpoint, true)) else Closed(old(Value()).conn), newEndpoint)
    {
      var oldConn := conn;
      if oldConn != null {
        oldConn.open := false;
      }
      cfg.SetEndpoint(newEndpoint);
      heartbeatEndpoint := newEndpoint;
      ok := Connect(d);
    }
  }

  class DomainUpdater {
    const cfg: AgentConfig
    const fs: FileSystem
    const link: CloudLink
    const switches: bool       // switchConn != nil
    var acks: seq<Ack>

    ghost predicate Valid()
      reads this, fs, link
    {
      fs.Valid() && link.Valid() && link.cfg == cfg
    }

    ghost function Value(): World
      reads this, cfg, fs, link, link.conn
    {
      World(cfg.Value(), Read(fs.disk, fs.path), link.Value(), acks)
    }

    constructor (cfg: AgentConfig, fs: FileSystem, link: CloudLink, switches: bool)
      requires fs.Valid() && link.Valid() && link.cfg == cfg
      ensures Valid() && this.cfg == cfg && this.fs == fs && this.link == link && this.switches == switches
      ensures acks == []
    {
      this.cfg, this.fs, this.link, this.switches, acks := cfg, fs, link, switches, [];
    }

    method ReportConfigAck(applied: bool, reason: string, field: string)
      modifies this
      ensures acks == old(acks) + [Ack(applied, reason, field)]
    {
      acks := acks + [Ack(applied, reason, field)];
    }

    method ValidateAndProbe(endpoint: string, o: Observed) returns (ok: bool)
      ensures ok <==> Domains.ValidDomain(endpoint, o.isAddress) && o.resolved && o.probe.Accepted?
    {
      var valid := Domains.IsValidDomain(endpoint, o.isAddress);
      if !valid {
        return false;
      }
      if !o.resolved {
        return false;
      }
      return o.probe.Accepted?;
    }

    /** The save may pick any name for its temporary file that is new in the directory. */
    method Save(f: Faults) returns (ok: bool)
      requires Valid()
      modifies fs
      ensures Valid() && ok == NoFault(f)
      ensures Read(fs.disk, fs.path) == if ok then Some(Whole(cfg.Value())) else old(Read(fs.disk, fs.path))
      ensures fs.complete == old(fs.complete) + Offers(cfg.Value(), f)
    {
      var tmp := NewName(Current(fs.disk).Keys + {fs.path});
      ok := fs.SaveAtomic(cfg.Value(), tmp, f);
    }

    method UpdateDomain(newEndpoint: string, o: Observed) returns (ok: bool)
      requires Valid()
      modifies this, cfg, fs, link, link.conn
      ensures Valid() && ok == (Verdict(switches, newEndpoint, o).NoReason?)
      ensures Promised(switches, old(Value()), Value(), newEndpoint, o)
      ensures fs.complete <= old(fs.complete) +
        {Some(Whole(OnEndpoint(old(cfg.Value()), newEndpoint))), Some(Whole(OnEndpoint(old(cfg.Value()), old(cfg.endpoint))))}
    {
      var valid := Domains.IsValidDomain(newEndpoint, o.isAddress);
      if !valid {
        ReportConfigAck(false, "invalid domain", ENDPOINT_FIELD);
        return false;
      }
      var probed := ValidateAndProbe(newEndpoint, o);
      if !probed {
        ReportConfigAck(false, o.probeError, ENDPOINT_FIELD);
        return false;
      }
      var backup := cfg.endpoint;
      cfg.SetEndpoint(newEndpoint);
      var saved := Save(o.save);
      if !saved {
        cfg.SetEndpoint(backup);
        ReportConfigAck(false, "persist failed", ENDPOINT_FIELD);
        return false;
      }
      if switches {
        var switched := link.SwitchConn(newEndpoint, o.switched);
        if !switched {
          cfg.SetEndpoint(backup);
          var restored := Save(o.rollback);
          ReportConfigAck(false, "switch conn failed", ENDPOINT_FIELD);
          return false;
        }
      }
      ReportConfigAck(true, "", ENDPOINT_FIELD);
      return true;
    }
  }

  /** A name that is not taken. */
  method NewName(taken: set<string>) returns (name: string)
    ensures name !in taken
  {
    name := "";
    ghost var tried: set<string> := {};
    while name in taken
      invariant tried <= taken && (forall t :: t in tried ==> |t| < |name|)
      decreases taken - tried
    {
      tried := tried + {name};
      name := name + "x";
    }
  }

  // --------------------------------------------------------- over many updates

  datatype Request = Request(endpoint: string, o: Observed)

  /** Any sequence of updates, each of which keeps the promise. */
  predicate IsHistory(switches: bool, ws: seq<World>, rs: seq<Request>) {
    && |ws| == |rs| + 1
    && forall i :: 0 <= i < |rs| ==> Promised(switches, ws[i], ws[i + 1], rs[i].endpoint, rs[i].o)
  }

  function VerdictOf(switches: bool, r: Request): Reason {
    Verdict(switches, r.endpoint, r.o)
  }

  /** Everything on the way of an update went well. */
  predicate Succeeds(switches: bool, r: Request) {
    && Domains.ValidDomain(r.endpoint, r.o.isAddress) && r.o.resolved && r.o.probe.Accepted?
    && NoFault(r.o.save) && (switches ==> r.o.switched.Accepted?)
  }

  function LastApplied(switches: bool, rs: seq<Request>, first: string): string {
    if rs == [] then first
    else
      var r := rs[|rs| - 1];
      if Succeeds(switches, r) then r.endpoint else LastApplied(switches, rs[..|rs| - 1], first)
  }

  /** The acknowledgement names the first thing that went wrong. */
  predicate TrueAck(switches: bool, r: Request, a: Ack) {
    && a.field == "cloud.endpoint" && (a.applied <==> Succeeds(switches, r))
    && a.reason ==
       if a.applied then ""
       else if !Domains.ValidDomain(r.endpoint, r.o.isAddress) then "invalid domain"
       else if !r.o.resolved || !r.o.probe.Accepted? then r.o.probeError
       else if !NoFault(r.o.save) then "persist failed"
       else "switch conn failed"
  }

  lemma VerdictAcked(switches: bool, r: Request)
    ensures TrueAck(switches, r, Acknowledged(VerdictOf(switches, r), r.o))
    ensures VerdictOf(switches, r).NoReason? <==> Succeeds(switches, r)
  {
    hide Domains.ValidDomain, NoFault;
  }

  /** One update, as far as memory and its acknowledgement are concerned. */
  lemma MemoryStep(switches: bool, w: World, t: World, r: Request)
    requires Promised(switches, w, t, r.endpoint, r.o) && Consistent(w.cfg)
    ensures t.cfg == if Succeeds(switches, r) then OnEndpoint(w.cfg, r.endpoint) else w.cfg
    ensures |t.acks| == |w.acks| + 1 && w.acks <= t.acks && TrueAck(switches, r, t.acks[|w.acks|])
  {
    VerdictAcked(switches, r);
    hide Domains.ValidDomain, NoFault, TrueAck, Succeeds, Verdict;
  }

  /** Over every sequence of updates the configuration in memory is on the endpoint of the last
      one that succeeded, with the URL of that endpoint and the rest untouched, and each update
      is acknowledged once, truly. */
  lemma {:induction false} MemoryFollowsAcks(switches: bool, ws: seq<World>, rs: seq<Request>)
    requires IsHistory(switches, ws, rs) && Consistent(ws[0].cfg)
    ensures ws[|rs|].cfg == OnEndpoint(ws[0].cfg, LastApplied(switches, rs, ws[0].cfg.endpoint))
    ensures ws[|rs|].cfg ==
      Config(ws[0].cfg.protocol, LastApplied(switches, rs, ws[0].cfg.endpoint),
             ws[0].cfg.protocol + "://" + LastApplied(switches, rs, ws[0].cfg.endpoint), ws[0].cfg.rest)
    ensures Consistent(ws[|rs|].cfg)
    ensures |ws[|rs|].acks| == |ws[0].acks| + |rs| && ws[0].acks <= ws[|rs|].acks
    ensures forall i :: 0 <= i < |rs| ==> TrueAck(switches, rs[i], ws[|rs|].acks[|ws[0].acks| + i])
  {
    hide Promised, TrueAck, Succeeds;
    if rs != [] {
      var n := |rs| - 1;
      assert IsHistory(switches, ws[..|rs|], rs[..n]);
      MemoryFollowsAcks(switches, ws[..|rs|], rs[..n]);
      MemoryStep(switches, ws[n], ws[n + 1], rs[n]);
    }
  }

  /** The update got as far as writing the file. */
  predicate WritesDisk(switches: bool, r: Request) {
    VerdictOf(switches, r).NoReason? || VerdictOf(switches, r).SwitchFailed?
  }

  /** A connection that failed, and then the save that should have undone the change. */
  predicate StuckOnDisk(switches: bool, r: Request) {
    VerdictOf(switches, r).SwitchFailed? && !NoFault(r.o.rollback)
  }

  /** One update, as far as the file and memory are concerned. */
  lemma DiskStep(switches: bool, w: World, t: World, r: Request)
    requires Promised(switches, w, t, r.endpoint, r.o) && Consistent(w.cfg)
    ensures !WritesDisk(switches, r) ==> t.stored == w.stored && t.cfg == w.cfg
    ensures WritesDisk(switches, r) ==>
      (t.stored != Some(Whole(t.cfg)) <==> StuckOnDisk(switches, r) && r.endpoint != w.cfg.endpoint)
  {
  }

  /** The file disagrees with memory if and only if the last update that wrote it could neither
      connect nor save the old endpoint back, and was for another endpoint than that one. */
  lemma {:induction false} DiskDisagreesIff(switches: bool, ws: seq<World>, rs: seq<Request>)
    requires IsHistory(switches, ws, rs) && Consistent(ws[0].cfg) && ws[0].stored == Some(Whole(ws[0].cfg))
    ensures ws[|rs|].stored != Some(Whole(ws[|rs|].cfg)) <==>
      exists i :: Strays(switches, ws[0].cfg.endpoint, rs, i)
  {
    if rs != [] {
      var n := |rs| - 1;
      DiskDisagreesIff(switches, ws[..|rs|], rs[..n]);
      MemoryFollowsAcks(switches, ws[..|rs|], rs[..n]);
      assert ws[..|rs|][n] == ws[n];
      DiskStep(switches, ws[n], ws[n + 1], rs[n]);
      LastStrays(switches, ws[0].cfg.endpoint, rs);
    }
  }

  /** Update `i` left the file on an endpoint that memory gave up for the last applied one, and
      nothing wrote the file since. */
  predicate Strays(switches: bool, first: string, rs: seq<Request>, i: int) {
    && 0 <= i < |rs|
    && StuckOnDisk(switches, rs[i]) && rs[i].endpoint != LastApplied(switches, rs[..i], first)
    && forall j :: i < j < |rs| ==> !WritesDisk(switches, rs[j])
  }

  lemma {:induction false} LastStrays(switches: bool, first: string, rs: seq<Request>)
    requires rs != []
    ensures
      var n := |rs| - 1;
      (exists i :: Strays(switches, first, rs, i)) <==>
        if WritesDisk(switches, rs[n]) then
          StuckOnDisk(switches, rs[n]) && rs[n].endpoint != LastApplied(switches, rs[..n], first)
        else exists i :: Strays(switches, first, rs[..n], i)
  {
    var n := |rs| - 1;
    if WritesDisk(switches, rs[n]) {
      assert forall i :: Strays(switches, first, rs, i) ==> i == n;
      assert Strays(switches, first, rs, n) <==>
        StuckOnDisk(switches, rs[n]) && rs[n].endpoint != LastApplied(switches, rs[..n], first);
    } else {
      forall i | 0 <= i < n ensures Strays(switches, first, rs, i) <==> Strays(switches, first, rs[..n], i) {
        assert rs[..n][..i] == rs[..i];
      }
      if i :| Strays(switches, first, rs, i) {
        assert Strays(switches, first, rs[..n], i);
      }
      if i :| Strays(switches, first, rs[..n], i) {
        assert Strays(switches, first, rs, i);
      }
    }
  }

  /** Open, and on the endpoint that the configuration names. */
  predicate Serves(w: World) {
    w.link == Link(Some((w.cfg.endpoint, true)), w.cfg.endpoint)
  }

  /** Without a reconnection the link serves exactly as long as no failed switch is left
      without a later update that was applied: the rollback does not cover it. */
  lemma {:induction false} LinkServesIff(ws: seq<World>, rs: seq<Request>)
    requires IsHistory(true, ws, rs) && Serves(ws[0])
    ensures Serves(ws[|rs|]) <==> !exists i :: Severed(rs, i)
    ensures !Serves(ws[|rs|]) ==> ws[|rs|].link.conn.Some? && !ws[|rs|].link.conn.value.1
  {
    if rs != [] {
      var n := |rs| - 1;
      LinkServesIff(ws[..|rs|], rs[..n]);
      assert Promised(true, ws[n], ws[n + 1], rs[n].endpoint, rs[n].o);
      match VerdictOf(true, rs[n])
      case NoReason =>
        assert !exists i :: Severed(rs, i);
      case SwitchFailed =>
        assert Severed(rs, n);
      case _ =>
        assert forall i :: Severed(rs, i) <==> Severed(rs[..n], i);
    }
  }

  predicate Severed(rs: seq<Request>, i: int) {
    && 0 <= i < |rs| && VerdictOf(true, rs[i]).SwitchFailed?
    && forall j :: i < j < |rs| ==> !VerdictOf(true, rs[j]).NoReason?
  }

  /** The endpoint of the last update that got past the save, connected or not. */
  function LastTried(rs: seq<Request>, first: string): string {
    if rs == [] then first
    else
      var r := rs[|rs| - 1];
      if Domains.ValidDomain(r.endpoint, r.o.isAddress) && r.o.resolved && r.o.probe.Accepted? && NoFault(r.o.save)
      then r.endpoint
      else LastTried(rs[..|rs| - 1], first)
  }

  lemma LinkStep(w: World, t: World, r: Request)
    requires Promised(true, w, t, r.endpoint, r.o) && w.link.conn.Some?
    ensures t.link.conn.Some?
    ensures t.link.heartbeatEndpoint == LastTried([r], w.link.heartbeatEndpoint)
    ensures t.link.conn.value.0 == if Succeeds(true, r) then r.endpoint else w.link.conn.value.0
  {
    hide Domains.ValidDomain, NoFault;
    assert [r][..0] == [];
  }

  /** Heartbeats name the endpoint of the last update that got past the save, even if its switch
      failed, while the connection, open or closed, is the one of the last applied endpoint. */
  lemma {:induction false} HeartbeatsRunAhead(ws: seq<World>, rs: seq<Request>)
    requires IsHistory(true, ws, rs) && Serves(ws[0])
    ensures ws[|rs|].link.heartbeatEndpoint == LastTried(rs, ws[0].cfg.endpoint)
    ensures ws[|rs|].link.conn.Some? && ws[|rs|].link.conn.value.0 == LastApplied(true, rs, ws[0].cfg.endpoint)
  {
    hide Promised, Domains.ValidDomain, NoFault, Succeeds;
    if rs != [] {
      var n := |rs| - 1;
      assert IsHistory(true, ws[..|rs|], rs[..n]);
      HeartbeatsRunAhead(ws[..|rs|], rs[..n]);
      LinkStep(ws[n], ws[n + 1], rs[n]);
      assert [rs[n]][..0] == [];
    }
  }
}
