/** Whole runs of the packet processor: packets interleaved with tracker removals and cache
    initialisation, under configurations that may change at every step. */
module PacketRuns {
  import opened CTypes
  import opened ProbeTables
  import opened ConnectionTracker
  import opened PacketPipeline
  import RE = RuleEngine

  datatype Event =
    | Arrive(cfg: Config, packet: Packet, time: nat, relayPort: U16, memory: bool)
    | Forget(port: U16)
    | ForgetAll
    | InitCaches
    | CleanupCaches
  {
    function At(): Env
      requires Arrive?
    {
      Env(Tick(time), relayPort, memory)
    }
  }

  datatype World = World(memo: Memo, conns: map<U16, Conn>)

  function Turn(w: World, e: Event): Outcome {
    match e
    case Arrive(cfg, p, _, _, _) => Step(cfg, w.memo, w.conns, p, e.At())
    case Forget(_) => Outcome([], w.memo, [])
    case ForgetAll => Outcome([], w.memo, [])
    case InitCaches => Outcome([], if w.memo.ready then w.memo else Zeroed(true), [])
    case CleanupCaches => Outcome([], w.memo.(ready := false), [])
  }

  function NextConns(conns: map<U16, Conn>, e: Event, outs: seq<Output>): map<U16, Conn> {
    match e
    case Arrive(_, _, _, _, memory) => Tracked(conns, outs, memory)
    case Forget(port) => conns - {port}
    case ForgetAll => map[]
    case _ => conns
  }

  /** The world before event `n`. */
  function WorldAt(w: World, es: seq<Event>, n: nat): World
    requires n <= |es|
  {
    if n == 0 then w
    else
      var before := WorldAt(w, es, n - 1);
      var o := Turn(before, es[n - 1]);
      World(o.memo, NextConns(before.conns, es[n - 1], o.outs))
  }

  function OutsAt(w: World, es: seq<Event>, n: nat): seq<Output>
    requires n < |es|
  {
    Turn(WorldAt(w, es, n), es[n]).outs
  }

  function MarksAt(w: World, es: seq<Event>, n: nat): seq<Mark>
    requires n < |es|
  {
    Turn(WorldAt(w, es, n), es[n]).marks
  }

  // ---- The run without caches ----

  function BareOuts(conns: map<U16, Conn>, e: Event): seq<Output> {
    if e.Arrive? then Uncached(e.cfg, conns, e.packet, e.relayPort) else []
  }

  function BareConnsAt(conns: map<U16, Conn>, es: seq<Event>, n: nat): map<U16, Conn>
    requires n <= |es|
  {
    if n == 0 then conns
    else
      var before := BareConnsAt(conns, es, n - 1);
      NextConns(before, es[n - 1], BareOuts(before, es[n - 1]))
  }

  ghost predicate FixedConfig(cfg: Config, es: seq<Event>) {
    forall i :: 0 <= i < |es| && es[i].Arrive? ==> es[i].cfg == cfg
  }

  /** With rules, global proxy, DNS flag and system lookups fixed, the caches are invisible: at every
      point of every run, under every clock, the outputs and the tracker are those of the pipeline
      without caches, and every cache entry equals the function it caches. */
  lemma {:induction false} CachingIsInvisible(cfg: Config, w: World, es: seq<Event>, n: nat)
    requires Coherent(cfg, w.memo) && FixedConfig(cfg, es) && n <= |es|
    ensures Coherent(cfg, WorldAt(w, es, n).memo)
    ensures WorldAt(w, es, n).conns == BareConnsAt(w.conns, es, n)
    ensures n < |es| ==> OutsAt(w, es, n) == BareOuts(BareConnsAt(w.conns, es, n), es[n])
  {
    hide Coherent, NextConns, BareOuts, Turn, FixedConfig, WorldAt, BareConnsAt;
    if n == 0 {
      NothingYet(w, es);
    } else {
      CachingIsInvisible(cfg, w, es, n - 1);
      NextIsBare(cfg, w, es, n - 1);
    }
    if n < |es| { TurnIsBareAt(cfg, w, es, n); }
  }

  lemma NothingYet(w: World, es: seq<Event>)
    ensures WorldAt(w, es, 0) == w && BareConnsAt(w.conns, es, 0) == w.conns
  {
  }

  lemma NextIsBare(cfg: Config, w: World, es: seq<Event>, n: nat)
    requires n < |es| && Coherent(cfg, WorldAt(w, es, n).memo) && FixedConfig(cfg, es)
    requires WorldAt(w, es, n).conns == BareConnsAt(w.conns, es, n)
    ensures Coherent(cfg, WorldAt(w, es, n + 1).memo)
    ensures WorldAt(w, es, n + 1).conns == BareConnsAt(w.conns, es, n + 1)
  {
    hide Coherent, NextConns, BareOuts, Turn;
    TurnIsBare(cfg, WorldAt(w, es, n), es[n]);
  }

  lemma TurnIsBareAt(cfg: Config, w: World, es: seq<Event>, n: nat)
    requires n < |es| && Coherent(cfg, WorldAt(w, es, n).memo) && FixedConfig(cfg, es)
    ensures OutsAt(w, es, n) == BareOuts(WorldAt(w, es, n).conns, es[n])
  {
    hide Coherent, BareOuts, Turn, WorldAt;
    TurnIsBare(cfg, WorldAt(w, es, n), es[n]);
  }

  lemma TurnIsBare(cfg: Config, w: World, e: Event)
    requires Coherent(cfg, w.memo) && (e.Arrive? ==> e.cfg == cfg)
    ensures Coherent(cfg, Turn(w, e).memo)
    ensures Turn(w, e).outs == BareOuts(w.conns, e)
  {
    match e
    case Arrive(c, p, _, _, _) => StepIsUncached(cfg, w.memo, w.conns, p, e.At());
    case InitCaches => ZeroedIsCoherent(cfg, true);
    case _ =>
  }

  // ---- The capture filter ----

  predicate FirstClause(tcpPort: U16, p: Packet) {
    p.outbound && p.transport.Tcp? && p.transport.dstPort != tcpPort && p.transport.srcPort != tcpPort
  }

  predicate SecondClause(udpPort: U16, p: Packet) {
    p.outbound && p.transport.Udp? && p.transport.dstPort != udpPort
  }

  predicate ThirdClause(tcpPort: U16, p: Packet) {
    p.outbound && p.transport.Tcp? && p.transport.srcPort == tcpPort
  }

  predicate Captured(tcpPort: U16, udpPort: U16, p: Packet) {
    FirstClause(tcpPort, p) || SecondClause(udpPort, p) || ThirdClause(tcpPort, p)
  }

  /** All outbound datagrams but those to the relay, and all outbound TCP but what others than the local
      proxy send to it. */
  lemma CapturedPackets(tcpPort: U16, udpPort: U16, p: Packet)
    ensures Captured(tcpPort, udpPort, p) <==>
      p.outbound && match p.transport
                    case Tcp(src, dst) => dst == tcpPort ==> src == tcpPort
                    case Udp(_, dst) => dst != udpPort
                    case Neither => false
  {
  }

  // ---- Redirection and its reply ----

  /** Event `e`, emitting `outs`, neither removes nor rewrites the entry of `port`. */
  predicate Spares(e: Event, outs: seq<Output>, port: U16) {
    match e
    case Arrive(_, _, _, _, _) => forall o :: o in outs && o.Track? ==> o.port != port
    case Forget(p) => p != port
    case ForgetAll => false
    case _ => true
  }

  lemma {:induction false} TrackedSpares(conns: map<U16, Conn>, outs: seq<Output>, memory: bool, port: U16)
    requires forall o :: o in outs && o.Track? ==> o.port != port
    ensures port in Tracked(conns, outs, memory) <==> port in conns
    ensures port in conns ==> Tracked(conns, outs, memory)[port] == conns[port]
  {
    if outs != [] {
      assert outs[|outs| - 1] in outs;
      TrackedSpares(conns, outs[..|outs| - 1], memory, port);
    }
  }

  /** Whatever happens on other ports, an entry stays until it is removed or rewritten. */
  lemma {:induction false} EntryPersists(w: World, es: seq<Event>, i: nat, j: nat, port: U16)
    requires i <= j <= |es| && port in WorldAt(w, es, i).conns
    requires forall k :: i <= k < j ==> Spares(es[k], OutsAt(w, es, k), port)
    ensures port in WorldAt(w, es, j).conns && WorldAt(w, es, j).conns[port] == WorldAt(w, es, i).conns[port]
  {
    if i < j {
      EntryPersists(w, es, i, j - 1, port);
      assert Spares(es[j - 1], OutsAt(w, es, j - 1), port);
      if es[j - 1].Arrive? {
        TrackedSpares(WorldAt(w, es, j - 1).conns, OutsAt(w, es, j - 1), es[j - 1].memory, port);
      }
    }
  }

  /** Event `i` redirected packet `p` to the local proxy and its destination was recorded. */
  ghost predicate RedirectedAt(w: World, es: seq<Event>, i: nat, p: Packet) {
    && i < |es| && es[i].Arrive? && es[i].packet == p && p.outbound && p.net.V4Header? && p.transport.Tcp?
    && (es[i].memory || p.transport.srcPort in WorldAt(w, es, i).conns)
    && exists o :: o in OutsAt(w, es, i) && o.Track?
  }

  /** A redirected packet goes to its own sender's address, at the local proxy's port, with everything else
      as it was, and is the only one sent; its destination is recorded. It is captured again exactly when it
      came from the proxy's own port, so never when the first clause admitted it. */
  lemma RedirectRecords(w: World, es: seq<Event>, i: nat, p: Packet) returns (proxy: ProxyInfo, sent: Packet)
    requires RedirectedAt(w, es, i, p)
    ensures sent == Packet(true, V4Header(p.net.src, p.net.src),
                           Tcp(p.transport.srcPort, es[i].cfg.host.tcpPort), p.rest)
    ensures forall s :: Send(s) in OutsAt(w, es, i) <==> s == sent
    ensures Track(p.transport.srcPort, Conn(p.net.src, V4(p.net.dst), p.transport.dstPort, proxy)) in OutsAt(w, es, i)
    ensures proxy.hasProxy && p.transport.srcPort in WorldAt(w, es, i + 1).conns
    ensures WorldAt(w, es, i + 1).conns[p.transport.srcPort]
         == Conn(p.net.src, V4(p.net.dst), p.transport.dstPort, proxy)
    ensures forall udpPort :: Captured(es[i].cfg.host.tcpPort, udpPort, sent)
                         <==> p.transport.srcPort == es[i].cfg.host.tcpPort
  {
    var e, before := es[i], WorldAt(w, es, i);
    var o :| o in OutsAt(w, es, i) && o.Track?;
    proxy := o.conn.proxy;
    sent := Packet(true, V4Header(p.net.src, p.net.src), Tcp(p.transport.srcPort, e.cfg.host.tcpPort), p.rest);
    TrackOnlyByRedirect(e.cfg, before.memo, before.conns, p, e.At(), o);
  }

  /** The only tracker addition of a step is the redirect of its own packet, through a usable proxy. */
  lemma TrackOnlyByRedirect(cfg: Config, c: Memo, conns: map<U16, Conn>, p: Packet, env: Env, o: Output)
    requires o in Step(cfg, c, conns, p, env).outs && o.Track?
    ensures p.outbound && p.net.V4Header? && p.transport.Tcp? && o.port == p.transport.srcPort
    ensures o.conn == Conn(p.net.src, V4(p.net.dst), p.transport.dstPort, o.conn.proxy) && o.conn.proxy.hasProxy
    ensures var sent := Packet(true, V4Header(p.net.src, p.net.src),
                               Tcp(p.transport.srcPort, cfg.host.tcpPort), p.rest);
      forall s :: Send(s) in Step(cfg, c, conns, p, env).outs <==> s == sent
    ensures forall m: map<U16, Conn>, memory {:trigger Tracked(m, Step(cfg, c, conns, p, env).outs, memory)} ::
      Tracked(m, Step(cfg, c, conns, p, env).outs, memory) == Put(m, o.port, o.conn, memory)
  {
    hide PidStep, NameStep, Decide, Act, Consulted, Remembered, AfterSet, FlowOf, DECISION_SHAPE;
    var route := Classify(cfg.host.tcpPort, conns, p);
    var (pid, c2, _) := PidStep(cfg.host, Consulted(c, route.flow, env.now), route.flow.Socket(), env.now);
    var (name, _) := NameStep(cfg.host, c2, pid, env.now);
    var (action, proxy) := Decide(cfg, route.flow, name);
    ProxyIsUsable(cfg, route.flow, name);
    ActTracks(cfg.host, p, pid, name, action, proxy, env.relayPort, o);
  }

  lemma ProxyIsUsable(cfg: Config, flow: FlowKey, name: string)
    ensures var (action, proxy) := Decide(cfg, flow, name); action == RE.Proxy ==> proxy.hasProxy
  {
    hide RE.Verdict;
  }

  lemma ActTracks(host: Host, p: Packet, pid: U32, name: string, action: RE.RuleAction, proxy: ProxyInfo,
      relayPort: U16, o: Output)
    requires p.net.V4Header? && o in Act(host, p, pid, name, action, proxy, relayPort) && o.Track?
    ensures action == RE.Proxy && p.transport.Tcp? && o.port == p.transport.srcPort
    ensures o.conn == Conn(p.net.src, V4(p.net.dst), p.transport.dstPort, proxy)
    ensures var sent := Packet(p.outbound, V4Header(p.net.src, p.net.src),
                               Tcp(p.transport.srcPort, host.tcpPort), p.rest);
      forall s :: Send(s) in Act(host, p, pid, name, action, proxy, relayPort) <==> s == sent
    ensures forall m: map<U16, Conn>, memory
      {:trigger Tracked(m, Act(host, p, pid, name, action, proxy, relayPort), memory)} ::
      Tracked(m, Act(host, p, pid, name, action, proxy, relayPort), memory) == Put(m, o.port, o.conn, memory)
  {
    var a := Announce(host, FlowOf(p), p, pid, name, action);
    assert forall x :: x in a ==> !x.Track? && !x.Send?;
    forall m: map<U16, Conn>, memory {
      TrackedAct(m, host, p, pid, name, action, proxy, relayPort, memory);
    }
  }

  /** An answer to the packet `sent`, as the packet processor captures it: addresses and ports swapped. */
  predicate Answers(reply: Packet, sent: Packet) {
    && reply.outbound && sent.net.V4Header? && sent.transport.Tcp?
    && reply.net == V4Header(sent.net.dst, sent.net.src)
    && reply.transport == Tcp(sent.transport.dstPort, sent.transport.srcPort)
  }

  lemma ReplyIsRestored(cfg: Config, w: World, p: Packet, env: Env)
    requires FromLocalProxy(cfg.host.tcpPort, p) && Visible4(w.conns, p.transport.dstPort).Some?
    ensures Step(cfg, w.memo, w.conns, p, env).outs == [Send(Restore(p, Visible4(w.conns, p.transport.dstPort).value))]
  {
    hide SlowPath, Lookup, AfterGet;
  }

  /** Redirect and reply rewriting are inverse over interleaved runs: while the client port's entry
      is neither removed nor rewritten, an answer to the packet that a redirect sent leaves with exactly
      the reverse of the original four-tuple, whatever happens on other ports. */
  lemma ReplyRestoresFlow(w: World, es: seq<Event>, i: nat, j: nat, p: Packet, sent: Packet)
    requires RedirectedAt(w, es, i, p) && Send(sent) in OutsAt(w, es, i) && i < j < |es|
    requires forall k :: i < k < j ==> Spares(es[k], OutsAt(w, es, k), p.transport.srcPort)
    requires es[j].Arrive? && es[j].cfg.host.tcpPort == es[i].cfg.host.tcpPort && Answers(es[j].packet, sent)
    ensures OutsAt(w, es, j) == [Send(Packet(true, V4Header(p.net.dst, p.net.src),
                                             Tcp(p.transport.dstPort, p.transport.srcPort), es[j].packet.rest))]
  {
    hide Step, WorldAt, Spares, NextConns, Classify;
    var proxy, _ := RedirectRecords(w, es, i, p);
    EntryPersists(w, es, i + 1, j, p.transport.srcPort);
    ReplyIsRestored(es[j].cfg, WorldAt(w, es, j), es[j].packet, es[j].At());
  }

  ghost predicate AllProxied(conns: map<U16, Conn>) {
    forall port :: port in conns ==> conns[port].proxy.hasProxy && conns[port].dest.V4?
  }

  /** Every entry the pipeline makes carries a usable proxy and an IPv4 destination. */
  lemma {:induction false} EntriesAreProxied(w: World, es: seq<Event>, n: nat)
    requires AllProxied(w.conns) && n <= |es|
    ensures AllProxied(WorldAt(w, es, n).conns)
  {
    hide AllProxied, Turn;
    if n > 0 {
      EntriesAreProxied(w, es, n - 1);
      NextIsProxied(WorldAt(w, es, n - 1), es[n - 1]);
    }
  }

  lemma NextIsProxied(w: World, e: Event)
    requires AllProxied(w.conns)
    ensures AllProxied(NextConns(w.conns, e, Turn(w, e).outs))
  {
    hide Step;
    if e.Arrive? {
      var outs := Turn(w, e).outs;
      if o :| o in outs && o.Track? {
        TrackOnlyByRedirect(e.cfg, w.memo, w.conns, e.packet, e.At(), o);
      } else {
        forall port ensures port in Tracked(w.conns, outs, e.memory) ==>
          port in w.conns && Tracked(w.conns, outs, e.memory)[port] == w.conns[port]
        {
          TrackedSpares(w.conns, outs, e.memory, port);
        }
      }
    }
  }
}
