/** The packet processor itself: the three cache arrays, the active ports and the running flag. */
module PacketProcessor {
  import opened CTypes
  import opened ProbeTables
  import opened PacketPipeline
  import CT = ConnectionTracker
  import RE = RuleEngine
  import UR = UdpRelay
  import PR = PacketRuns

  // ---- Session requests ----

  /** The session request among the outputs of a step, if there is one. */
  function Asked(outs: seq<Output>): Option<(FlowKey, ProxyInfo)> {
    if outs == [] then None
    else
      var o := outs[|outs| - 1];
      if o.RequestSession? then Some((o.flow, o.proxy)) else Asked(outs[..|outs| - 1])
  }

  lemma AskedStep(outs: seq<Output>, o: Output)
    ensures Asked(outs + [o]) == if o.RequestSession? then Some((o.flow, o.proxy)) else Asked(outs)
  {
    assert (outs + [o])[..|outs|] == outs;
  }

  lemma AskedTwo(outs: seq<Output>, x: Output, y: Output)
    ensures Asked(outs + [x, y]) == if y.RequestSession? then Some((y.flow, y.proxy)) else Asked(outs + [x])
  {
    AskedStep(outs + [x], y);
    assert outs + [x, y] == outs + [x] + [y];
  }

  lemma NoticeAsksNothing(host: Host, flow: FlowKey, p: Packet, pid: U32, name: string, action: RE.RuleAction)
    ensures var a := Announce(host, flow, p, pid, name, action); Asked(a) == None && a + [] == a
  {
    var a := Announce(host, flow, p, pid, name, action);
    assert a == [] || (|a| == 1 && a[..0] == [] && !a[0].RequestSession?);
  }

  /** Only a proxied datagram asks for a session, for its own flow and through its own proxy. */
  lemma AskedAct(host: Host, p: Packet, pid: U32, name: string, action: RE.RuleAction, proxy: ProxyInfo, relayPort: U16)
    requires p.net.V4Header?
    ensures Asked(Act(host, p, pid, name, action, proxy, relayPort))
         == if action == RE.Proxy && p.transport.Udp? then Some((FlowOf(p), proxy)) else None
  {
    var flow := FlowOf(p);
    var a := Announce(host, flow, p, pid, name, action);
    NoticeAsksNothing(host, flow, p, pid, name, action);
    hide Asked, Announce, FlowOf, Redirected, Relayed;
    AskedStep(a, Send(p));
    match p.transport
    case Tcp(s, d) =>
      var t, r := Track(s, CT.Conn(flow.srcIp, CT.V4(flow.dstIp), d, proxy)), Send(Redirected(p, host.tcpPort));
      AskedStep(a, t);
      AskedTwo(a, t, r);
    case Udp(s, d) =>
      var q, r := RequestSession(flow, proxy), Send(if relayPort != 0 then Relayed(p, relayPort) else p);
      AskedStep(a, q);
      AskedTwo(a, q, r);
    case Neither =>
  }

  function SessionFor(flow: FlowKey, proxy: ProxyInfo, globalProxy: ProxyInfo): UR.Request {
    UR.Request(flow.srcIp, flow.srcPort, CT.V4(flow.dstIp), flow.dstPort, Some(proxy), globalProxy)
  }

  /** The relay's table after the session request among `outs`, set up as `u` says. */
  function RelayAfter(t: UR.Table, outs: seq<Output>, globalProxy: ProxyInfo, u: UR.Setup, localPort: U16): UR.Table {
    match Asked(outs)
    case None => t
    case Some((flow, proxy)) => UR.Next(t, UR.Add(SessionFor(flow, proxy, globalProxy), u, localPort))
  }

  /** The relay's answer to that request; 0 when there is none. */
  function RelayAnswer(ss: UR.Sessions, outs: seq<Output>, globalProxy: ProxyInfo, u: UR.Setup, localPort: U16)
    : (port: U16)
    ensures port in {0, localPort}
  {
    match Asked(outs)
    case None => 0
    case Some((flow, proxy)) => UR.Answer(ss, SessionFor(flow, proxy, globalProxy), u, localPort)
  }

  /** A proxied datagram asks the relay for a session of its own sender, destination and proxy. */
  lemma DatagramRequestsItsSession(host: Host, src: U32, sp: U16, dst: U32, dp: U16, rest: seq<U8>, pid: U32,
                                   name: string, proxy: ProxyInfo, relayPort: U16,
                                   t: UR.Table, globalProxy: ProxyInfo, u: UR.Setup, localPort: U16)
    ensures var p := Packet(true, V4Header(src, dst), Udp(sp, dp), rest);
      var outs := Act(host, p, pid, name, RE.Proxy, proxy, relayPort);
      var request := UR.Request(src, sp, CT.V4(dst), dp, Some(proxy), globalProxy);
      && RelayAfter(t, outs, globalProxy, u, localPort) == UR.Next(t, UR.Add(request, u, localPort))
      && RelayAnswer(t.sessions, outs, globalProxy, u, localPort) == UR.Answer(t.sessions, request, u, localPort)
  {
    AskedAct(host, Packet(true, V4Header(src, dst), Udp(sp, dp), rest), pid, name, RE.Proxy, proxy, relayPort);
    hide Act, Asked, UR.Next, UR.Answer;
  }

  /** A packet merely sent on concerns neither the tracker nor the relay. */
  lemma SendIsQuiet(p: Packet, conns: map<U16, CT.Conn>, memory: bool, t: UR.Table, globalProxy: ProxyInfo,
      u: UR.Setup, localPort: U16)
    ensures var outs := [Send(p)];
      && Tracked(conns, outs, memory) == conns
      && RelayAfter(t, outs, globalProxy, u, localPort) == t
      && RelayAnswer(t.sessions, outs, globalProxy, u, localPort) == 0
  {
    assert [Send(p)][..0] == [];
    assert Asked([Send(p)]) == None;
  }

  class Processor {
    const connCache: ProbeTable<SocketKey, U32>
    const decisionCache: ProbeTable<FlowKey, RE.RuleAction>
    const processCache: ProbeTable<U32, ProcName>
    var cacheReady: bool
    var running: bool
    var handleOpen: bool
    var threadAlive: bool
    var tcpPort: U16
    var udpPort: U16

    ghost predicate Valid()
      reads connCache.slots, decisionCache.slots, processCache.slots
    {
      && connCache.Valid() && connCache.shape == CONN_SHAPE && connCache.blank == NO_SOCKET
      && decisionCache.Valid() && decisionCache.shape == DECISION_SHAPE && decisionCache.blank == NO_FLOW
      && processCache.Valid() && processCache.shape == PROCESS_SHAPE && processCache.blank == NO_PROCESS
      && connCache.slots as object != decisionCache.slots && connCache.slots as object != processCache.slots
      && decisionCache.slots as object != processCache.slots
    }

    /** The caches as the value the pipeline functions work on. */
    ghost function Memory(): Memo
      requires Valid()
      reads this, connCache.slots, decisionCache.slots, processCache.slots
    {
      Caches(cacheReady, connCache.slots[..], decisionCache.slots[..], processCache.slots[..])
    }

    constructor ()
      ensures Valid() && Memory() == Zeroed(false) && !running && !handleOpen && !threadAlive
      ensures tcpPort == 34020 && udpPort == 34021
      ensures fresh(connCache.slots) && fresh(decisionCache.slots) && fresh(processCache.slots)
    {
      connCache := new ProbeTable(CONN_SHAPE, NO_SOCKET);
      decisionCache := new ProbeTable(DECISION_SHAPE, NO_FLOW);
      processCache := new ProbeTable(PROCESS_SHAPE, NO_PROCESS);
      cacheReady, running, handleOpen, threadAlive := false, false, false, false;
      tcpPort, udpPort := 34020, 34021;
    }

    /** The caches survive a stop and a start; they are emptied only here. */
    method InitCaches()
      requires Valid()
      modifies `cacheReady, connCache.slots, decisionCache.slots, processCache.slots
      ensures Valid() && Memory() == if old(cacheReady) then old(Memory()) else Zeroed(true)
      ensures forall conns :: Memory() == PR.Turn(PR.World(old(Memory()), conns), PR.InitCaches).memo
    {
      if cacheReady { return; }
      connCache.Clear();
      decisionCache.Clear();
      processCache.Clear();
      cacheReady := true;
    }

    method CleanupCaches()
      requires Valid()
      modifies `cacheReady
      ensures Valid() && Memory() == old(Memory()).(ready := false)
      ensures forall conns :: Memory() == PR.Turn(PR.World(old(Memory()), conns), PR.CleanupCaches).memo
    {
      cacheReady := false;
    }

    method SetActivePorts(tcp: U16, udp: U16)
      modifies `tcpPort, `udpPort
      ensures tcpPort == tcp && udpPort == udp
    {
      tcpPort, udpPort := tcp, udp;
    }

    /** `handleOk` and `threadOk` say whether the capture handle and the thread could be created. */
    method Start(handleOk: bool, threadOk: bool) returns (ok: bool)
      modifies `running, `handleOpen, `threadAlive
      ensures if old(running) then ok && running && handleOpen == old(handleOpen) && threadAlive == old(threadAlive)
              else ok == running == (handleOk && threadOk)
                   && (running ==> handleOpen && threadAlive)
                   && (!running ==> !handleOpen && threadAlive == old(threadAlive))
    {
      if running { return true; }
      handleOpen := handleOk;
      if !handleOpen { return false; }
      running := true;
      if !threadOk {
        handleOpen := false;
        running := false;
        return false;
      }
      threadAlive := true;
      return true;
    }

    method Stop()
      modifies `running, `handleOpen, `threadAlive
      ensures !running
      ensures old(running) ==> !handleOpen && !threadAlive
      ensures !old(running) ==> handleOpen == old(handleOpen) && threadAlive == old(threadAlive)
    {
      if !running { return; }
      running := false;
      if handleOpen { handleOpen := false; }
      if threadAlive { threadAlive := false; }
    }

    method LookupPid(host: Host, k: SocketKey, now: U32) returns (pid: U32)
      requires Valid()
      modifies connCache.slots
      ensures Valid()
      ensures (pid, Memory()) == (PidStep(host, old(Memory()), k, now).0, PidStep(host, old(Memory()), k, now).1)
    {
      hide AfterGet, AfterSet, Lookup, CONN_SHAPE;
      pid := 0;
      if cacheReady {
        var hit := connCache.Get(k, now);
        if hit.Some? { pid := hit.value; }
      }
      if pid == 0 {
        pid := host.pidOf(k);
        if pid != 0 && cacheReady { connCache.Set(k, pid, now); }
      }
    }

    method LookupName(host: Host, pid: U32, now: U32) returns (name: ProcName)
      requires Valid()
      modifies processCache.slots
      ensures Valid()
      ensures (name, Memory()) == NameStep(host, old(Memory()), pid, now)
    {
      hide AfterGet, AfterSet, Lookup, PROCESS_SHAPE;
      var hit := None;
      if cacheReady && pid != 0 { hit := processCache.Get(pid, now); }
      if hit.Some? { return hit.value; }
      name := NameOf(host, pid);
      if name != "" && cacheReady && pid != 0 { processCache.Set(pid, name, now); }
    }

    /** The rule verdict and the proxy it goes through. */
    method Judge(host: Host, rules: RE.Engine, flow: FlowKey, name: ProcName)
      returns (action: RE.RuleAction, proxy: ProxyInfo)
      requires rules.Valid()
      ensures (action, proxy) == Decide(Config(rules.rules, host), flow, name)
    {
      hide RE.Verdict;
      action, proxy := RE.Direct, NO_PROXY;
      if !(flow.dstPort == 53 && !host.dnsViaProxy) {
        action, proxy := rules.Match(name, flow.dstIp, flow.dstPort, flow.isTcp);
      }
      if action == RE.Proxy {
        if !proxy.hasProxy { proxy := host.globalProxy; }
        if !proxy.hasProxy { action := RE.Direct; }
      }
    }

    /** Carries out a decision: the callback, the tracker or the relay, and the packet sent. `setup` is what
        the system answers while a session is set up; `relayPort` is the relay's answer. */
    method Execute(host: Host, tracker: CT.Tracker, relay: UR.Relay, p: Packet, pid: U32, name: string,
      action: RE.RuleAction, proxy: ProxyInfo, memory: bool, setup: UR.Setup)
      returns (outs: seq<Output>, ghost relayPort: U16)
      requires tracker.Valid() && relay.Valid() && p.net.V4Header? && UR.NewHandles(setup, relay.live)
      modifies tracker, tracker.spine, relay.sessions, relay`live, relay`closed
      ensures tracker.Valid() && tracker.initialized == old(tracker.initialized) && relay.Valid()
      ensures forall n :: n in tracker.spine ==> n in old(tracker.spine) || fresh(n)
      ensures outs == Act(host, p, pid, name, action, proxy, relayPort)
      ensures tracker.Conns() == if tracker.initialized then Tracked(old(tracker.Conns()), outs, memory)
        else old(tracker.Conns())
      ensures relay.Content() == RelayAfter(old(relay.Content()), outs, host.globalProxy, setup, relay.localPort)
      ensures relayPort == RelayAnswer(old(relay.sessions[..]), outs, host.globalProxy, setup, relay.localPort)
    {
      hide CT.MapOf, Tracked, CT.Distinct, CT.Link, Announce, Asked, UR.Next, UR.Answer, UR.Relay.Valid;
      var flow := FlowOf(p);
      relayPort := 0;
      TrackedAct(tracker.Conns(), host, p, pid, name, action, proxy, relayPort, memory);
      AskedAct(host, p, pid, name, action, proxy, relayPort);
      outs := Announce(host, flow, p, pid, name, action);
      if action == RE.Block { return; }
      if action == RE.Proxy && p.transport.Tcp? {
        tracker.Add(flow.srcPort, flow.srcIp, flow.dstIp, flow.dstPort, Some(proxy), memory);
        outs := outs + [Track(flow.srcPort, CT.Conn(flow.srcIp, CT.V4(flow.dstIp), flow.dstPort, proxy)),
                        Send(Redirected(p, host.tcpPort))];
        return;
      }
      if action == RE.Proxy && p.transport.Udp? {
        var port := relay.AddSession(SessionFor(flow, proxy, host.globalProxy), setup);
        relayPort := port;
        TrackedAct(tracker.Conns(), host, p, pid, name, action, proxy, relayPort, memory);
        AskedAct(host, p, pid, name, action, proxy, relayPort);
        outs := outs + ([RequestSession(flow, proxy)] + [Send(if port != 0 then Relayed(p, port) else p)]);
        return;
      }
      outs := outs + [Send(p)];
    }

    /** The process behind a flow and the decision for it, which is cached; nothing more than the process id
        for the engine's own flows. */
    method Resolve(host: Host, rules: RE.Engine, flow: FlowKey, now: U32)
      returns (pid: U32, name: ProcName, action: RE.RuleAction, proxy: ProxyInfo)
      requires Valid() && rules.Valid()
      modifies connCache.slots, decisionCache.slots, processCache.slots
      ensures Valid()
      ensures var (id, c1, _) := PidStep(host, old(Memory()), flow.Socket(), now);
        pid == id && if pid == host.selfPid then Memory() == c1
          else var (n, c2) := NameStep(host, c1, pid, now);
            && name == n && (action, proxy) == Decide(Config(rules.rules, host), flow, name)
            && Memory() == if c2.ready then c2.(decision := AfterSet(DECISION_SHAPE, c2.decision, flow, action, now))
               else c2
    {
      hide AfterGet, AfterSet, Lookup, CONN_SHAPE, DECISION_SHAPE, PROCESS_SHAPE, Decide,
        PidStep, NameStep, RE.Engine.Valid;
      pid := LookupPid(host, flow.Socket(), now);
      name, action, proxy := "", RE.Direct, NO_PROXY;
      if pid == host.selfPid { return; }
      name := LookupName(host, pid, now);
      action, proxy := Judge(host, rules, flow, name);
      if cacheReady { decisionCache.Set(flow, action, now); }
    }

    /** Everything after a miss in the decision cache. */
    method Inspect(host: Host, rules: RE.Engine, tracker: CT.Tracker, relay: UR.Relay, p: Packet, now: U32,
      memory: bool, setup: UR.Setup)
      returns (outs: seq<Output>, ghost relayPort: U16)
      requires Valid() && rules.Valid() && tracker.Valid() && relay.Valid()
        && p.net.V4Header? && UR.NewHandles(setup, relay.live)
      modifies connCache.slots, decisionCache.slots, processCache.slots, tracker, tracker.spine
      modifies relay.sessions, relay`live, relay`closed
      ensures Valid() && tracker.Valid() && tracker.initialized == old(tracker.initialized) && relay.Valid()
      ensures forall n :: n in tracker.spine ==> n in old(tracker.spine) || fresh(n)
      ensures var o := SlowPath(Config(old(rules.rules), host), old(Memory()), p, Env(now, relayPort, memory));
        outs == o.outs && Memory() == o.memo
      ensures tracker.Conns() == if tracker.initialized then Tracked(old(tracker.Conns()), outs, memory)
        else old(tracker.Conns())
      ensures relay.Content() == RelayAfter(old(relay.Content()), outs, host.globalProxy, setup, relay.localPort)
      ensures relayPort == RelayAnswer(old(relay.sessions[..]), outs, host.globalProxy, setup, relay.localPort)
    {
      hide AfterGet, AfterSet, Lookup, CONN_SHAPE, DECISION_SHAPE, PROCESS_SHAPE, Act, Decide, PidStep, NameStep;
      hide CT.Tracker.Valid, RE.Engine.Valid, UR.Relay.Valid, CT.MapOf, Tracked, RelayAfter, RelayAnswer;
      var pid, name, action, proxy := Resolve(host, rules, FlowOf(p), now);
      if pid == host.selfPid {
        SendIsQuiet(p, tracker.Conns(), memory, relay.Content(), host.globalProxy, setup, relay.localPort);
        return [Send(p)], 0;
      }
      outs, relayPort := Execute(host, tracker, relay, p, pid, name, action, proxy, memory, setup);
    }

    /** Which way a captured packet goes. */
    method RouteOf(tracker: CT.Tracker, p: Packet) returns (route: Route)
      requires tracker.Valid()
      ensures route == Classify(tcpPort, tracker.Conns(), p)
    {
      hide CT.Tracker.Valid, CT.MapOf, IsBroadcastOrMulticast, IsPrivate;
      if p.net.NoIp? { return Pass; }
      if p.outbound && p.net.V4Header? && p.transport.Tcp? && p.transport.srcPort == tcpPort {
        var found := tracker.GetFull(p.transport.dstPort);
        if found.Some? {
          var (srcIp, destIp, destPort) := found.value;
          return Reply(Packet(p.outbound, V4Header(destIp, srcIp), Tcp(destPort, p.transport.dstPort), p.rest));
        }
      }
      if !p.outbound || p.net.V6Header? { return Pass; }
      if IsBroadcastOrMulticast(p.net.dst) { return Pass; }
      if IsPrivate(p.net.dst) { return Pass; }
      return Route.Inspect(FlowOf(p));
    }

    /** One turn of the packet loop. */
    method ProcessPacket(host: Host, rules: RE.Engine, tracker: CT.Tracker, relay: UR.Relay, p: Packet, now: U32,
      memory: bool, setup: UR.Setup)
      returns (outs: seq<Output>, ghost relayPort: U16)
      requires Valid() && rules.Valid() && tracker.Valid() && relay.Valid() && host.tcpPort == tcpPort
      requires UR.NewHandles(setup, relay.live)
      modifies connCache.slots, decisionCache.slots, processCache.slots, tracker, tracker.spine
      modifies relay.sessions, relay`live, relay`closed
      ensures Valid() && tracker.Valid() && tracker.initialized == old(tracker.initialized) && relay.Valid()
      ensures forall n :: n in tracker.spine ==> n in old(tracker.spine) || fresh(n)
      ensures var o := Step(Config(old(rules.rules), host), old(Memory()), old(tracker.Conns()),
            p, Env(now, relayPort, memory));
        outs == o.outs && Memory() == o.memo
      ensures tracker.Conns() == if tracker.initialized then Tracked(old(tracker.Conns()), outs, memory)
        else old(tracker.Conns())
      ensures relay.Content() == RelayAfter(old(relay.Content()), outs, host.globalProxy, setup, relay.localPort)
      ensures relayPort == RelayAnswer(old(relay.sessions[..]), outs, host.globalProxy, setup, relay.localPort)
    {
      hide AfterGet, AfterSet, Lookup, CONN_SHAPE, DECISION_SHAPE, PROCESS_SHAPE, SlowPath, Classify;
      hide CT.Tracker.Valid, RE.Engine.Valid, UR.Relay.Valid, CT.MapOf, Tracked, RelayAfter, RelayAnswer;
      var route := RouteOf(tracker, p);
      var sent := if route.Reply? then route.packet else p;
      SendIsQuiet(sent, tracker.Conns(), memory, relay.Content(), host.globalProxy, setup, relay.localPort);
      if !route.Inspect? { return [Send(sent)], 0; }
      var hit := None;
      if cacheReady { hit := decisionCache.Get(route.flow, now); }
      if hit == Some(RE.Direct) { return [Send(p)], 0; }
      outs, relayPort := Inspect(host, rules, tracker, relay, p, now, memory, setup);
    }
  }
}
