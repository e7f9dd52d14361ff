/** The engine: configuration, and all-or-nothing start and stop of the three components. */
module ProxyEngine {
  import opened CTypes
  import CT = ConnectionTracker
  import RE = RuleEngine
  import PP = PacketProcessor
  import LP = LocalProxy
  import UR = UdpRelay
  import PL = PacketPipeline

  const PORT_RANGE := 10
  const TCP_BASE: U16 := 34020
  const UDP_BASE: U16 := 34021

  /** How the system answers one attempt to listen on a port: the socket (or `INVALID`), bind, listen,
      and the thread. */
  datatype Attempt = Attempt(handle: int, bound: bool, listens: bool, threadOk: bool)

  predicate UdpSucceeds(a: Attempt) { a.handle != INVALID && a.bound && a.threadOk }
  predicate TcpSucceeds(a: Attempt) { a.handle != INVALID && a.bound && a.listens && a.threadOk }

  /** Everything the system answers during one start. */
  datatype Boot = Boot(winsock: bool, udp: seq<Attempt>, tcp: seq<Attempt>, capture: bool, captureThread: bool)
  {
    predicate Complete() {
      && |udp| == PORT_RANGE && |tcp| == PORT_RANGE
      && forall i :: 0 <= i < PORT_RANGE ==> udp[i].handle >= INVALID && tcp[i].handle >= INVALID
    }
  }

  /** Index of the first attempt that succeeds. */
  function FirstUdp(attempts: seq<Attempt>): (i: nat)
    ensures i <= |attempts|
    ensures i < |attempts| ==> UdpSucceeds(attempts[i])
    ensures forall k :: 0 <= k < i ==> !UdpSucceeds(attempts[k])
  {
    if attempts == [] || UdpSucceeds(attempts[0]) then 0 else FirstUdp(attempts[1..]) + 1
  }

  function FirstTcp(attempts: seq<Attempt>): (i: nat)
    ensures i <= |attempts|
    ensures i < |attempts| ==> TcpSucceeds(attempts[i])
    ensures forall k :: 0 <= k < i ==> !TcpSucceeds(attempts[k])
  {
    if attempts == [] || TcpSucceeds(attempts[0]) then 0 else FirstTcp(attempts[1..]) + 1
  }

  class Engine {
    const tracker: CT.Tracker
    const rules: RE.Engine
    const processor: PP.Processor
    const local: LP.Server
    const relay: UR.Relay
    var initialized: bool
    var running: bool
    var tcpPort: U16
    var udpPort: U16
    var proxyKind: ProxyKind
    var proxyHost: string
    var proxyPort: U16
    var username: seq<U8>
    var password: seq<U8>
    var dnsViaProxy: bool

    ghost predicate Components()
      reads tracker, tracker.spine, rules, rules.spine, local, relay, relay.sessions
      reads processor.connCache.slots, processor.decisionCache.slots, processor.processCache.slots
    {
      tracker.Valid() && rules.Valid() && processor.Valid() && local.Valid() && relay.Valid()
    }

    /** The engine runs exactly when all three components do, otherwise none does; while it runs, the
        ports packets are redirected to are the ports the listeners are bound to, and these differ. */
    ghost predicate Lifecycle()
      reads this, processor, local, relay
    {
      && processor.running == running && local.running == running && relay.running == running
      && (running ==>
            initialized && processor.tcpPort == local.port == tcpPort
            && processor.udpPort == relay.localPort == udpPort)
      && (running ==> tcpPort != udpPort)
      && (!running ==> relay.live == {})
    }

    ghost predicate Configured()
      reads this
    {
      |proxyHost| <= 255 && |username| <= 63 && |password| <= 63
    }

    ghost predicate Valid()
      reads this, tracker, tracker.spine, rules, rules.spine, processor, local, relay, relay.sessions
      reads processor.connCache.slots, processor.decisionCache.slots, processor.processCache.slots
    {
      && Components() && Lifecycle() && Configured()
      && (initialized ==> tracker.initialized && rules.initialized && processor.cacheReady)
    }

    constructor ()
      ensures Valid() && !initialized && !running && dnsViaProxy && GlobalProxy() == NO_PROXY
    {
      tracker := new CT.Tracker();
      rules := new RE.Engine();
      processor := new PP.Processor();
      local := new LP.Server();
      relay := new UR.Relay();
      initialized, running, tcpPort, udpPort := false, false, 0, 0;
      proxyKind, proxyHost, proxyPort, username, password := ProxyKind.Socks5, "", 0, [], [];
      dnsViaProxy := true;
    }

    // ---- Configuration ----

    /** Overlong texts are cut to their buffers; a missing host or port leaves everything as it was. */
    method SetProxy(kind: ProxyKind, host: string, port: U16, user: seq<U8>, pass: seq<U8>) returns (ok: bool)
      requires Configured()
      modifies `proxyKind, `proxyHost, `proxyPort, `username, `password
      ensures Configured() && ok == (host != "" && port != 0)
      ensures GlobalProxy() == if ok then ProxyRecord(kind, Clip(host, 255), port, Clip(user, 63), Clip(pass, 63), true)
                               else old(GlobalProxy())
    {
      if host == "" || port == 0 { return false; }
      proxyHost := Clip(host, 255);
      proxyPort := port;
      proxyKind := kind;
      username := Clip(user, 63);
      password := Clip(pass, 63);
      return true;
    }

    method SetDnsViaProxy(enable: bool)
      modifies `dnsViaProxy
      ensures dnsViaProxy == enable
    {
      dnsViaProxy := enable;
    }

    /** The proxy used when a rule names none; usable only once a host and a port are set. */
    function GlobalProxy(): (p: ProxyInfo)
      requires Configured()
      reads this
      ensures p.hasProxy <==> proxyHost != "" && proxyPort != 0
      ensures !p.hasProxy ==> p == NO_PROXY
    {
      if proxyHost == "" || proxyPort == 0 then NO_PROXY
      else ProxyRecord(proxyKind, proxyHost, proxyPort, username, password, true)
    }

    // ---- Life cycle ----

    /** `winsock` says whether the socket library starts. */
    method Init(winsock: bool) returns (ok: bool)
      requires Valid()
      modifies this, tracker, rules, relay.sessions, processor`cacheReady
      modifies processor.connCache.slots, processor.decisionCache.slots, processor.processCache.slots
      ensures Valid() && running == old(running) && initialized == ok == (old(initialized) || winsock)
      ensures rules.initialized && tracker.initialized && tracker.Conns() == old(tracker.Conns())
      ensures !old(initialized) ==> forall k :: 0 <= k < relay.sessions.Length ==> relay.sessions[k] == UR.NO_SESSION
      ensures processor.Memory()
           == if old(initialized || processor.cacheReady) || !winsock then old(processor.Memory()) else PL.Zeroed(true)
    {
      hide CT.Tracker.Valid, RE.Engine.Valid, UR.Relay.Valid, PP.Processor.Valid;
      if initialized { return true; }
      InitTables();
      assert processor.Valid();
      if !winsock { return false; }
      processor.InitCaches();
      assert rules.Valid() && relay.Valid() && tracker.Valid();
      initialized := true;
      return true;
    }

    method InitTables()
      requires tracker.Valid() && rules.Valid() && relay.Valid() && relay.live == {}
      modifies tracker, rules, relay.sessions
      ensures tracker.Valid() && rules.Valid() && relay.Valid()
      ensures tracker.initialized && rules.initialized
      ensures tracker.spine == old(tracker.spine) && rules.spine == old(rules.spine)
      ensures tracker.Conns() == old(tracker.Conns())
      ensures forall k :: 0 <= k < relay.sessions.Length ==> relay.sessions[k] == UR.NO_SESSION
    {
      hide CT.Tracker.Valid, RE.Engine.Valid, UR.Relay.Valid;
      tracker.Init();
      rules.Init();
      relay.Init();
    }

    /** Tries the UDP ports in turn. */
    method FindUdpPort(boot: Boot) returns (started: bool)
      requires relay.Valid() && relay.live == {} && !relay.running && boot.Complete()
      modifies relay, `udpPort
      ensures relay.Valid() && relay.running == started == (FirstUdp(boot.udp) < PORT_RANGE)
      ensures relay.live == if started then {relay.listen} else {}
      ensures started ==> udpPort == relay.localPort == UDP_BASE + 2 * FirstUdp(boot.udp)
    {
      hide UR.Relay.Valid, FirstUdp;
      started := false;
      var i := 0;
      while i < PORT_RANGE && !started
        invariant 0 <= i <= PORT_RANGE && relay.Valid() && relay.running == started
        invariant relay.live == if started then {relay.listen} else {}
        invariant if started then i == FirstUdp(boot.udp) + 1 else i <= FirstUdp(boot.udp)
        invariant started ==> udpPort == relay.localPort == UDP_BASE + 2 * (i - 1)
      {
        var port := UDP_BASE + 2 * i;
        var a := boot.udp[i];
        var ok := relay.Start(port, a.handle, a.bound, a.threadOk);
        if ok {
          udpPort := port;
          started := true;
        }
        i := i + 1;
      }
    }

    /** Tries the TCP ports in turn. */
    method FindTcpPort(boot: Boot) returns (started: bool)
      requires boot.Complete() && local.Valid() && !local.running
      modifies local, `tcpPort
      ensures local.Valid() && local.running == started == (FirstTcp(boot.tcp) < PORT_RANGE)
      ensures started ==> tcpPort == local.port == TCP_BASE + 2 * FirstTcp(boot.tcp)
    {
      started := false;
      var i := 0;
      while i < PORT_RANGE && !started
        invariant 0 <= i <= PORT_RANGE && local.Valid() && local.running == started
        invariant if started then i == FirstTcp(boot.tcp) + 1 else i <= FirstTcp(boot.tcp)
        invariant started ==> tcpPort == local.port == TCP_BASE + 2 * (i - 1)
      {
        var port := TCP_BASE + 2 * i;
        var a := boot.tcp[i];
        var ok := local.Start(port, a.handle, a.bound, a.listens, a.threadOk);
        if ok {
          tcpPort := port;
          started := true;
        }
        i := i + 1;
      }
    }

    /** All or nothing: the engine starts exactly when a UDP port, a TCP port and the capture can be had,
        on the first free port of each range; otherwise every component started on the way is stopped. */
    method Start(boot: Boot) returns (ok: bool)
      requires Valid() && boot.Complete()
      modifies this, tracker, rules, relay, relay.sessions, local, processor
      modifies processor.connCache.slots, processor.decisionCache.slots, processor.processCache.slots
      ensures Valid()
      ensures ok == running == (old(running)
        || ((old(initialized) || boot.winsock) && FirstUdp(boot.udp) < 10 && FirstTcp(boot.tcp) < 10
            && boot.capture && boot.captureThread))
      ensures ok && !old(running) ==>
        relay.localPort == 34021 + 2 * FirstUdp(boot.udp) && local.port == 34020 + 2 * FirstTcp(boot.tcp)
    {
      hide CT.Tracker.Valid, RE.Engine.Valid, UR.Relay.Valid, PP.Processor.Valid;
      if !initialized {
        ok := Init(boot.winsock);
        if !ok { return; }
      }
      if running { return true; }
      ok := Launch(boot);
    }

    method Launch(boot: Boot) returns (ok: bool)
      requires Valid() && boot.Complete() && initialized && !running
      modifies this, relay, relay.sessions, local, processor
      ensures Valid() && initialized
      ensures ok == running == (FirstUdp(boot.udp) < PORT_RANGE && FirstTcp(boot.tcp) < PORT_RANGE
                                && boot.capture && boot.captureThread)
      ensures ok ==>
        relay.localPort == UDP_BASE + 2 * FirstUdp(boot.udp) && local.port == TCP_BASE + 2 * FirstTcp(boot.tcp)
    {
      hide CT.Tracker.Valid, RE.Engine.Valid, UR.Relay.Valid, PP.Processor.Valid, FirstUdp, FirstTcp;
      ok := StartTraffic(boot);
      if ok {
        assert udpPort % 2 == 1 && tcpPort % 2 == 0;
        running := true;
      }
    }

    /** Finds the two ports, then starts the capture; rolls back on failure. */
    method StartTraffic(boot: Boot) returns (ok: bool)
      requires relay.Valid() && local.Valid() && boot.Complete()
      requires relay.live == {} && !relay.running && !local.running && !processor.running
      modifies relay, relay.sessions, local, `udpPort, `tcpPort
      modifies processor`tcpPort, processor`udpPort, processor`running, processor`handleOpen, processor`threadAlive
      ensures relay.Valid() && local.Valid() && relay.live == if ok then {relay.listen} else {}
      ensures ok == relay.running == local.running == processor.running
           == (FirstUdp(boot.udp) < PORT_RANGE && FirstTcp(boot.tcp) < PORT_RANGE && boot.capture && boot.captureThread)
      ensures ok ==> processor.udpPort == udpPort == relay.localPort == UDP_BASE + 2 * FirstUdp(boot.udp)
      ensures ok ==> processor.tcpPort == tcpPort == local.port == TCP_BASE + 2 * FirstTcp(boot.tcp)
    {
      hide UR.Relay.Valid, FirstUdp, FirstTcp;
      ok := OpenListeners(boot);
      if !ok { return; }
      processor.SetActivePorts(tcpPort, udpPort);
      ok := processor.Start(boot.capture, boot.captureThread);
      if !ok { CloseListeners(); }
    }

    /** Stops the local proxy, then the relay, which closes every session. */
    method CloseListeners()
      requires relay.Valid() && local.Valid()
      modifies local, relay, relay.sessions
      ensures relay.Valid() && local.Valid() && !local.running && !relay.running
      ensures relay.live == if old(relay.running) then {} else old(relay.live)
    {
      hide UR.Relay.Valid;
      local.Stop();
      relay.Stop();
    }

    method OpenListeners(boot: Boot) returns (ok: bool)
      requires relay.Valid() && local.Valid() && relay.live == {} && !relay.running && !local.running && boot.Complete()
      modifies relay, relay.sessions, local, `udpPort, `tcpPort
      ensures relay.Valid() && local.Valid() && relay.live == if ok then {relay.listen} else {}
      ensures ok == relay.running == local.running ==
        (FirstUdp(boot.udp) < PORT_RANGE && FirstTcp(boot.tcp) < PORT_RANGE)
      ensures ok ==> udpPort == relay.localPort == UDP_BASE + 2 * FirstUdp(boot.udp)
      ensures ok ==> tcpPort == local.port == TCP_BASE + 2 * FirstTcp(boot.tcp)
    {
      hide UR.Relay.Valid, FirstUdp, FirstTcp;
      ok := FindUdpPort(boot);
      if !ok { return; }
      ok := FindTcpPort(boot);
      if !ok { relay.Stop(); }
    }

    /** The packet loop's view of this engine's configuration. */
    function View(selfPid: U32, hasCallback: bool, pidOf: PL.SocketKey -> U32, nameOf: U32 -> PL.ProcName): PL.Host
      requires Configured()
      reads this, processor
    {
      PL.Host(GlobalProxy(), dnsViaProxy, selfPid, processor.tcpPort, hasCallback, pidOf, nameOf)
    }

    /** A captured packet, processed under the engine's own rules, proxy and ports. A datagram to be proxied
        opens its session in the engine's own relay, and leaves toward the relay's own port. */
    method HandlePacket(p: PL.Packet, now: U32, memory: bool, setup: UR.Setup, selfPid: U32, hasCallback: bool,
                        pidOf: PL.SocketKey -> U32, nameOf: U32 -> PL.ProcName)
      returns (outs: seq<PL.Output>, ghost relayPort: U16)
      requires Valid() && running && UR.NewHandles(setup, relay.live)
      modifies tracker, tracker.spine, relay.sessions, relay`live, relay`closed
      modifies processor.connCache.slots, processor.decisionCache.slots, processor.processCache.slots
      ensures Valid() && running
      ensures var o := PL.Step(PL.Config(rules.rules, PL.Host(GlobalProxy(), dnsViaProxy, selfPid, tcpPort,
                                                              hasCallback, pidOf, nameOf)),
                               old(processor.Memory()), old(tracker.Conns()), p, PL.Env(now, relayPort, memory));
        && outs == o.outs && processor.Memory() == o.memo
        && tracker.Conns() == PL.Tracked(old(tracker.Conns()), outs, memory)
      ensures relay.Content() == PP.RelayAfter(old(relay.Content()), outs, GlobalProxy(), setup, udpPort)
      ensures relayPort == PP.RelayAnswer(old(relay.sessions[..]), outs, GlobalProxy(), setup, udpPort)
      ensures relayPort in {0, udpPort}
    {
      hide PL.Step, PL.Tracked, CT.Tracker.Valid, RE.Engine.Valid, UR.Relay.Valid,
        PP.Processor.Valid, GlobalProxy, PP.RelayAfter, PP.RelayAnswer;
      outs, relayPort := processor.ProcessPacket(View(selfPid, hasCallback, pidOf, nameOf),
        rules, tracker, relay, p, now, memory, setup);
    }

    /** Stops all three components and forgets every tracked connection. */
    method Stop()
      requires Valid()
      modifies this, tracker, relay, relay.sessions, local, processor
      ensures Valid() && !running && initialized == old(initialized)
      ensures old(running) ==> tracker.Conns() == map[] && relay.live == {}
      ensures processor.cacheReady == old(processor.cacheReady)
    {
      hide CT.Tracker.Valid, RE.Engine.Valid, UR.Relay.Valid, PP.Processor.Valid;
      if !running { return; }
      StopTraffic();
      assert rules.Valid() && processor.Valid();
      tracker.Clear();
      assert rules.Valid() && processor.Valid() && relay.Valid();
      running := false;
    }

    /** Stops the capture, then the listeners. */
    method StopTraffic()
      requires relay.Valid() && local.Valid() && relay.running
      modifies local, relay, relay.sessions, processor`running, processor`handleOpen, processor`threadAlive
      ensures relay.Valid() && local.Valid() && !processor.running && !local.running
        && !relay.running && relay.live == {}
    {
      hide UR.Relay.Valid;
      processor.Stop();
      CloseListeners();
    }

    method Cleanup()
      requires Valid()
      modifies this, tracker, rules, relay, relay.sessions, local, processor
      ensures Valid() && !running && !initialized
      ensures old(initialized) ==>
        !tracker.initialized && tracker.Conns() == map[] && !rules.initialized && rules.rules == []
        && !processor.cacheReady && relay.live == {}
    {
      hide CT.Tracker.Valid, RE.Engine.Valid, UR.Relay.Valid, PP.Processor.Valid;
      if !initialized { return; }
      Stop();
      CleanupComponents();
      assert processor.Valid();
      initialized := false;
    }

    method CleanupComponents()
      requires Components() && !relay.running
      modifies tracker, rules, relay, relay.sessions, local, processor`cacheReady
      ensures Components() && relay.live == old(relay.live) && !relay.running && !local.running && !processor.cacheReady
      ensures !rules.initialized && !tracker.initialized && tracker.Conns() == map[] && rules.rules == []
    {
      hide CT.Tracker.Valid, RE.Engine.Valid, UR.Relay.Valid, PP.Processor.Valid;
      CleanupTraffic();
      assert rules.Valid() && processor.Valid() && tracker.Valid();
      CleanupTables();
      assert processor.Valid() && relay.Valid() && local.Valid();
    }

    method CleanupTraffic()
      requires processor.Valid() && relay.Valid() && local.Valid() && !relay.running
      modifies processor`cacheReady, local, relay, relay.sessions
      ensures relay.Valid() && local.Valid() && relay.live == old(relay.live)
      ensures !relay.running && !local.running && !processor.cacheReady
    {
      hide UR.Relay.Valid, PP.Processor.Valid;
      processor.CleanupCaches();
      CloseListeners();
    }

    method CleanupTables()
      requires tracker.Valid() && rules.Valid()
      modifies tracker, rules
      ensures tracker.Valid() && rules.Valid() && !rules.initialized && !tracker.initialized
      ensures tracker.spine == [] && rules.spine == [] && tracker.Conns() == map[] && rules.rules == []
    {
      hide CT.Tracker.Valid, RE.Engine.Valid;
      rules.Cleanup();
      tracker.Cleanup();
    }
  }
}
