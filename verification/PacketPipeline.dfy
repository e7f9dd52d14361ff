/** The packet processor: classification, the three caches, the rule decision, and the two address
    rewrites. Operating-system lookups are the functions of `Host`; one tick value per packet. */
module PacketPipeline {
  import opened CTypes
  import CStrings
  import opened ProbeTables
  import opened ConnectionTracker
  import RE = RuleEngine

  // ---- Packets ----

  datatype Net = V4Header(src: U32, dst: U32) | V6Header | NoIp

  datatype Transport = Tcp(srcPort: U16, dstPort: U16) | Udp(srcPort: U16, dstPort: U16) | Neither

  /** `rest` is every byte the engine never rewrites. */
  datatype Packet = Packet(outbound: bool, net: Net, transport: Transport, rest: seq<U8>)

  datatype SocketKey = SocketKey(ip: U32, port: U16, proto: U8)

  datatype FlowKey = FlowKey(srcIp: U32, srcPort: U16, dstIp: U32, dstPort: U16, isTcp: bool)
  {
    function Proto(): U8 { if isTcp then 6 else 17 }
    function Socket(): SocketKey { SocketKey(srcIp, srcPort, Proto()) }
  }

  /** A process image path in a 256-byte buffer. */
  type ProcName = s: string | |s| <= 255

  // ---- What the engine reads from its surroundings ----

  datatype Host = Host(globalProxy: ProxyInfo, dnsViaProxy: bool, selfPid: U32, tcpPort: U16, hasCallback: bool,
                       pidOf: SocketKey -> U32, nameOf: U32 -> ProcName)

  datatype Config = Config(rules: seq<RE.Rule>, host: Host)

  /** `relayPort` is what the UDP relay answers to a session request, `memory` whether a tracker node
      can be allocated. */
  datatype Env = Env(now: U32, relayPort: U16, memory: bool)

  // ---- Addresses that never reach the rules ----

  predicate IsBroadcastOrMulticast(ip: U32) {
    || Octet(ip, 0) == 127
    || (Octet(ip, 0) == 169 && Octet(ip, 1) == 254)
    || ip == 0xFFFF_FFFF
    || Octet(ip, 3) == 255
    || 224 <= Octet(ip, 0) <= 239
  }

  predicate IsPrivate(ip: U32) {
    || Octet(ip, 0) == 10
    || (Octet(ip, 0) == 172 && 16 <= Octet(ip, 1) <= 31)
    || (Octet(ip, 0) == 192 && Octet(ip, 1) == 168)
  }

  /** The address as the number its dotted notation denotes. */
  function Dotted(ip: U32): U32 {
    FromOctets(Octet(ip, 3), Octet(ip, 2), Octet(ip, 1), Octet(ip, 0))
  }

  /** Membership of a block of `size` addresses that starts at the dotted number `base`. */
  predicate InBlock(ip: U32, base: U32, size: nat) {
    base <= Dotted(ip) < base + size
  }

  /** The octet tests are the blocks 10.0.0.0/8, 172.16.0.0/12 and 192.168.0.0/16, and on the other
      side 127.0.0.0/8, 169.254.0.0/16, 224.0.0.0/4 and every address that ends in 255. */
  lemma BypassedBlocks(ip: U32)
    ensures IsPrivate(ip) <==>
      InBlock(ip, 0x0A00_0000, 0x100_0000) || InBlock(ip, 0xAC10_0000, 0x10_0000) || InBlock(ip, 0xC0A8_0000, 0x1_0000)
    ensures IsBroadcastOrMulticast(ip) <==>
      InBlock(ip, 0x7F00_0000, 0x100_0000) || InBlock(ip, 0xA9FE_0000, 0x1_0000)
      || InBlock(ip, 0xE000_0000, 0x1000_0000)
      || Dotted(ip) % 0x100 == 255
  {
    var a, b, c, d := Octet(ip, 0), Octet(ip, 1), Octet(ip, 2), Octet(ip, 3);
    assert ip == 0xFFFF_FFFF ==> d == 255;
    LastOctet(d, c, b, a);
    hide Octet;
  }

  lemma LastOctet(d: U8, c: U8, b: U8, a: U8)
    ensures FromOctets(d, c, b, a) % 0x100 == d
  {
    assert FromOctets(d, c, b, a) == d + 0x100 * (c + 0x100 * b + 0x1_0000 * a);
  }

  // ---- Classification ----

  datatype Route = Pass | Reply(packet: Packet) | Inspect(flow: FlowKey)

  /** A reply of the local proxy leaves with the destination its client dialled as its source. */
  function Restore(p: Packet, c: Conn): Packet
    requires p.transport.Tcp? && c.dest.V4?
  {
    Packet(p.outbound, V4Header(c.dest.ip, c.srcIp), Tcp(c.destPort, p.transport.dstPort), p.rest)
  }

  function FlowOf(p: Packet): FlowKey
    requires p.net.V4Header?
  {
    match p.transport
    case Tcp(s, d) => FlowKey(p.net.src, s, p.net.dst, d, true)
    case Udp(s, d) => FlowKey(p.net.src, s, p.net.dst, d, false)
    case Neither => FlowKey(p.net.src, 0, p.net.dst, 0, false)
  }

  predicate FromLocalProxy(tcpPort: U16, p: Packet) {
    p.outbound && p.net.V4Header? && p.transport.Tcp? && p.transport.srcPort == tcpPort
  }

  function Classify(tcpPort: U16, conns: map<U16, Conn>, p: Packet): (r: Route)
    ensures r.Inspect? ==> p.outbound && p.net.V4Header? && r.flow == FlowOf(p)
  {
    if p.net.NoIp? then Pass
    else if FromLocalProxy(tcpPort, p) && Visible4(conns, p.transport.dstPort).Some?
    then Reply(Restore(p, Visible4(conns, p.transport.dstPort).value))
    else if !p.outbound || p.net.V6Header? then Pass
    else if IsBroadcastOrMulticast(p.net.dst) || IsPrivate(p.net.dst) then Pass
    else Inspect(FlowOf(p))
  }

  // ---- The decision ----

  /** The rule verdict, with the global proxy standing in for a missing per-rule proxy. */
  function Decide(cfg: Config, flow: FlowKey, name: string): (RE.RuleAction, ProxyInfo) {
    if flow.dstPort == 53 && !cfg.host.dnsViaProxy then (RE.Direct, NO_PROXY)
    else
      var (action, proxy) := RE.Verdict(cfg.rules, RE.Query(name, flow.dstIp, flow.dstPort, flow.isTcp));
      Effective(action, proxy, cfg.host.globalProxy)
  }

  function Effective(action: RE.RuleAction, proxy: ProxyInfo, globalProxy: ProxyInfo): (RE.RuleAction, ProxyInfo) {
    if action != RE.Proxy then (action, proxy)
    else
      var p := if proxy.hasProxy then proxy else globalProxy;
      (if p.hasProxy then RE.Proxy else RE.Direct, p)
  }

  /** A flow is proxied or blocked exactly when the documented rule choice says so, DNS is not bypassed,
      and, for a proxied one, the rule or the engine has a proxy; the rule's own proxy goes first. */
  lemma DecisionIsDocumented(cfg: Config, flow: FlowKey, name: string, c: Option<RE.Rule>)
    requires RE.IsChoice(cfg.rules, RE.Query(name, flow.dstIp, flow.dstPort, flow.isTcp), c)
    ensures var (action, proxy) := Decide(cfg, flow, name);
      var bypass := flow.dstPort == 53 && !cfg.host.dnsViaProxy;
      && (action == RE.Block <==> !bypass && c.Some? && c.value.action == RE.Block)
      && (action == RE.Proxy <==> !bypass && c.Some? && c.value.action == RE.Proxy
                                  && (c.value.proxy.hasProxy || cfg.host.globalProxy.hasProxy))
      && (action == RE.Proxy ==> proxy == if c.value.proxy.hasProxy then c.value.proxy else cfg.host.globalProxy)
  {
    RE.VerdictIsDocumentedChoice(cfg.rules, RE.Query(name, flow.dstIp, flow.dstPort, flow.isTcp), c);
    hide RE.OnePass, RE.IsChoice;
  }

  function NameOf(host: Host, pid: U32): ProcName {
    if pid == 0 then "" else host.nameOf(pid)
  }

  // ---- Effects ----

  datatype Output =
    | Send(packet: Packet)
    | Callback(process: string, pid: U32, ip: U32, port: U16, action: RE.RuleAction, udp: bool)
    | Track(port: U16, conn: Conn)
    | RequestSession(flow: FlowKey, proxy: ProxyInfo)

  function ExtractFilename(path: string): string {
    var b := CStrings.LastIndexOf(path, '\\');
    var last := if b >= 0 then b else CStrings.LastIndexOf(path, '/');
    if last >= 0 then path[last + 1..] else path
  }

  function Redirected(p: Packet, tcpPort: U16): Packet
    requires p.net.V4Header? && p.transport.Tcp?
  {
    Packet(p.outbound, V4Header(p.net.src, p.net.src), Tcp(p.transport.srcPort, tcpPort), p.rest)
  }

  /** A datagram handed to the UDP relay: addresses swapped, turned inbound. */
  function Relayed(p: Packet, relayPort: U16): Packet
    requires p.net.V4Header? && p.transport.Udp?
  {
    Packet(false, V4Header(p.net.dst, p.net.src), Udp(p.transport.srcPort, relayPort), p.rest)
  }

  function Announce(host: Host, flow: FlowKey, p: Packet, pid: U32, name: string, action: RE.RuleAction): seq<Output> {
    if host.hasCallback && action != RE.Direct
    then [Callback(ExtractFilename(name), pid, flow.dstIp, flow.dstPort, action, p.transport.Udp?)] else []
  }

  /** Carrying out a decision. */
  function Act(host: Host, p: Packet, pid: U32, name: string, action: RE.RuleAction, proxy: ProxyInfo,
               relayPort: U16): seq<Output>
    requires p.net.V4Header?
  {
    var flow := FlowOf(p);
    Announce(host, flow, p, pid, name, action) +
    match action
    case Block => []
    case Direct => [Send(p)]
    case Proxy =>
      match p.transport
      case Tcp(s, d) => [Track(s, Conn(flow.srcIp, V4(flow.dstIp), d, proxy)), Send(Redirected(p, host.tcpPort))]
      case Udp(s, d) => [RequestSession(flow, proxy), Send(if relayPort != 0 then Relayed(p, relayPort) else p)]
      case Neither => [Send(p)]
  }

  /** The tracker after the additions among `outs`. */
  function Tracked(conns: map<U16, Conn>, outs: seq<Output>, memory: bool): map<U16, Conn> {
    if outs == [] then conns
    else
      var rest := Tracked(conns, outs[..|outs| - 1], memory);
      var o := outs[|outs| - 1];
      if o.Track? then Put(rest, o.port, o.conn, memory) else rest
  }

  lemma TrackedStep(conns: map<U16, Conn>, outs: seq<Output>, o: Output, memory: bool)
    ensures Tracked(conns, outs + [o], memory)
         == if o.Track? then Put(Tracked(conns, outs, memory), o.port, o.conn, memory) else Tracked(conns, outs, memory)
  {
    assert (outs + [o])[..|outs|] == outs;
  }

  /** A decision touches the tracker only by redirecting a TCP packet. */
  lemma TrackedAct(conns: map<U16, Conn>, host: Host, p: Packet, pid: U32, name: string, action: RE.RuleAction,
                   proxy: ProxyInfo, relayPort: U16, memory: bool)
    requires p.net.V4Header?
    ensures Tracked(conns, Act(host, p, pid, name, action, proxy, relayPort), memory)
         == if action == RE.Proxy && p.transport.Tcp?
            then Put(conns, p.transport.srcPort, Conn(p.net.src, V4(p.net.dst), p.transport.dstPort, proxy), memory)
            else conns
  {
    var flow := FlowOf(p);
    var a := Announce(host, flow, p, pid, name, action);
    assert a == [] || (|a| == 1 && a[..0] == [] && !a[0].Track?);
    assert Tracked(conns, a, memory) == conns;
    assert a + [] == a;
    TrackedStep(conns, a, Send(p), memory);
    if action == RE.Proxy && p.transport.Tcp? {
      var t, r := Track(flow.srcPort, Conn(flow.srcIp, V4(flow.dstIp), flow.dstPort, proxy)),
          Send(Redirected(p, host.tcpPort));
      TrackedStep(conns, a, t, memory);
      TrackedStep(conns, a + [t], r, memory);
      assert a + [t, r] == a + [t] + [r];
    } else if action == RE.Proxy && p.transport.Udp? {
      var q, r := RequestSession(flow, proxy), Send(if relayPort != 0 then Relayed(p, relayPort) else p);
      TrackedStep(conns, a, q, memory);
      TrackedStep(conns, a + [q], r, memory);
      assert a + [q, r] == a + [q] + [r];
    }
  }

  // ---- The pipeline without caches ----

  function Uncached(cfg: Config, conns: map<U16, Conn>, p: Packet, relayPort: U16): seq<Output> {
    match Classify(cfg.host.tcpPort, conns, p)
    case Pass => [Send(p)]
    case Reply(r) => [Send(r)]
    case Inspect(flow) =>
      var pid := cfg.host.pidOf(flow.Socket());
      if pid == cfg.host.selfPid then [Send(p)]
      else
        var name := NameOf(cfg.host, pid);
        var (action, proxy) := Decide(cfg, flow, name);
        Act(cfg.host, p, pid, name, action, proxy, relayPort)
  }

  // ---- The caches ----

  function ConnHash(k: SocketKey): nat {
    ((k.ip as bv32 ^ ((k.port as bv32) << 16) ^ k.proto as bv32) % 512) as nat
  }

  function FlowHash(k: FlowKey): nat {
    ((k.srcIp as bv32 ^ k.srcPort as bv32 ^ k.dstIp as bv32 ^ k.dstPort as bv32 ^ k.Proto() as bv32) % 1024) as nat
  }

  const CONN_SHAPE: Shape<SocketKey> := Shape(512, 8, 30000, k => ConnHash(k))
  const DECISION_SHAPE: Shape<FlowKey> := Shape(1024, 8, 60000, k => FlowHash(k))
  const PROCESS_SHAPE: Shape<U32> := Shape(256, 256, 5000, pid => pid % 256)

  datatype Caches = Caches(ready: bool, conn: seq<Slot<SocketKey, U32>>, decision: seq<Slot<FlowKey, RE.RuleAction>>,
                           process: seq<Slot<U32, ProcName>>)
  {
    predicate Sized() { |conn| == 512 && |decision| == 1024 && |process| == 256 }
  }

  // Free slots: their contents are never read while `valid` is false.
  const NO_SOCKET := Slot(SocketKey(0, 0, 0), 0 as U32, 0, false)
  const NO_FLOW := Slot(FlowKey(0, 0, 0, 0, false), RE.Direct, 0, false)
  const NO_PROCESS: Slot<U32, ProcName> := Slot(0, "", 0, false)

  /** The three arrays as zero-filled by the initialisation. */
  function Zeroed(ready: bool): (c: Caches)
    ensures c.Sized() && c.ready == ready
    ensures Blank(CONN_SHAPE, c.conn) && Blank(DECISION_SHAPE, c.decision) && Blank(PROCESS_SHAPE, c.process)
  {
    Caches(ready, seq(512, _ => NO_SOCKET), seq(1024, _ => NO_FLOW), seq(256, _ => NO_PROCESS))
  }

  type Memo = c: Caches | c.Sized() witness Zeroed(false)

  /** What the three tables hold for a key. */
  function HeldPid(c: Memo, k: SocketKey): Held<U32> { At(CONN_SHAPE, c.conn, k) }
  function HeldVerdict(c: Memo, f: FlowKey): Held<RE.RuleAction> { At(DECISION_SHAPE, c.decision, f) }
  function HeldName(c: Memo, q: U32): Held<ProcName> { At(PROCESS_SHAPE, c.process, q) }

  /** The PID of the flow's socket: cached, else asked from the system and cached unless zero. */
  function PidStep(host: Host, c: Memo, k: SocketKey, now: U32): (r: (U32, Memo, seq<Mark>))
    ensures r.1 == c.(conn := r.1.conn)
  {
    var hit := if c.ready then Lookup(CONN_SHAPE, c.conn, k, now) else None;
    var c1 := if c.ready then c.(conn := AfterGet(CONN_SHAPE, c.conn, k, now)) else c;
    if hit.Some? && hit.value != 0 then (hit.value, c1, [])
    else
      var pid := host.pidOf(k);
      (pid, if c.ready && pid != 0 then c1.(conn := AfterSet(CONN_SHAPE, c1.conn, k, pid, now)) else c1,
       [Queried(k, pid)])
  }

  /** The image name of a process: cached, else asked from the system and cached unless empty. */
  function NameStep(host: Host, c: Memo, pid: U32, now: U32): (r: (ProcName, Memo))
    ensures r.1 == c.(process := r.1.process)
  {
    var live := c.ready && pid != 0;
    var hit := if live then Lookup(PROCESS_SHAPE, c.process, pid, now) else None;
    var c1 := if live then c.(process := AfterGet(PROCESS_SHAPE, c.process, pid, now)) else c;
    if hit.Some? then (hit.value, c1)
    else
      var name := NameOf(host, pid);
      (name, if live && name != "" then c1.(process := AfterSet(PROCESS_SHAPE, c1.process, pid, name, now)) else c1)
  }

  datatype Outcome = Outcome(outs: seq<Output>, memo: Memo, marks: seq<Mark>)

  /** The slow path: everything after a miss in the decision cache. */
  function SlowPath(cfg: Config, c: Memo, p: Packet, env: Env): Outcome
    requires p.net.V4Header?
  {
    var flow := FlowOf(p);
    var (pid, c1, asked) := PidStep(cfg.host, c, flow.Socket(), env.now);
    if pid == cfg.host.selfPid then Outcome([Send(p)], c1, asked)
    else
      var (name, c2) := NameStep(cfg.host, c1, pid, env.now);
      var (action, proxy) := Decide(cfg, flow, name);
      var c3: Memo := if c2.ready then c2.(decision := AfterSet(DECISION_SHAPE, c2.decision, flow, action, env.now))
        else c2;
      Outcome(Act(cfg.host, p, pid, name, action, proxy, env.relayPort), c3, asked + [Decided(flow, pid, action)])
  }

  /** What the decision cache answers, and the caches after it was asked. */
  function Remembered(c: Memo, flow: FlowKey, now: U32): Option<RE.RuleAction> {
    if c.ready then Lookup(DECISION_SHAPE, c.decision, flow, now) else None
  }

  function Consulted(c: Memo, flow: FlowKey, now: U32): (r: Memo)
    ensures r == c.(decision := r.decision)
  {
    if c.ready then c.(decision := AfterGet(DECISION_SHAPE, c.decision, flow, now)) else c
  }

  /** One turn of the packet loop. */
  function Step(cfg: Config, c: Memo, conns: map<U16, Conn>, p: Packet, env: Env): Outcome {
    match Classify(cfg.host.tcpPort, conns, p)
    case Pass => Outcome([Send(p)], c, [])
    case Reply(r) => Outcome([Send(r)], c, [])
    case Inspect(flow) =>
      var c1 := Consulted(c, flow, env.now);
      if Remembered(c, flow, env.now) == Some(RE.Direct) then Outcome([Send(p)], c1, [FastForward(flow)])
      else SlowPath(cfg, c1, p, env)
  }

  /** What happens inside a step, for reasoning about where decisions come from. */
  datatype Mark =
    | FastForward(flow: FlowKey)
    | Queried(key: SocketKey, pid: U32)
    | Decided(flow: FlowKey, pid: U32, action: RE.RuleAction)

  // ---- Caching is invisible ----

  /** The action the slow path computes for a flow. */
  function ActionOf(cfg: Config, flow: FlowKey): RE.RuleAction {
    Decide(cfg, flow, NameOf(cfg.host, cfg.host.pidOf(flow.Socket()))).0
  }

  ghost predicate ConnCoherent(host: Host, s: seq<Slot<SocketKey, U32>>) {
    && WellPlaced(CONN_SHAPE, s)
    && forall k {:trigger At(CONN_SHAPE, s, k)} :: At(CONN_SHAPE, s, k).Some? ==>
         At(CONN_SHAPE, s, k).value.0 == host.pidOf(k) != 0
  }

  ghost predicate DecisionCoherent(cfg: Config, s: seq<Slot<FlowKey, RE.RuleAction>>) {
    && WellPlaced(DECISION_SHAPE, s)
    && forall k {:trigger At(DECISION_SHAPE, s, k)} :: At(DECISION_SHAPE, s, k).Some? ==>
         At(DECISION_SHAPE, s, k).value.0 == ActionOf(cfg, k) && cfg.host.pidOf(k.Socket()) != cfg.host.selfPid
  }

  ghost predicate ProcessCoherent(host: Host, s: seq<Slot<U32, ProcName>>) {
    && WellPlaced(PROCESS_SHAPE, s)
    && forall k {:trigger At(PROCESS_SHAPE, s, k)} :: At(PROCESS_SHAPE, s, k).Some? ==>
         At(PROCESS_SHAPE, s, k).value.0 == NameOf(host, k)
  }

  /** Every entry of every cache equals the function it caches. */
  ghost predicate Coherent(cfg: Config, c: Memo) {
    ConnCoherent(cfg.host, c.conn) && DecisionCoherent(cfg, c.decision) && ProcessCoherent(cfg.host, c.process)
  }

  lemma BlankIsEmpty<K, V>(sh: Shape<K>, s: seq<Slot<K, V>>)
    requires Blank(sh, s)
    ensures WellPlaced(sh, s) && forall k {:trigger At(sh, s, k)} :: At(sh, s, k) == None
  {
  }

  lemma ZeroedIsCoherent(cfg: Config, ready: bool)
    ensures Coherent(cfg, Zeroed(ready))
  {
    BlankIsEmpty(CONN_SHAPE, Zeroed(ready).conn);
    BlankIsEmpty(DECISION_SHAPE, Zeroed(ready).decision);
    BlankIsEmpty(PROCESS_SHAPE, Zeroed(ready).process);
  }

  lemma PidStepCoherent(cfg: Config, c: Memo, k: SocketKey, now: U32)
    requires ConnCoherent(cfg.host, c.conn)
    ensures PidStep(cfg.host, c, k, now).0 == cfg.host.pidOf(k)
    ensures ConnCoherent(cfg.host, PidStep(cfg.host, c, k, now).1.conn)
  {
    hide AfterSet, AfterGet, At, WellPlaced;
    var got := AfterGet(CONN_SHAPE, c.conn, k, now);
    forall o ensures At(CONN_SHAPE, got, o).Some? ==> At(CONN_SHAPE, got, o).value.0 == cfg.host.pidOf(o) != 0 {
      GetRefines(CONN_SHAPE, c.conn, k, now, o);
    }
    GetRefines(CONN_SHAPE, c.conn, k, now, k);
    var set' := AfterSet(CONN_SHAPE, got, k, cfg.host.pidOf(k), now);
    forall o ensures At(CONN_SHAPE, set', o).Some? && cfg.host.pidOf(k) != 0 ==>
      At(CONN_SHAPE, set', o).value.0 == cfg.host.pidOf(o) != 0
    {
      SetRefines(CONN_SHAPE, got, k, cfg.host.pidOf(k), now, o);
    }
    SetRefines(CONN_SHAPE, got, k, cfg.host.pidOf(k), now, k);
  }

  lemma NameStepCoherent(cfg: Config, c: Memo, pid: U32, now: U32)
    requires ProcessCoherent(cfg.host, c.process)
    ensures NameStep(cfg.host, c, pid, now).0 == NameOf(cfg.host, pid)
    ensures ProcessCoherent(cfg.host, NameStep(cfg.host, c, pid, now).1.process)
  {
    hide AfterSet, AfterGet, At, WellPlaced;
    var name := NameOf(cfg.host, pid);
    var got := AfterGet(PROCESS_SHAPE, c.process, pid, now);
    forall o ensures At(PROCESS_SHAPE, got, o).Some? ==> At(PROCESS_SHAPE, got, o).value.0 == NameOf(cfg.host, o) {
      GetRefines(PROCESS_SHAPE, c.process, pid, now, o);
    }
    GetRefines(PROCESS_SHAPE, c.process, pid, now, pid);
    var set' := AfterSet(PROCESS_SHAPE, got, pid, name, now);
    forall o ensures At(PROCESS_SHAPE, set', o).Some? ==> At(PROCESS_SHAPE, set', o).value.0 == NameOf(cfg.host, o) {
      SetRefines(PROCESS_SHAPE, got, pid, name, now, o);
    }
    SetRefines(PROCESS_SHAPE, got, pid, name, now, pid);
  }

  lemma DecisionGetCoherent(cfg: Config, s: seq<Slot<FlowKey, RE.RuleAction>>, flow: FlowKey, now: U32)
    requires DecisionCoherent(cfg, s)
    ensures DecisionCoherent(cfg, AfterGet(DECISION_SHAPE, s, flow, now))
  {
    var t := AfterGet(DECISION_SHAPE, s, flow, now);
    forall o ensures At(DECISION_SHAPE, t, o).Some? ==> At(DECISION_SHAPE, t, o) == At(DECISION_SHAPE, s, o) {
      GetRefines(DECISION_SHAPE, s, flow, now, o);
    }
    GetRefines(DECISION_SHAPE, s, flow, now, flow);
  }

  lemma DecisionSetCoherent(cfg: Config, s: seq<Slot<FlowKey, RE.RuleAction>>, flow: FlowKey, now: U32)
    requires DecisionCoherent(cfg, s) && cfg.host.pidOf(flow.Socket()) != cfg.host.selfPid
    ensures DecisionCoherent(cfg, AfterSet(DECISION_SHAPE, s, flow, ActionOf(cfg, flow), now))
  {
    hide AfterSet, At, ActionOf;
    var t := AfterSet(DECISION_SHAPE, s, flow, ActionOf(cfg, flow), now);
    forall o ensures At(DECISION_SHAPE, t, o).Some? && o != flow ==>
      At(DECISION_SHAPE, t, o) == At(DECISION_SHAPE, s, o) {
      SetRefines(DECISION_SHAPE, s, flow, ActionOf(cfg, flow), now, o);
    }
    SetRefines(DECISION_SHAPE, s, flow, ActionOf(cfg, flow), now, flow);
  }

  /** A DIRECT decision lets the packet through and does nothing else. */
  lemma DirectOnlySends(host: Host, p: Packet, pid: U32, name: string, proxy: ProxyInfo, relayPort: U16)
    requires p.net.V4Header?
    ensures Act(host, p, pid, name, RE.Direct, proxy, relayPort) == [Send(p)]
  {
  }

  /** The three lookups of a packet of `flow` answer, where they hit, what the system and the rules
      say now. */
  ghost predicate AnswersRight(cfg: Config, c: Memo, flow: FlowKey, now: U32) {
    var pid := cfg.host.pidOf(flow.Socket());
    && Lookup(CONN_SHAPE, c.conn, flow.Socket(), now) in {None, Some(pid)}
    && Lookup(PROCESS_SHAPE, c.process, pid, now) in {None, Some(NameOf(cfg.host, pid))}
  }

  /** A slow path whose lookups answer right is the path without caches, whatever else the caches hold. */
  lemma SlowPathFollows(cfg: Config, c: Memo, conns: map<U16, Conn>, p: Packet, env: Env)
    requires Classify(cfg.host.tcpPort, conns, p).Inspect? && AnswersRight(cfg, c, FlowOf(p), env.now)
    ensures SlowPath(cfg, c, p, env).outs == Uncached(cfg, conns, p, env.relayPort)
    ensures forall f, pid, a :: Decided(f, pid, a) in SlowPath(cfg, c, p, env).marks ==> a == ActionOf(cfg, f)
  {
    hide AfterGet, AfterSet, Lookup, Decide, Act, FlowOf, CONN_SHAPE, DECISION_SHAPE, PROCESS_SHAPE;
  }

  /** A turn whose lookups answer right is the turn without caches. */
  lemma StepFollows(cfg: Config, c: Memo, conns: map<U16, Conn>, p: Packet, env: Env)
    requires Classify(cfg.host.tcpPort, conns, p).Inspect? ==>
      && AnswersRight(cfg, c, FlowOf(p), env.now)
      && (Remembered(c, FlowOf(p), env.now) == Some(RE.Direct) ==> ActionOf(cfg, FlowOf(p)) == RE.Direct)
    ensures Step(cfg, c, conns, p, env).outs == Uncached(cfg, conns, p, env.relayPort)
  {
    hide Remembered, Consulted, SlowPath, Lookup, Decide, Act, CONN_SHAPE, PROCESS_SHAPE;
    var route := Classify(cfg.host.tcpPort, conns, p);
    if route.Inspect? {
      SlowPathFollows(cfg, Consulted(c, route.flow, env.now), conns, p, env);
      var pid := cfg.host.pidOf(route.flow.Socket());
      var name := NameOf(cfg.host, pid);
      DirectOnlySends(cfg.host, p, pid, name, Decide(cfg, route.flow, name).1, env.relayPort);
    }
  }

  lemma CoherentAnswersRight(cfg: Config, c: Memo, flow: FlowKey, now: U32)
    requires Coherent(cfg, c)
    ensures AnswersRight(cfg, c, flow, now)
  {
    hide At, WellPlaced;
  }

  /** The slow path keeps the caches coherent. */
  lemma SlowPathStaysCoherent(cfg: Config, c: Memo, p: Packet, env: Env)
    requires Coherent(cfg, c) && p.net.V4Header?
    ensures Coherent(cfg, SlowPath(cfg, c, p, env).memo)
  {
    hide ConnCoherent, DecisionCoherent, ProcessCoherent, PidStep, NameStep, AfterSet, Act, Decide, FlowOf;
    var flow := FlowOf(p);
    PidStepCoherent(cfg, c, flow.Socket(), env.now);
    var (pid, c1, _) := PidStep(cfg.host, c, flow.Socket(), env.now);
    if pid != cfg.host.selfPid {
      NameStepCoherent(cfg, c1, pid, env.now);
      var (_, c2) := NameStep(cfg.host, c1, pid, env.now);
      DecisionSetCoherent(cfg, c2.decision, flow, env.now);
    }
  }

  /** One cached step emits exactly what the cacheless pipeline emits, and keeps the caches coherent. */
  lemma StepIsUncached(cfg: Config, c: Memo, conns: map<U16, Conn>, p: Packet, env: Env)
    requires Coherent(cfg, c)
    ensures Step(cfg, c, conns, p, env).outs == Uncached(cfg, conns, p, env.relayPort)
    ensures Coherent(cfg, Step(cfg, c, conns, p, env).memo)
  {
    hide SlowPath, AnswersRight, ActionOf, ConnCoherent, ProcessCoherent, Uncached, At, WellPlaced,
      CONN_SHAPE, DECISION_SHAPE;
    var route := Classify(cfg.host.tcpPort, conns, p);
    if route.Inspect? {
      CoherentAnswersRight(cfg, c, route.flow, env.now);
      DecisionGetCoherent(cfg, c.decision, route.flow, env.now);
      SlowPathStaysCoherent(cfg, Consulted(c, route.flow, env.now), p, env);
    }
    StepFollows(cfg, c, conns, p, env);
  }
}
