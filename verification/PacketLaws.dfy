/** What becomes of a packet, said of its own header fields: which packets are judged, whose socket is asked
    about, and what leaves the engine. */
module PacketLaws {
  import opened CTypes
  import opened ConnectionTracker
  import opened PacketPipeline
  import opened PacketRuns
  import RE = RuleEngine
  import RM = RuleMeaning
  import CStrings

  // ---- Which packets are judged ----

  /** Private, loopback, link-local, multicast and broadcast destinations, by the octets a.b.c.d. */
  predicate StaysLocal(a: U8, b: U8, d: U8) {
    || a == 10 || (a == 172 && 16 <= b <= 31) || (a == 192 && b == 168)
    || a == 127 || (a == 169 && b == 254) || 224 <= a <= 239 || d == 255
  }

  /** A packet the local proxy sends to a client whose IPv4 destination is on record. */
  predicate IsReply(tcpPort: U16, conns: map<U16, Conn>, p: Packet) {
    && p.outbound && p.net.V4Header? && p.transport.Tcp? && p.transport.srcPort == tcpPort
    && p.transport.dstPort in conns && conns[p.transport.dstPort].dest.V4?
  }

  /** Outbound IPv4 to a destination that is not local, unless it is a reply. */
  predicate IsJudged(tcpPort: U16, conns: map<U16, Conn>, p: Packet) {
    && p.outbound && p.net.V4Header? && !IsReply(tcpPort, conns, p)
    && !StaysLocal(p.net.dst % 0x100, p.net.dst / 0x100 % 0x100, p.net.dst / 0x100_0000)
  }

  lemma LocalByOctets(ip: U32)
    ensures IsBroadcastOrMulticast(ip) || IsPrivate(ip)
       <==> StaysLocal(ip % 0x100, ip / 0x100 % 0x100, ip / 0x100_0000)
  {
  }

  lemma JudgedIsInspected(tcpPort: U16, conns: map<U16, Conn>, p: Packet)
    ensures IsJudged(tcpPort, conns, p) <==> Classify(tcpPort, conns, p).Inspect?
    ensures IsReply(tcpPort, conns, p) ==> Classify(tcpPort, conns, p) == Reply(Restore(p, conns[p.transport.dstPort]))
    ensures !IsJudged(tcpPort, conns, p) && !IsReply(tcpPort, conns, p) ==> Classify(tcpPort, conns, p) == Pass
  {
    if p.net.V4Header? { LocalByOctets(p.net.dst); }
    hide IsBroadcastOrMulticast, IsPrivate, StaysLocal;
  }

  /** A packet that is not judged touches no cache, no table of the system and no rule. It passes unchanged,
      but for a reply, which leaves under the address and port its client dialled. */
  lemma OthersPass(cfg: Config, c: Memo, conns: map<U16, Conn>, p: Packet, env: Env)
    requires !IsJudged(cfg.host.tcpPort, conns, p)
    ensures var o := Step(cfg, c, conns, p, env);
      o.marks == [] && o.memo == c
      && if !IsReply(cfg.host.tcpPort, conns, p) then o.outs == [Send(p)]
         else var t := conns[p.transport.dstPort];
           o.outs == [Send(Packet(true, V4Header(t.dest.ip, t.srcIp), Tcp(t.destPort, p.transport.dstPort), p.rest))]
  {
    JudgedIsInspected(cfg.host.tcpPort, conns, p);
    hide IsJudged, Classify, SlowPath, Consulted, Remembered;
  }

  // ---- Whose socket is asked about ----

  /** The packet's own end: source address, source port, and protocol number 6 or 17. */
  function OwnSocket(p: Packet): SocketKey
    requires p.net.V4Header?
  {
    match p.transport
    case Tcp(srcPort, _) => SocketKey(p.net.src, srcPort, 6)
    case Udp(srcPort, _) => SocketKey(p.net.src, srcPort, 17)
    case Neither => SocketKey(p.net.src, 0, 17)
  }

  lemma FlowSocketIsOwn(p: Packet)
    requires p.net.V4Header?
    ensures FlowOf(p).Socket() == OwnSocket(p)
  {
  }

  lemma PidStepMarks(host: Host, c: Memo, k: SocketKey, now: U32)
    ensures var r := PidStep(host, c, k, now);
      r.2 == [] || (r.2 == [Queried(k, host.pidOf(k))] && r.0 == host.pidOf(k))
  {
  }

  /** The system is asked only about the packet's own socket. */
  lemma OnlyOwnSocketIsQueried(cfg: Config, c: Memo, conns: map<U16, Conn>, p: Packet, env: Env, k: SocketKey, pid: U32)
    requires Queried(k, pid) in Step(cfg, c, conns, p, env).marks
    ensures p.outbound && p.net.V4Header? && k == OwnSocket(p) && pid == cfg.host.pidOf(OwnSocket(p))
  {
    hide PidStep, NameStep, Decide, Act, FlowOf, Consulted, Remembered, DECISION_SHAPE;
    var route := Classify(cfg.host.tcpPort, conns, p);
    if route.Inspect? {
      FlowSocketIsOwn(p);
      PidStepMarks(cfg.host, Consulted(c, route.flow, env.now), route.flow.Socket(), env.now);
    }
  }

  // ---- What leaves ----

  /** `file` is what follows the last backslash of `path`; without one, the last slash; else all of it. */
  predicate IsFileName(path: string, file: string) {
    |file| <= |path| && var at := |path| - |file|;
    && path[at..] == file && '\\' !in file
    && if '\\' in path then at > 0 && path[at - 1] == '\\'
       else '/' !in file && if '/' in path then at > 0 && path[at - 1] == '/' else at == 0
  }

  lemma FileNameIsExtracted(path: string, file: string)
    ensures IsFileName(path, file) <==> file == ExtractFilename(path)
  {
    var b, s := CStrings.LastIndexOf(path, '\\'), CStrings.LastIndexOf(path, '/');
    assert '\\' in path <==> b >= 0;
    assert '/' in path <==> s >= 0;
    if IsFileName(path, file) {
      var at := |path| - |file|;
      assert forall k :: at <= k < |path| ==> path[k] == file[k - at];
    }
    hide CStrings.LastIndexOf;
  }

  /** What the rules say of a packet: nothing while DNS is bypassed and the packet goes to port 53. */
  predicate Blocks(h: Host, dstPort: U16, c: Option<RE.Rule>) {
    (dstPort != 53 || h.dnsViaProxy) && c.Some? && c.value.action == RE.Block
  }

  /** A packet is proxied when its rule says so and the rule or the engine has a proxy. */
  predicate Proxies(h: Host, dstPort: U16, c: Option<RE.Rule>) {
    && (dstPort != 53 || h.dnsViaProxy) && c.Some? && c.value.action == RE.Proxy
    && (c.value.proxy.hasProxy || h.globalProxy.hasProxy)
  }

  /** The packets, the record and the notice that a TCP packet of process `pid` leaves behind, when rule `c`
      was chosen for it. */
  function TcpFate(h: Host, src: U32, sp: U16, dst: U32, dp: U16, rest: seq<U8>, pid: U32, file: string,
                   c: Option<RE.Rule>): seq<Output>
  {
    var told := if h.hasCallback then (a: RE.RuleAction) => [Callback(file, pid, dst, dp, a, false)] else _ => [];
    if pid == h.selfPid then [Send(Packet(true, V4Header(src, dst), Tcp(sp, dp), rest))]
    else if Blocks(h, dp, c) then told(RE.Block)
    else if Proxies(h, dp, c) then
      told(RE.Proxy)
      + [Track(sp, Conn(src, V4(dst), dp, if c.value.proxy.hasProxy then c.value.proxy else h.globalProxy)),
         Send(Packet(true, V4Header(src, src), Tcp(sp, h.tcpPort), rest))]
    else [Send(Packet(true, V4Header(src, dst), Tcp(sp, dp), rest))]
  }

  /** The same for a datagram: a proxied one asks for a session and goes, inbound and with its addresses
      swapped, to the port the relay answers, or as it is when the relay has none. */
  function UdpFate(h: Host, src: U32, sp: U16, dst: U32, dp: U16, rest: seq<U8>, pid: U32, file: string,
                   c: Option<RE.Rule>, relayPort: U16): seq<Output>
  {
    var told := if h.hasCallback then (a: RE.RuleAction) => [Callback(file, pid, dst, dp, a, true)] else _ => [];
    var p := Packet(true, V4Header(src, dst), Udp(sp, dp), rest);
    if pid == h.selfPid then [Send(p)]
    else if Blocks(h, dp, c) then told(RE.Block)
    else if Proxies(h, dp, c) then
      told(RE.Proxy)
      + [RequestSession(FlowKey(src, sp, dst, dp, false),
                        if c.value.proxy.hasProxy then c.value.proxy else h.globalProxy),
         Send(if relayPort == 0 then p else Packet(false, V4Header(dst, src), Udp(sp, relayPort), rest))]
    else [Send(p)]
  }

  /** A packet without a TCP or UDP header is judged as one to port 0 over UDP, and even a proxied one goes as it is. */
  function OtherFate(h: Host, src: U32, dst: U32, rest: seq<U8>, pid: U32, file: string, c: Option<RE.Rule>)
    : seq<Output>
  {
    var told := if h.hasCallback then (a: RE.RuleAction) => [Callback(file, pid, dst, 0, a, false)] else _ => [];
    var p := Packet(true, V4Header(src, dst), Neither, rest);
    if pid == h.selfPid then [Send(p)]
    else if Blocks(h, 0, c) then told(RE.Block)
    else if Proxies(h, 0, c) then told(RE.Proxy) + [Send(p)]
    else [Send(p)]
  }

  /** The name the rules see: the image path of the owner, empty when the system knows none. */
  function OwnerName(h: Host, k: SocketKey): ProcName {
    if h.pidOf(k) == 0 then "" else h.nameOf(h.pidOf(k))
  }

  /** Carrying out the decision for a TCP packet. */
  lemma TcpIsCarriedOut(cfg: Config, src: U32, sp: U16, dst: U32, dp: U16, rest: seq<U8>, relayPort: U16, pid: U32,
                        name: string, file: string, c: Option<RE.Rule>)
    requires RE.IsChoice(cfg.rules, RE.Query(name, dst, dp, true), c) && IsFileName(name, file)
    requires pid != cfg.host.selfPid
    ensures var p := Packet(true, V4Header(src, dst), Tcp(sp, dp), rest);
      var (action, proxy) := Decide(cfg, FlowKey(src, sp, dst, dp, true), name);
      Act(cfg.host, p, pid, name, action, proxy, relayPort) == TcpFate(cfg.host, src, sp, dst, dp, rest, pid, file, c)
  {
    DecisionIsDocumented(cfg, FlowKey(src, sp, dst, dp, true), name, c);
    FileNameIsExtracted(name, file);
    hide RE.IsChoice, IsFileName, ExtractFilename, Decide;
  }

  lemma UdpIsCarriedOut(cfg: Config, src: U32, sp: U16, dst: U32, dp: U16, rest: seq<U8>, relayPort: U16, pid: U32,
                        name: string, file: string, c: Option<RE.Rule>)
    requires RE.IsChoice(cfg.rules, RE.Query(name, dst, dp, false), c) && IsFileName(name, file)
    requires pid != cfg.host.selfPid
    ensures var p := Packet(true, V4Header(src, dst), Udp(sp, dp), rest);
      var (action, proxy) := Decide(cfg, FlowKey(src, sp, dst, dp, false), name);
      Act(cfg.host, p, pid, name, action, proxy, relayPort)
      == UdpFate(cfg.host, src, sp, dst, dp, rest, pid, file, c, relayPort)
  {
    DecisionIsDocumented(cfg, FlowKey(src, sp, dst, dp, false), name, c);
    FileNameIsExtracted(name, file);
    hide RE.IsChoice, IsFileName, ExtractFilename, Decide;
  }

  lemma UncachedTcp(cfg: Config, conns: map<U16, Conn>, src: U32, sp: U16, dst: U32, dp: U16, rest: seq<U8>,
                    relayPort: U16, file: string, c: Option<RE.Rule>)
    requires IsJudged(cfg.host.tcpPort, conns, Packet(true, V4Header(src, dst), Tcp(sp, dp), rest))
    requires var name := OwnerName(cfg.host, SocketKey(src, sp, 6));
      RE.IsChoice(cfg.rules, RE.Query(name, dst, dp, true), c) && IsFileName(name, file)
    ensures Uncached(cfg, conns, Packet(true, V4Header(src, dst), Tcp(sp, dp), rest), relayPort)
         == TcpFate(cfg.host, src, sp, dst, dp, rest, cfg.host.pidOf(SocketKey(src, sp, 6)), file, c)
  {
    var p := Packet(true, V4Header(src, dst), Tcp(sp, dp), rest);
    var k := SocketKey(src, sp, 6);
    JudgedIsInspected(cfg.host.tcpPort, conns, p);
    assert FlowOf(p) == FlowKey(src, sp, dst, dp, true) && FlowOf(p).Socket() == k;
    hide IsJudged, Classify, RE.IsChoice, IsFileName, Decide, Act, FlowOf, Blocks, Proxies;
    if cfg.host.pidOf(k) != cfg.host.selfPid {
      TcpIsCarriedOut(cfg, src, sp, dst, dp, rest, relayPort, cfg.host.pidOf(k), OwnerName(cfg.host, k), file, c);
    }
  }

  lemma UncachedUdp(cfg: Config, conns: map<U16, Conn>, src: U32, sp: U16, dst: U32, dp: U16, rest: seq<U8>,
                    relayPort: U16, file: string, c: Option<RE.Rule>)
    requires IsJudged(cfg.host.tcpPort, conns, Packet(true, V4Header(src, dst), Udp(sp, dp), rest))
    requires var name := OwnerName(cfg.host, SocketKey(src, sp, 17));
      RE.IsChoice(cfg.rules, RE.Query(name, dst, dp, false), c) && IsFileName(name, file)
    ensures Uncached(cfg, conns, Packet(true, V4Header(src, dst), Udp(sp, dp), rest), relayPort)
         == UdpFate(cfg.host, src, sp, dst, dp, rest, cfg.host.pidOf(SocketKey(src, sp, 17)), file, c, relayPort)
  {
    var p := Packet(true, V4Header(src, dst), Udp(sp, dp), rest);
    var k := SocketKey(src, sp, 17);
    JudgedIsInspected(cfg.host.tcpPort, conns, p);
    assert FlowOf(p) == FlowKey(src, sp, dst, dp, false) && FlowOf(p).Socket() == k;
    hide IsJudged, Classify, RE.IsChoice, IsFileName, Decide, Act, FlowOf, Blocks, Proxies;
    if cfg.host.pidOf(k) != cfg.host.selfPid {
      UdpIsCarriedOut(cfg, src, sp, dst, dp, rest, relayPort, cfg.host.pidOf(k), OwnerName(cfg.host, k), file, c);
    }
  }

  lemma OtherIsCarriedOut(cfg: Config, src: U32, dst: U32, rest: seq<U8>, relayPort: U16, pid: U32,
                          name: string, file: string, c: Option<RE.Rule>)
    requires RE.IsChoice(cfg.rules, RE.Query(name, dst, 0, false), c) && IsFileName(name, file)
    requires pid != cfg.host.selfPid
    ensures var p := Packet(true, V4Header(src, dst), Neither, rest);
      var (action, proxy) := Decide(cfg, FlowKey(src, 0, dst, 0, false), name);
      Act(cfg.host, p, pid, name, action, proxy, relayPort) == OtherFate(cfg.host, src, dst, rest, pid, file, c)
  {
    DecisionIsDocumented(cfg, FlowKey(src, 0, dst, 0, false), name, c);
    FileNameIsExtracted(name, file);
    hide RE.IsChoice, IsFileName, ExtractFilename, Decide;
  }

  lemma UncachedOther(cfg: Config, conns: map<U16, Conn>, src: U32, dst: U32, rest: seq<U8>, relayPort: U16,
                      file: string, c: Option<RE.Rule>)
    requires IsJudged(cfg.host.tcpPort, conns, Packet(true, V4Header(src, dst), Neither, rest))
    requires var name := OwnerName(cfg.host, SocketKey(src, 0, 17));
      RE.IsChoice(cfg.rules, RE.Query(name, dst, 0, false), c) && IsFileName(name, file)
    ensures Uncached(cfg, conns, Packet(true, V4Header(src, dst), Neither, rest), relayPort)
         == OtherFate(cfg.host, src, dst, rest, cfg.host.pidOf(SocketKey(src, 0, 17)), file, c)
  {
    var p, k := Packet(true, V4Header(src, dst), Neither, rest), SocketKey(src, 0, 17);
    JudgedIsInspected(cfg.host.tcpPort, conns, p);
    assert FlowOf(p) == FlowKey(src, 0, dst, 0, false) && FlowOf(p).Socket() == k;
    hide IsJudged, Classify, RE.IsChoice, IsFileName, Decide, Act, FlowOf, Blocks, Proxies;
    if cfg.host.pidOf(k) != cfg.host.selfPid {
      OtherIsCarriedOut(cfg, src, dst, rest, relayPort, cfg.host.pidOf(k), OwnerName(cfg.host, k), file, c);
    }
  }

  // ---- Over whole runs ----

  /** Event `n` of a run under one configuration, with caches that start coherent, brings packet `p`, which
      is to be judged. */
  ghost predicate JudgedAt(cfg: Config, w: World, es: seq<Event>, n: nat, p: Packet) {
    && Coherent(cfg, w.memo) && FixedConfig(cfg, es) && n < |es| && es[n].Arrive? && es[n].packet == p
    && IsJudged(cfg.host.tcpPort, WorldAt(w, es, n).conns, p)
  }

  /** At every point of every run, a TCP packet meets the fate of the rule chosen for the program that owns
      its local socket and for its own destination, whatever the caches hold. */
  lemma TcpPacketMeetsItsFate(cfg: Config, w: World, es: seq<Event>, n: nat, src: U32, sp: U16, dst: U32, dp: U16,
                              rest: seq<U8>, file: string, c: Option<RE.Rule>)
    requires JudgedAt(cfg, w, es, n, Packet(true, V4Header(src, dst), Tcp(sp, dp), rest))
    requires var name := OwnerName(cfg.host, SocketKey(src, sp, 6));
      RE.IsChoice(cfg.rules, RE.Query(name, dst, dp, true), c) && IsFileName(name, file)
    ensures OutsAt(w, es, n)
         == TcpFate(cfg.host, src, sp, dst, dp, rest, cfg.host.pidOf(SocketKey(src, sp, 6)), file, c)
  {
    hide Coherent, IsJudged, RE.IsChoice, IsFileName, Uncached, TcpFate, OutsAt, WorldAt;
    CachingIsInvisible(cfg, w, es, n);
    UncachedTcp(cfg, WorldAt(w, es, n).conns, src, sp, dst, dp, rest, es[n].relayPort, file, c);
  }

  /** The same for datagrams. */
  lemma DatagramMeetsItsFate(cfg: Config, w: World, es: seq<Event>, n: nat, src: U32, sp: U16, dst: U32, dp: U16,
                             rest: seq<U8>, file: string, c: Option<RE.Rule>)
    requires JudgedAt(cfg, w, es, n, Packet(true, V4Header(src, dst), Udp(sp, dp), rest))
    requires var name := OwnerName(cfg.host, SocketKey(src, sp, 17));
      RE.IsChoice(cfg.rules, RE.Query(name, dst, dp, false), c) && IsFileName(name, file)
    ensures OutsAt(w, es, n) == UdpFate(cfg.host, src, sp, dst, dp, rest, cfg.host.pidOf(SocketKey(src, sp, 17)), file,
                                        c, es[n].relayPort)
  {
    hide Coherent, IsJudged, RE.IsChoice, IsFileName, Uncached, UdpFate, OutsAt, WorldAt;
    CachingIsInvisible(cfg, w, es, n);
    UncachedUdp(cfg, WorldAt(w, es, n).conns, src, sp, dst, dp, rest, es[n].relayPort, file, c);
  }

  /** And for what is neither. */
  lemma OtherPacketMeetsItsFate(cfg: Config, w: World, es: seq<Event>, n: nat, src: U32, dst: U32, rest: seq<U8>,
                                file: string, c: Option<RE.Rule>)
    requires JudgedAt(cfg, w, es, n, Packet(true, V4Header(src, dst), Neither, rest))
    requires var name := OwnerName(cfg.host, SocketKey(src, 0, 17));
      RE.IsChoice(cfg.rules, RE.Query(name, dst, 0, false), c) && IsFileName(name, file)
    ensures OutsAt(w, es, n) == OtherFate(cfg.host, src, dst, rest, cfg.host.pidOf(SocketKey(src, 0, 17)), file, c)
  {
    hide Coherent, IsJudged, RE.IsChoice, IsFileName, Uncached, OtherFate, OutsAt, WorldAt;
    CachingIsInvisible(cfg, w, es, n);
    UncachedOther(cfg, WorldAt(w, es, n).conns, src, dst, rest, es[n].relayPort, file, c);
  }

  // ---- From rule texts to packets ----

  /** The rules a user wrote, stored in this order. */
  ghost predicate RulesAre(rules: seq<RE.Rule>, ws: seq<RM.Written>) {
    && (forall i {:trigger ws[i]} :: 0 <= i < |ws| ==> RM.Legible(ws[i]))
    && rules == RE.Run(RE.EMPTY_BOOK, seq(|ws|, i requires 0 <= i < |ws| => RM.AddOf(ws[i]))).rules
  }

  lemma AnswerIsChoice(cfg: Config, ws: seq<RM.Written>, q: RE.Query, action: RE.RuleAction, proxy: ProxyInfo)
    returns (c: Option<RE.Rule>)
    requires RulesAre(cfg.rules, ws) && RM.IsAnswer(ws, q, (action, proxy))
    ensures RE.IsChoice(cfg.rules, q, c)
    ensures if c.Some? then (c.value.action, c.value.proxy) == (action, proxy) else action == RE.Direct
  {
    c := RE.OnePass(cfg.rules, q);
    RE.VerdictIsDocumentedChoice(cfg.rules, q, c);
    RM.RulesMeanWhatTheySay(ws, q, (action, proxy));
    hide RE.OnePass, RE.IsChoice, RE.Run, RM.IsAnswer, RM.Legible;
  }

  lemma FateIsSilence(h: Host, src: U32, sp: U16, dst: U32, dp: U16, rest: seq<U8>, pid: U32, file: string,
                      c: Option<RE.Rule>)
    requires pid != h.selfPid && Blocks(h, dp, c)
    ensures forall o :: o in TcpFate(h, src, sp, dst, dp, rest, pid, file, c) ==> o.Callback?
  {
  }

  lemma FateIsRedirect(h: Host, src: U32, sp: U16, dst: U32, dp: U16, rest: seq<U8>, pid: U32, file: string,
                       c: Option<RE.Rule>)
    requires pid != h.selfPid && Proxies(h, dp, c) && c.value.proxy.hasProxy
    ensures var outs := TcpFate(h, src, sp, dst, dp, rest, pid, file, c);
      && Track(sp, Conn(src, V4(dst), dp, c.value.proxy)) in outs
      && forall p :: Send(p) in outs <==> p == Packet(true, V4Header(src, src), Tcp(sp, h.tcpPort), rest)
  {
  }

  /** When the texts of the rules block a program, no TCP packet of its sockets leaves, at any point of any run. */
  lemma BlockedProgramIsSilent(cfg: Config, w: World, es: seq<Event>, n: nat, src: U32, sp: U16, dst: U32, dp: U16,
                               rest: seq<U8>, ws: seq<RM.Written>, proxy: ProxyInfo)
    requires JudgedAt(cfg, w, es, n, Packet(true, V4Header(src, dst), Tcp(sp, dp), rest)) && RulesAre(cfg.rules, ws)
    requires var k := SocketKey(src, sp, 6);
      && cfg.host.pidOf(k) != cfg.host.selfPid && (dp != 53 || cfg.host.dnsViaProxy)
      && RM.IsAnswer(ws, RE.Query(OwnerName(cfg.host, k), dst, dp, true), (RE.Block, proxy))
    ensures forall o :: o in OutsAt(w, es, n) ==> o.Callback?
  {
    var name := OwnerName(cfg.host, SocketKey(src, sp, 6));
    var c := AnswerIsChoice(cfg, ws, RE.Query(name, dst, dp, true), RE.Block, proxy);
    FileNameIsExtracted(name, ExtractFilename(name));
    hide RulesAre, RM.IsAnswer, RE.IsChoice, IsFileName, ExtractFilename, OutsAt, OwnerName, JudgedAt, TcpFate;
    TcpPacketMeetsItsFate(cfg, w, es, n, src, sp, dst, dp, rest, ExtractFilename(name), c);
    FateIsSilence(cfg.host, src, sp, dst, dp, rest, cfg.host.pidOf(SocketKey(src, sp, 6)), ExtractFilename(name), c);
  }

  /** When they send it through a proxy, each such packet goes to the local proxy, with that proxy on record. */
  lemma ProxiedProgramIsRedirected(cfg: Config, w: World, es: seq<Event>, n: nat, src: U32, sp: U16, dst: U32, dp: U16,
                                   rest: seq<U8>, ws: seq<RM.Written>, proxy: ProxyInfo)
    requires JudgedAt(cfg, w, es, n, Packet(true, V4Header(src, dst), Tcp(sp, dp), rest)) && RulesAre(cfg.rules, ws)
    requires var k := SocketKey(src, sp, 6);
      && cfg.host.pidOf(k) != cfg.host.selfPid && (dp != 53 || cfg.host.dnsViaProxy) && proxy.hasProxy
      && RM.IsAnswer(ws, RE.Query(OwnerName(cfg.host, k), dst, dp, true), (RE.Proxy, proxy))
    ensures Track(sp, Conn(src, V4(dst), dp, proxy)) in OutsAt(w, es, n)
    ensures forall p :: Send(p) in OutsAt(w, es, n)
                   <==> p == Packet(true, V4Header(src, src), Tcp(sp, cfg.host.tcpPort), rest)
  {
    var name := OwnerName(cfg.host, SocketKey(src, sp, 6));
    var c := AnswerIsChoice(cfg, ws, RE.Query(name, dst, dp, true), RE.Proxy, proxy);
    FileNameIsExtracted(name, ExtractFilename(name));
    hide RulesAre, RM.IsAnswer, RE.IsChoice, IsFileName, ExtractFilename, OutsAt, OwnerName, JudgedAt, TcpFate;
    TcpPacketMeetsItsFate(cfg, w, es, n, src, sp, dst, dp, rest, ExtractFilename(name), c);
    FateIsRedirect(cfg.host, src, sp, dst, dp, rest, cfg.host.pidOf(SocketKey(src, sp, 6)), ExtractFilename(name), c);
  }
}
