/** From the captured packet to the request the proxy server reads. */
module EndToEnd {
  import opened CTypes
  import opened Sockets
  import opened PacketPipeline
  import opened PacketRuns
  import CT = ConnectionTracker
  import LocalProxy
  import Socks5
  import HttpConnect

  /** A successful core conversation ends with its request, taken whole, and one reply. */
  lemma GrantedAfterRequest(l: Line, request: seq<U8>, user: seq<U8>, pass: seq<U8>)
    requires Socks5.CoreRun(l, request, user, pass).1
    ensures var t := Socks5.CoreRun(l, request, user, pass).0.trace;
      |t| >= 2 && t[|t| - 2] == Wrote(request, |request|)
  {
    hide Socks5.CoreNegotiate;
    var (l1, _) := Socks5.CoreNegotiate(l, user, pass);
    var (l2, n) := SendOn(l1, request);
    assert l2.trace == l1.trace + [Wrote(request, n)];
  }

  /** The request a proxy server of either kind reads names `ip` and `port`. */
  predicate Names(kind: ProxyKind, m: seq<U8>, ip: U32, port: U16) {
    match kind
    case Socks5 => Socks5.DecodeRequest4(m) == Some((ip, port))
    case Http =>
      var r := HttpConnect.ParseTarget(HttpConnect.TextOf(m));
      r.Some? && r.value.0 == [Octet(ip, 0), Octet(ip, 1), Octet(ip, 2), Octet(ip, 3), port]
  }

  /** The last message of a conversation before its final reply was taken whole and names `ip` and `port`. */
  predicate AsksFor(t: seq<IO>, kind: ProxyKind, ip: U32, port: U16) {
    && |t| >= 2 && t[|t| - 2].Wrote? && t[|t| - 2].taken == |t[|t| - 2].msg|
    && Names(kind, t[|t| - 2].msg, ip, port)
  }

  /** A granted handshake delivered, whole, a request that names the context's destination. */
  lemma HandshakeNamesDestination(l: Line, ctx: LocalProxy.Context)
    requires LocalProxy.Handshake(l, ctx).1
    ensures AsksFor(LocalProxy.Handshake(l, ctx).0.trace, ctx.proxy.kind, ctx.destIp, ctx.destPort)
  {
    if ctx.proxy.kind == ProxyKind.Socks5 {
      hide Socks5.CoreRun, Socks5.DecodeRequest4;
      var request := Socks5.Request4(ctx.destIp, ctx.destPort);
      GrantedAfterRequest(l, request, ctx.proxy.username, ctx.proxy.password);
      Socks5.RequestNamesDestination(ctx.destIp, ctx.destPort);
    } else {
      hide HttpConnect.RequestText, HttpConnect.ParseTarget, HttpConnect.HttpRun, HttpConnect.Narrow;
      var text := HttpConnect.RequestText(ctx.destIp, ctx.destPort, ctx.proxy.username, ctx.proxy.password);
      HttpConnect.RequestIsNarrow(ctx.destIp, ctx.destPort, ctx.proxy.username, ctx.proxy.password);
      HttpConnect.NarrowTextRoundTrip(text);
      HttpConnect.RequestNamesTarget(ctx.destIp, ctx.destPort, ctx.proxy.username, ctx.proxy.password);
      HttpRequestSent(l, ctx);
    }
  }

  /** Whatever the proxy sends, a handshake is granted exactly when it granted the request: over SOCKS5 when the
      conversation ends in the protocol's grant, over HTTP when the one request was taken whole and the one reply
      says 200. */
  lemma HandshakeIsDecidedByTheProxy(l: Line, ctx: LocalProxy.Context)
    requires l.trace == []
    ensures var (l', granted) := LocalProxy.Handshake(l, ctx);
      var (t, p) := (l'.trace, ctx.proxy);
      granted <==>
        match p.kind
        case Socks5 => Socks5.Judge(t) == Socks5.Granted
        case Http =>
          |t| == 2 && t[0].Wrote? && t[0].taken == |t[0].msg| && t[1].Read? && HttpConnect.Grants(t[1].data)
  {
    hide Socks5.CoreRun, Socks5.Judge, Socks5.Request4;
    hide HttpConnect.HttpRun, HttpConnect.Grants, HttpConnect.RequestText, HttpConnect.Ascii;
    if ctx.proxy.kind == ProxyKind.Socks5 {
      RequestIsConnect(ctx.destIp, ctx.destPort);
      Socks5.CoreFollowsProtocol(l, Socks5.Request4(ctx.destIp, ctx.destPort), ctx.proxy.username, ctx.proxy.password);
    } else {
      HttpConnect.SuccessIsDecidedByTheReply(l, ctx.destIp, ctx.destPort, ctx.proxy.username, ctx.proxy.password);
    }
  }

  lemma RequestIsConnect(ip: U32, port: U16)
    ensures Socks5.IsConnect(Socks5.Request4(ip, port))
  {
  }

  /** Takes any request whole and answers `HTTP/1.1 200`. */
  const AGREEABLE_PROXY := Peer([72, 84, 84, 80, 47, 49, 46, 49, 32, 50, 48, 48], [4095], [1024])

  /** Answers `HTTP/1.1 407`. */
  const DEMANDING_PROXY := Peer([72, 84, 84, 80, 47, 49, 46, 49, 32, 52, 48, 55], [4095], [1024])

  lemma OneReply(peer: Peer, ctx: LocalProxy.Context)
    requires ctx.proxy.kind == ProxyKind.Http
    requires |peer.stream| == 12 && peer.arrivals == [4095] && peer.accepts == [1024]
    ensures LocalProxy.Handshake(Line(peer, 0, 0, 0, []), ctx).1 <==> HttpConnect.Grants(peer.stream)
  {
    var l := Line(peer, 0, 0, 0, []);
    HttpConnect.RequestFits(ctx.destIp, ctx.destPort, ctx.proxy.username, ctx.proxy.password);
    var m := HttpConnect.Ascii(HttpConnect.RequestText(ctx.destIp, ctx.destPort,
            ctx.proxy.username, ctx.proxy.password));
    hide HttpConnect.RequestText;
    var (l1, n) := SendOn(l, m);
    var (l2, len, d) := RecvOn(l1, 4095);
    assert n == |m| && d == peer.stream;
    HttpConnect.SuccessIsGrant(d);
    hide HttpConnect.Grants, HttpConnect.IsSuccess, HttpConnect.Ascii, HttpConnect.AsCString, SendOn, RecvOn;
  }

  /** One HTTP proxy grants every request, and one that asks for credentials by a reply 407 grants none. */
  lemma StatusGrantsOrRefuses(ctx: LocalProxy.Context)
    requires ctx.proxy.kind == ProxyKind.Http
    ensures LocalProxy.Handshake(Line(AGREEABLE_PROXY, 0, 0, 0, []), ctx).1
    ensures !LocalProxy.Handshake(Line(DEMANDING_PROXY, 0, 0, 0, []), ctx).1
  {
    OneReply(AGREEABLE_PROXY, ctx);
    OneReply(DEMANDING_PROXY, ctx);
    HttpConnect.CodeDecides(49, 50, 48, 48);
    HttpConnect.CodeDecides(49, 52, 48, 55);
    hide LocalProxy.Handshake, HttpConnect.Grants;
  }

  /** Some server does grant a handshake, for every destination. */
  lemma SomeHandshakeIsGranted(ip: U32, port: U16, clientPort: U16)
    ensures var proxy := ProxyRecord(ProxyKind.Socks5, "proxy", 1080, [], [], true);
      LocalProxy.Handshake(Line(Socks5.TERSE_SERVER, 0, 0, 0, []), LocalProxy.Context(ip, port, clientPort, proxy)).1
  {
    Socks5.ShortReplyDivides(Socks5.Request4(ip, port));
    hide Socks5.CoreRun, Socks5.TERSE_SERVER;
  }

  lemma HttpRequestSent(l: Line, ctx: LocalProxy.Context)
    requires HttpConnect.HttpRun(l, ctx.destIp, ctx.destPort, ctx.proxy.username, ctx.proxy.password).1
    ensures var t := HttpConnect.HttpRun(l, ctx.destIp, ctx.destPort, ctx.proxy.username, ctx.proxy.password).0.trace;
      var m := HttpConnect.Ascii(HttpConnect.RequestText(ctx.destIp, ctx.destPort,
              ctx.proxy.username, ctx.proxy.password));
      |t| >= 2 && t[|t| - 2] == Wrote(m, |m|)
  {
    hide HttpConnect.RequestText, HttpConnect.IsSuccess;
    var m := HttpConnect.Ascii(HttpConnect.RequestText(ctx.destIp, ctx.destPort,
            ctx.proxy.username, ctx.proxy.password));
    var (l1, n) := SendOn(l, m);
    assert l1.trace == l.trace + [Wrote(m, n)];
  }

  /** End to end: when a redirected packet's entry is neither removed nor rewritten up to both tracker
      lookups, the local proxy dials through the proxy recorded at the redirect, and a granted
      handshake asked for exactly the packet's original address and port. */
  lemma DestinationSurvives(w: World, es: seq<Event>, i: nat, j1: nat, j2: nat, p: Packet,
      globalProxy: ProxyInfo, l: Line)
    returns (proxy: ProxyInfo)
    requires RedirectedAt(w, es, i, p) && i < j1 <= j2 <= |es|
    requires forall k :: i < k < j2 ==> Spares(es[k], OutsAt(w, es, k), p.transport.srcPort)
    ensures proxy.hasProxy
    ensures Track(p.transport.srcPort, CT.Conn(p.net.src, CT.V4(p.net.dst), p.transport.dstPort, proxy))
      in OutsAt(w, es, i)
    ensures LocalProxy.AcceptContext(WorldAt(w, es, j1).conns, WorldAt(w, es, j2).conns,
        p.transport.srcPort, globalProxy)
         == Some(LocalProxy.Context(p.net.dst, p.transport.dstPort, p.transport.srcPort, proxy))
    ensures var ctx := LocalProxy.Context(p.net.dst, p.transport.dstPort, p.transport.srcPort, proxy);
      var (l', granted) := LocalProxy.Handshake(l, ctx);
      granted ==> AsksFor(l'.trace, proxy.kind, p.net.dst, p.transport.dstPort)
  {
    hide LocalProxy.Handshake, AsksFor, WorldAt, OutsAt;
    var sent;
    proxy, sent := RedirectRecords(w, es, i, p);
    EntryPersists(w, es, i + 1, j1, p.transport.srcPort);
    EntryPersists(w, es, i + 1, j2, p.transport.srcPort);
    var ctx := LocalProxy.Context(p.net.dst, p.transport.dstPort, p.transport.srcPort, proxy);
    if LocalProxy.Handshake(l, ctx).1 { HandshakeNamesDestination(l, ctx); }
  }
}
