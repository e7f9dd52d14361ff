/** The local proxy: accepting redirected connections, the proxy handshake, and the byte relay. */
module LocalProxy {
  import opened CTypes
  import opened Sockets
  import CT = ConnectionTracker
  import Socks5
  import HttpConnect

  // ---- The byte relay ----

  /** One transfer as an observer of both sockets sees it. */
  datatype Move = In(bytes: seq<U8>) | Out(bytes: seq<U8>)

  function Received(log: seq<Move>): seq<U8> {
    if log == [] then []
    else Received(log[..|log| - 1]) + if log[|log| - 1].In? then log[|log| - 1].bytes else []
  }

  function Delivered(log: seq<Move>): seq<U8> {
    if log == [] then []
    else Delivered(log[..|log| - 1]) + if log[|log| - 1].Out? then log[|log| - 1].bytes else []
  }

  const BUFFER := 8192

  /** Send and receive calls before the connection fails. */
  function SendsLeft(l: Line): nat {
    if l.sends < |l.peer.accepts| then |l.peer.accepts| - l.sends else 0
  }

  function RecvsLeft(l: Line): nat {
    if l.recvs < |l.peer.arrivals| then |l.peer.arrivals| - l.recvs else 0
  }

  /** The inner loop: send until the chunk is gone. */
  function Push(to: Line, data: seq<U8>, log: seq<Move>): (r: (Line, seq<Move>, bool))
    ensures r.0.peer == to.peer
    decreases SendsLeft(to)
  {
    if data == [] then (to, log, true)
    else
      var (to1, n) := SendOn(to, data);
      if n < 0 then (to1, log, false) else Push(to1, data[n..], log + [Out(data[..n])])
  }

  /** The outer loop: receive a chunk, push it, until the source ends or the sink fails. */
  function Pump(from: Line, to: Line, log: seq<Move>): (r: (Line, Line, seq<Move>, bool))
    ensures r.0.peer == from.peer && r.1.peer == to.peer
    decreases RecvsLeft(from)
  {
    var (from1, len, data) := RecvOn(from, BUFFER);
    if len <= 0 then (from1, to, log, true)
    else
      var (to1, log1, ok) := Push(to, data, log + [In(data)]);
      if ok then Pump(from1, to1, log1) else (from1, to1, log1, false)
  }

  /** Bytes handed to a peer, over all of its send calls. */
  function Taken(trace: seq<IO>): seq<U8> {
    if trace == [] then []
    else
      var io := trace[|trace| - 1];
      Taken(trace[..|trace| - 1]) + if io.Wrote? && 0 <= io.taken <= |io.msg| then io.msg[..io.taken] else []
  }

  /** At this moment the delivered bytes are a prefix of the received ones, at most one buffer behind. */
  predicate InStep(log: seq<Move>) {
    Delivered(log) <= Received(log) && |Received(log)| - |Delivered(log)| <= 8192
  }

  /** At every moment. */
  ghost predicate Faithful(log: seq<Move>) {
    forall k :: 0 <= k <= |log| ==> InStep(log[..k])
  }

  lemma Extend(log: seq<Move>, m: Move)
    ensures Received(log + [m]) == Received(log) + if m.In? then m.bytes else []
    ensures Delivered(log + [m]) == Delivered(log) + if m.Out? then m.bytes else []
    ensures Faithful(log) && InStep(log + [m]) ==> Faithful(log + [m])
  {
    var t := log + [m];
    assert t[..|log|] == log;
    if Faithful(log) && InStep(t) {
      forall k | 0 <= k <= |t| ensures InStep(t[..k]) {
        if k <= |log| { assert t[..k] == log[..k]; } else { assert t[..k] == t; }
      }
    }
  }

  lemma TakenBySend(l: Line, msg: seq<U8>)
    ensures var (l1, n) := SendOn(l, msg); Taken(l1.trace) == Taken(l.trace) + if n > 0 then msg[..n] else []
  {
    var (l1, n) := SendOn(l, msg);
    assert l1.trace[..|l.trace|] == l.trace;
  }

  /** Pushing a chunk keeps the relay in step; a completed push leaves nothing behind. */
  lemma {:induction false} PushIsFaithful(to: Line, data: seq<U8>, log: seq<Move>, base: seq<U8>)
    requires Faithful(log) && Taken(to.trace) == base + Delivered(log)
    requires Delivered(log) + data == Received(log) && |data| <= BUFFER
    ensures var (to', log', ok) := Push(to, data, log);
      && Faithful(log') && Received(log') == Received(log)
      && (ok ==> Delivered(log') == Received(log'))
      && Taken(to'.trace) == base + Delivered(log')
    decreases SendsLeft(to)
  {
    hide Taken, Received, Delivered, SendOn, Faithful;
    if data == [] {
      assert Delivered(log) + data == Delivered(log);
    } else {
      var (to1, n) := SendOn(to, data);
      TakenBySend(to, data);
      SendUses(to, data);
      if n >= 0 {
        var m := Out(data[..n]);
        Extend(log, m);
        Regroup(base, Delivered(log), data, n);
        if n == 0 { assert data[..0] == [] && Taken(to.trace) + [] == Taken(to.trace); }
        PushIsFaithful(to1, data[n..], log + [m], base);
      }
    }
  }

  lemma Regroup(a: seq<U8>, d: seq<U8>, data: seq<U8>, n: nat)
    requires n <= |data|
    ensures (d + data[..n]) + data[n..] == d + data && (a + d) + data[..n] == a + (d + data[..n])
    ensures (d + data) + [] == d + data && (n == |data| ==> data[..n] == data)
  {
  }

  lemma SendUses(l: Line, data: seq<U8>)
    ensures var (l1, n) := SendOn(l, data);
      l1.peer == l.peer && l1.sends == l.sends + 1 && (n >= 0 ==> SendsLeft(l1) < SendsLeft(l))
  {
  }

  lemma RecvUses(l: Line, want: nat)
    ensures var (l1, len, _) := RecvOn(l, want);
      l1.peer == l.peer && l1.recvs == l.recvs + 1 && (len >= 0 ==> RecvsLeft(l1) < RecvsLeft(l))
  {
  }

  /** A send either fails or takes at least one byte. */
  predicate Progressing(peer: Peer) {
    forall i :: 0 <= i < |peer.accepts| ==> peer.accepts[i] != 0
  }

  /** The inner loop ends: a peer that takes at least one byte at a time is sent at most one message for
      each byte. */
  lemma {:induction false} PushEnds(to: Line, data: seq<U8>, log: seq<Move>)
    requires Progressing(to.peer)
    ensures Push(to, data, log).0.sends <= to.sends + |data|
    decreases SendsLeft(to)
  {
    if data != [] {
      var (to1, n) := SendOn(to, data);
      SendUses(to, data);
      if n >= 0 { PushEnds(to1, data[n..], log + [Out(data[..n])]); }
    }
  }

  /** The relay preserves the stream: with arbitrary receive sizes and partial sends, the delivered
      bytes are at every moment a prefix of the received ones, at most 8192 bytes behind, and equal
      to them when the source ends. */
  lemma {:induction false} RelayPreservesStream(from: Line, to: Line, log: seq<Move>, base: seq<U8>)
    requires Faithful(log) && Delivered(log) == Received(log)
    requires from.pos <= |from.peer.stream| && Taken(to.trace) == base + Delivered(log)
    ensures var (from', to', log', ok) := Pump(from, to, log);
      && Faithful(log') && (ok ==> Delivered(log') == Received(log'))
      && from.pos <= from'.pos <= |from.peer.stream|
      && Received(log') == Received(log) + from.peer.stream[from.pos..from'.pos]
      && Taken(to'.trace) == base + Delivered(log')
    decreases RecvsLeft(from)
  {
    hide Taken, Received, Delivered, Push;
    var (from1, len, data) := RecvOn(from, BUFFER);
    if len > 0 {
      Extend(log, In(data));
      assert Delivered(log + [In(data)]) + data == Received(log + [In(data)]);
      assert InStep(log + [In(data)]);
      PushIsFaithful(to, data, log + [In(data)], base);
      var (to1, log1, ok) := Push(to, data, log + [In(data)]);
      assert from.peer.stream[from.pos..from1.pos] == data;
      if ok {
        RelayPreservesStream(from1, to1, log1, base);
        var (from2, to2, log2, _) := Pump(from1, to1, log1);
        assert from.peer.stream[from.pos..from2.pos] == data + from.peer.stream[from1.pos..from2.pos];
      }
    }
  }

  /** The same for a transfer from its first byte: what the sink's peer takes is what the source gave,
      in order, and all of it unless a send failed. */
  lemma TransferPreservesStream(from: Line, to: Line)
    requires from.pos <= |from.peer.stream|
    ensures var (from', to', log, ended) := Pump(from, to, []);
      && Faithful(log) && from.pos <= from'.pos <= |from.peer.stream|
      && Received(log) == from.peer.stream[from.pos..from'.pos]
      && Taken(to'.trace) == Taken(to.trace) + Delivered(log)
      && (ended ==> Taken(to'.trace) == Taken(to.trace) + from.peer.stream[from.pos..from'.pos])
  {
    var base := Taken(to.trace);
    assert Received([]) == [] && Delivered([]) == [] && base + [] == base;
    assert Faithful([]);
    RelayPreservesStream(from, to, [], base);
    hide Pump, Taken, Received, Delivered;
    var s := from.peer.stream[from.pos..Pump(from, to, []).0.pos];
    assert [] + s == s;
  }

  /** A peer none of whose calls fails or stalls before its script is over. */
  predicate Steady(peer: Peer) {
    && (forall i :: 0 <= i < |peer.arrivals| ==> peer.arrivals[i] > 0)
    && (forall i :: 0 <= i < |peer.accepts| ==> peer.accepts[i] > 0)
  }

  lemma {:induction false} PushCompletes(to: Line, data: seq<U8>, log: seq<Move>)
    requires Steady(to.peer) && SendsLeft(to) >= |data|
    ensures var (to', _, ok) := Push(to, data, log); ok && SendsLeft(to') >= SendsLeft(to) - |data|
    decreases SendsLeft(to)
  {
    if data != [] {
      var (to1, n) := SendOn(to, data);
      SendUses(to, data);
      assert n > 0;
      PushCompletes(to1, data[n..], log + [Out(data[..n])]);
    }
  }

  /** Between steady peers with a call left for each byte, and one for the end, the relay goes on until the
      source has given everything. */
  lemma {:induction false} PumpCompletes(from: Line, to: Line, log: seq<Move>)
    requires Steady(from.peer) && Steady(to.peer) && from.pos <= |from.peer.stream|
    requires RecvsLeft(from) > |from.peer.stream| - from.pos && SendsLeft(to) >= |from.peer.stream| - from.pos
    ensures var (from', to', _, ended) := Pump(from, to, log); ended && from'.pos == |from.peer.stream|
    decreases RecvsLeft(from)
  {
    hide Push;
    var (from1, len, data) := RecvOn(from, BUFFER);
    if len > 0 {
      PushCompletes(to, data, log + [In(data)]);
      var (to1, log1, _) := Push(to, data, log + [In(data)]);
      PumpCompletes(from1, to1, log1);
    }
  }

  /** So all of its stream arrives. */
  lemma WholeStreamArrives(from: Line, to: Line)
    requires Steady(from.peer) && Steady(to.peer) && from.pos <= |from.peer.stream|
    requires RecvsLeft(from) > |from.peer.stream| - from.pos && SendsLeft(to) >= |from.peer.stream| - from.pos
    ensures Taken(Pump(from, to, []).1.trace) == Taken(to.trace) + from.peer.stream[from.pos..]
  {
    PumpCompletes(from, to, []);
    TransferPreservesStream(from, to);
    hide Pump, Taken, Faithful, Received, Delivered;
    var end := |from.peer.stream|;
    assert from.peer.stream[from.pos..end] == from.peer.stream[from.pos..];
  }

  /** A transfer ends only because a receive of 8192 bytes yielded none, or because a send failed. */
  lemma {:induction false} TransferEndsForAReason(from: Line, to: Line, log: seq<Move>)
    ensures var (from', to', _, ended) := Pump(from, to, log);
      var (f, t) := (from'.trace, to'.trace);
      if ended then f != [] && f[|f| - 1].Read? && f[|f| - 1].want == 8192 && f[|f| - 1].len <= 0
      else t != [] && t[|t| - 1].Wrote? && t[|t| - 1].taken < 0
    decreases RecvsLeft(from)
  {
    hide Push;
    var (from1, len, data) := RecvOn(from, BUFFER);
    if len > 0 {
      var (to1, log1, ok) := Push(to, data, log + [In(data)]);
      PushFailsBySend(to, data, log + [In(data)]);
      if ok { TransferEndsForAReason(from1, to1, log1); }
    }
  }

  lemma {:induction false} PushFailsBySend(to: Line, data: seq<U8>, log: seq<Move>)
    ensures var (to', _, ok) := Push(to, data, log);
      ok || (to'.trace != [] && to'.trace[|to'.trace| - 1].Wrote? && to'.trace[|to'.trace| - 1].taken < 0)
    decreases SendsLeft(to)
  {
    if data != [] {
      var (to1, n) := SendOn(to, data);
      SendUses(to, data);
      if n >= 0 { PushFailsBySend(to1, data[n..], log + [Out(data[..n])]); }
    }
  }

  /** The inner loop over the buffer. */
  method SendAll(to: Socket, buf: array<U8>, len: nat, ghost log0: seq<Move>) returns (ok: bool, ghost log: seq<Move>)
    requires len <= buf.Length
    modifies to`line
    ensures (to.line, log, ok) == Push(old(to.line), buf[..len], log0)
  {
    hide SendOn;
    log := log0;
    ghost var data := buf[..len];
    var sent := 0;
    while sent < len
      invariant 0 <= sent <= len
      invariant Push(old(to.line), data, log0) == Push(to.line, data[sent..], log)
      decreases SendsLeft(to.line)
    {
      assert buf[sent..sent + (len - sent)] == data[sent..];
      SendUses(to.line, data[sent..]);
      var n := to.SendFrom(buf, sent, len - sent);
      if n < 0 { return false, log; }
      assert data[sent..][n..] == data[sent + n..];
      log := log + [Out(data[sent..][..n])];
      sent := sent + n;
    }
    return true, log;
  }

  /** One direction of a tunnel. */
  method TransferThread(from: Socket, to: Socket)
    requires from != to
    modifies from, to
    ensures var (f, t, _, ended) := Pump(old(from.line), old(to.line), []);
      && from.line == f && to.line == t
      && from.readShut && to.writeShut
      && (ended ==> from.writeShut == old(from.writeShut) && to.readShut == old(to.readShut))
      && (!ended ==> from.writeShut && to.readShut)
  {
    hide SendOn, RecvOn, Push;
    var buf := new U8[BUFFER](_ => 0);
    ghost var log: seq<Move> := [];
    while true
      invariant from.readShut == old(from.readShut) && from.writeShut == old(from.writeShut)
      invariant to.readShut == old(to.readShut) && to.writeShut == old(to.writeShut)
      invariant PumpResult(old(from.line), old(to.line), []) == PumpResult(from.line, to.line, log)
      decreases RecvsLeft(from.line)
    {
      RecvUses(from.line, BUFFER);
      var len := from.Recv(buf, BUFFER);
      if len <= 0 {
        from.Shutdown(true, false);
        to.Shutdown(false, true);
        return;
      }
      var ok;
      ok, log := SendAll(to, buf, len, log + [In(buf[..len])]);
      if !ok {
        from.Shutdown(true, true);
        to.Shutdown(true, true);
        return;
      }
    }
  }

  /** `Pump` without its log. */
  function PumpResult(from: Line, to: Line, log: seq<Move>): (r: (Line, Line, bool))
    ensures r.0.peer == from.peer && r.1.peer == to.peer
  {
    var (f, t, _, ended) := Pump(from, to, log);
    (f, t, ended)
  }

  // ---- Sockets held ----

  /** The sockets of this process that are open, and the order in which they were closed. */
  class Os {
    ghost var live: set<Socket>
    ghost var closed: seq<Socket>

    constructor ()
      ensures live == {} && closed == []
    {
      live, closed := {}, [];
    }

    /** A new socket is one that is not open. */
    method Open(s: Socket)
      requires s !in live
      modifies this
      ensures live == old(live) + {s} && closed == old(closed)
    {
      live := live + {s};
    }

    /** Only an open socket may be closed. */
    method Close(s: Socket)
      requires s in live
      modifies this
      ensures live == old(live) - {s} && closed == old(closed) + [s]
    {
      live, closed := live - {s}, closed + [s];
    }
  }

  // ---- The listener ----

  class Server {
    var listen: int
    var running: bool
    var threadAlive: bool
    var port: U16
    /** Listening sockets opened and not yet closed, and those closed so far, in order. */
    ghost var live: set<int>
    ghost var closed: seq<int>

    ghost predicate Valid()
      reads this
    {
      (running <==> listen != INVALID) && live == if listen == INVALID then {} else {listen}
    }

    constructor ()
      ensures Valid() && !running && !threadAlive && port == 0 && closed == []
    {
      listen, running, threadAlive, port, live, closed := INVALID, false, false, 0, {}, [];
    }

    /** `closesocket`: only an open socket may be closed. */
    method Close(h: int)
      requires h in live
      modifies `live, `closed
      ensures live == old(live) - {h} && closed == old(closed) + [h]
    {
      live, closed := live - {h}, closed + [h];
    }

    /** The listening socket is closed on every failing path after it was created. */
    method Start(port: U16, handle: int, bound: bool, listens: bool, threadOk: bool) returns (ok: bool)
      requires Valid() && handle >= INVALID && handle !in live
      modifies this
      ensures Valid()
      ensures old(running) ==>
        ok && running && this.port == old(this.port) && listen == old(listen) && closed == old(closed)
      ensures !old(running) ==>
        && this.port == port && ok == running == (handle != INVALID && bound && listens && threadOk)
        && listen == (if ok then handle else INVALID)
        && closed == old(closed) + if handle != INVALID && !ok then [handle] else []
    {
      if running { return true; }
      this.port := port;
      listen := handle;
      if listen == INVALID { return false; }
      live := live + {handle};
      if !bound {
        Close(listen);
        listen := INVALID;
        return false;
      }
      if !listens {
        Close(listen);
        listen := INVALID;
        return false;
      }
      running := true;
      if !threadOk {
        running := false;
        Close(listen);
        listen := INVALID;
        return false;
      }
      threadAlive := true;
      return true;
    }

    method Stop()
      requires Valid()
      modifies this
      ensures Valid() && !running && port == old(port)
      ensures old(running) ==> !threadAlive
      ensures closed == old(closed) + if old(running) then [old(listen)] else []
    {
      if !running { return; }
      running := false;
      if listen != INVALID {
        Close(listen);
        listen := INVALID;
      }
      if threadAlive { threadAlive := false; }
    }
  }

  // ---- Accepting a connection ----

  datatype Context = Context(destIp: U32, destPort: U16, clientPort: U16, proxy: ProxyInfo)

  /** The two tracker lookups are separate critical sections, so they may see different tables. */
  function AcceptContext(first: map<U16, CT.Conn>, second: map<U16, CT.Conn>, port: U16, globalProxy: ProxyInfo)
    : Option<Context> {
    match CT.Visible4(first, port)
    case None => None
    case Some(c) =>
      var own := port in second && second[port].proxy.hasProxy;
      Some(Context(c.dest.ip, c.destPort, port, if own then second[port].proxy else globalProxy))
  }

  /** One accepted connection; it is closed at once unless a handler can be started for it. */
  method Accept(os: Os, tracker: CT.Tracker, globalProxy: ProxyInfo, client: Socket, port: U16,
      memory: bool, threadOk: bool)
    returns (ctx: Option<Context>)
    requires tracker.Valid() && client in os.live
    modifies os
    ensures ctx == if memory && threadOk then AcceptContext(tracker.Conns(), tracker.Conns(), port, globalProxy)
      else None
    ensures ctx.Some? <==> memory && threadOk && port in tracker.Conns() && tracker.Conns()[port].dest.V4?
    ensures ctx.Some? ==> var c := tracker.Conns()[port];
      ctx.value == Context(c.dest.ip, c.destPort, port, if c.proxy.hasProxy then c.proxy else globalProxy)
    ensures if ctx.Some? then os.live == old(os.live) && os.closed == old(os.closed)
            else os.live == old(os.live) - {client} && os.closed == old(os.closed) + [client]
  {
    hide CT.MapOf;
    var dest := tracker.Get(port);
    if dest.None? {
      os.Close(client);
      return None;
    }
    var proxy := tracker.GetProxy(port);
    var connProxy := if proxy.None? || !proxy.value.hasProxy then globalProxy else proxy.value;
    if !memory {
      os.Close(client);
      return None;
    }
    if !threadOk {
      os.Close(client);
      return None;
    }
    return Some(Context(dest.value.0, dest.value.1, port, connProxy));
  }

  // ---- Serving a connection ----

  /** What the system answers along the way. */
  datatype Fate = Fate(resolved: bool, socketOk: bool, connectOk: bool, memory1: bool, memory2: bool, threadOk: bool)

  function Handshake(l: Line, ctx: Context): (r: (Line, bool))
    ensures r.0.peer == l.peer
  {
    if ctx.proxy.kind == ProxyKind.Socks5
    then Socks5.CoreRun(l, Socks5.Request4(ctx.destIp, ctx.destPort), ctx.proxy.username, ctx.proxy.password)
    else HttpConnect.HttpRun(l, ctx.destIp, ctx.destPort, ctx.proxy.username, ctx.proxy.password)
  }

  method RunHandshake(s: Socket, ctx: Context) returns (ok: bool)
    modifies s`line
    ensures (s.line, ok) == Handshake(old(s.line), ctx)
  {
    hide Socks5.CoreRun, HttpConnect.HttpRun, Socks5.Request4;
    if ctx.proxy.kind == ProxyKind.Socks5 {
      ok := Socks5.Connect(s, ctx.destIp, ctx.destPort, ctx.proxy.username, ctx.proxy.password);
    } else {
      ok := HttpConnect.Connect(s, ctx.destIp, ctx.destPort, ctx.proxy.username, ctx.proxy.password);
    }
  }

  /** The end of every connection that got as far as a proxy socket. */
  method CloseBoth(os: Os, tracker: CT.Tracker, client: Socket, proxySock: Socket, port: U16)
    requires tracker.Valid() && client in os.live && proxySock in os.live && client != proxySock
    modifies os, tracker, tracker.spine
    ensures tracker.Valid() && tracker.Conns() == old(tracker.Conns()) - {port}
    ensures os.live == old(os.live) - {client, proxySock} && os.closed == old(os.closed) + [client, proxySock]
  {
    hide CT.MapOf, CT.Tracker.Valid;
    os.Close(client);
    os.Close(proxySock);
    tracker.Remove(port);
  }
}
