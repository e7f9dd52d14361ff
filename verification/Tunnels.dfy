/** The two threads of a tunnel under an arbitrary schedule: each turn is one system call of one direction. */
module Tunnels {
  import opened CTypes
  import opened Sockets
  import opened LocalProxy
  import CT = ConnectionTracker

  /** Where the thread of one direction stands: about to receive, with bytes still to send, or over.
      `ended` tells a source that ended from a failed send. */
  datatype Phase = Receiving | Sending(data: seq<U8>) | Over(ended: bool)

  datatype Way = Way(phase: Phase, log: seq<Move>)

  /** The next call of a direction. A failed send shuts both sockets down (`cut`), after which the other
      direction receives nothing and its sends fail. */
  function Call(from: Line, to: Line, way: Way, cut: bool): (Line, Line, Way) {
    match way.phase
    case Over(_) => (from, to, way)
    case Receiving =>
      if cut then (from, to, way.(phase := Over(true)))
      else
        var (from1, len, data) := RecvOn(from, BUFFER);
        (from1, to, if len <= 0 then way.(phase := Over(true)) else Way(Sending(data), way.log + [In(data)]))
    case Sending(data) =>
      if cut then (from, to, way.(phase := Over(false)))
      else
        var (to1, n) := SendOn(to, data);
        (from, to1, if n < 0 then way.(phase := Over(false))
                    else Way(if n == |data| then Receiving else Sending(data[n..]), way.log + [Out(data[..n])]))
  }

  datatype State = State(client: Line, proxy: Line, up: Way, down: Way)

  function Start(client: Line, proxy: Line): State {
    State(client, proxy, Way(Receiving, []), Way(Receiving, []))
  }

  function Turn(s: State, up: bool): State {
    if up then
      var (client, proxy, way) := Call(s.client, s.proxy, s.up, s.down.phase == Over(false));
      State(client, proxy, way, s.down)
    else
      var (proxy, client, way) := Call(s.proxy, s.client, s.down, s.up.phase == Over(false));
      State(client, proxy, s.up, way)
  }

  /** The tunnel after the turns of `schedule`: true for the direction from the client, false for the other. */
  function Run(s: State, schedule: seq<bool>): State {
    if schedule == [] then s else Turn(Run(s, schedule[..|schedule| - 1]), schedule[|schedule| - 1])
  }

  // ---- Every schedule preserves both streams ----

  /** One direction, begun on `from0` and `to0`, has received a stretch of its source's stream and handed
      a prefix of it, at most one buffer short, to its sink; once it is over, nothing is missing exactly if
      its source ended. */
  ghost predicate Sound(from0: Line, to0: Line, from: Line, to: Line, way: Way) {
    && from.peer == from0.peer && to.peer == to0.peer && from0.pos <= from.pos <= |from.peer.stream|
    && Received(way.log) == from.peer.stream[from0.pos..from.pos]
    && Taken(to.trace) == Taken(to0.trace) + Delivered(way.log)
    && Faithful(way.log)
    && match way.phase
       case Sending(data) => data != [] && |data| <= BUFFER && Delivered(way.log) + data == Received(way.log)
       case Receiving => Delivered(way.log) == Received(way.log)
       case Over(ended) => ended <==> Delivered(way.log) == Received(way.log)
  }

  lemma SomethingIsMissing(delivered: seq<U8>, data: seq<U8>)
    requires data != []
    ensures delivered != delivered + data
  {
    assert |delivered + data| > |delivered|;
  }

  lemma TakenByRecv(l: Line, want: nat)
    ensures Taken(RecvOn(l, want).0.trace) == Taken(l.trace)
  {
    var t := RecvOn(l, want).0.trace;
    assert t[..|l.trace|] == l.trace;
  }

  lemma RecvAdvances(l: Line, want: nat)
    requires l.pos <= |l.peer.stream|
    ensures var (l1, len, data) := RecvOn(l, want);
      l1.peer == l.peer && l.pos <= l1.pos <= |l.peer.stream|
      && data == l.peer.stream[l.pos..l1.pos] && (len <= 0 ==> l1.pos == l.pos)
  {
  }

  lemma Stretch(s: seq<U8>, i: nat, j: nat, k: nat)
    requires i <= j <= k <= |s|
    ensures s[i..j] + s[j..k] == s[i..k]
  {
  }

  /** A call keeps its own direction sound. */
  lemma CallIsSound(from0: Line, to0: Line, from: Line, to: Line, way: Way, cut: bool)
    requires Sound(from0, to0, from, to, way)
    ensures var (from1, to1, way1) := Call(from, to, way, cut); Sound(from0, to0, from1, to1, way1)
  {
    hide RecvOn, SendOn, Taken, Received, Delivered, Faithful, InStep;
    match way.phase
    case Over(_) =>
    case Receiving => if !cut { RecvIsSound(from0, to0, from, to, way); }
    case Sending(data) =>
      SomethingIsMissing(Delivered(way.log), data);
      if !cut { SendIsSound(from0, to0, from, to, way); }
  }

  lemma RecvIsSound(from0: Line, to0: Line, from: Line, to: Line, way: Way)
    requires Sound(from0, to0, from, to, way) && way.phase.Receiving?
    ensures var (from1, to1, way1) := Call(from, to, way, false); Sound(from0, to0, from1, to1, way1)
  {
    hide RecvOn, Taken, Received, Delivered, Faithful, InStep;
    var (from1, len, data) := RecvOn(from, BUFFER);
    RecvAdvances(from, BUFFER);
    Stretch(from.peer.stream, from0.pos, from.pos, from1.pos);
    if len > 0 { ChunkInStep(way.log, data); }
  }

  /** A chunk just received is all that is still to be delivered. */
  lemma ChunkInStep(log: seq<Move>, data: seq<U8>)
    requires Faithful(log) && Delivered(log) == Received(log) && |data| <= BUFFER
    ensures var t := log + [In(data)];
      Faithful(t) && Received(t) == Received(log) + data && Delivered(t) == Delivered(log)
      && Delivered(t) + data == Received(t)
  {
    Extend(log, In(data));
    hide Received, Delivered, Faithful;
    assert Delivered(log) + [] == Delivered(log);
    assert InStep(log + [In(data)]);
  }

  lemma SendIsSound(from0: Line, to0: Line, from: Line, to: Line, way: Way)
    requires Sound(from0, to0, from, to, way) && way.phase.Sending?
    ensures var (from1, to1, way1) := Call(from, to, way, false); Sound(from0, to0, from1, to1, way1)
  {
    hide SendOn, Taken, Received, Delivered, Faithful;
    var data := way.phase.data;
    var (_, n) := SendOn(to, data);
    SendUses(to, data);
    TakenBySend(to, data);
    SomethingIsMissing(Delivered(way.log), data);
    if n >= 0 {
      Extend(way.log, Out(data[..n]));
      Regroup(Taken(to0.trace), Delivered(way.log), data, n);
      if n == 0 { assert data[..0] == [] && Taken(to.trace) + [] == Taken(to.trace); }
    }
  }

  /** A call of one direction leaves the other one sound: they share no half of a socket. */
  lemma OtherStaysSound(from0: Line, to0: Line, from: Line, to: Line, way: Way, other: Way, cut: bool)
    requires Sound(from0, to0, from, to, way)
    ensures var (to1, from1, _) := Call(to, from, other, cut); Sound(from0, to0, from1, to1, way)
  {
    RecvUses(to, BUFFER);
    TakenByRecv(to, BUFFER);
    hide Taken, Received, Delivered, Faithful;
  }

  /** Under every schedule of the two threads, failures of either included, both directions preserve
      their streams at every moment. */
  lemma {:induction false} EveryScheduleIsFaithful(client: Line, proxy: Line, schedule: seq<bool>)
    requires client.pos <= |client.peer.stream| && proxy.pos <= |proxy.peer.stream|
    ensures var s := Run(Start(client, proxy), schedule);
      Sound(client, proxy, s.client, s.proxy, s.up) && Sound(proxy, client, s.proxy, s.client, s.down)
  {
    if schedule == [] {
      NothingIsSound(client, proxy);
      NothingIsSound(proxy, client);
    } else {
      var before, up := schedule[..|schedule| - 1], schedule[|schedule| - 1];
      EveryScheduleIsFaithful(client, proxy, before);
      var s := Run(Start(client, proxy), before);
      hide Sound, Call;
      if up {
        CallIsSound(client, proxy, s.client, s.proxy, s.up, s.down.phase == Over(false));
        OtherStaysSound(proxy, client, s.proxy, s.client, s.down, s.up, s.down.phase == Over(false));
      } else {
        CallIsSound(proxy, client, s.proxy, s.client, s.down, s.up.phase == Over(false));
        OtherStaysSound(client, proxy, s.client, s.proxy, s.up, s.down, s.up.phase == Over(false));
      }
    }
  }

  lemma NothingIsSound(from: Line, to: Line)
    requires from.pos <= |from.peer.stream|
    ensures Sound(from, to, from, to, Way(Receiving, []))
  {
    assert Received([]) == [] && Delivered([]) == [] && Taken(to.trace) + [] == Taken(to.trace);
  }

  // ---- A schedule decides nothing ----

  /** What the thread of a direction, left alone, will still log, and whether its source will end. */
  function Rest(from: Line, to: Line, way: Way): (seq<Move>, bool) {
    match way.phase
    case Over(ended) => (way.log, ended)
    case Receiving => LogOf(Pump(from, to, way.log))
    case Sending(data) =>
      var (to1, log1, ok) := Push(to, data, way.log);
      if ok then LogOf(Pump(from, to1, log1)) else (log1, false)
  }

  function LogOf(r: (Line, Line, seq<Move>, bool)): (seq<Move>, bool) { (r.2, r.3) }

  /** Two lines at the same point of their receiving, or of their sending, half. */
  predicate SameReader(l: Line, m: Line) { l.peer == m.peer && l.pos == m.pos && l.recvs == m.recvs }
  predicate SameWriter(l: Line, m: Line) { l.peer == m.peer && l.sends == m.sends }

  lemma {:induction false} PushReadsWriter(to: Line, to': Line, data: seq<U8>, log: seq<Move>)
    requires SameWriter(to, to')
    ensures var (r, r') := (Push(to, data, log), Push(to', data, log));
      SameWriter(r.0, r'.0) && r.1 == r'.1 && r.2 == r'.2
    decreases SendsLeft(to)
  {
    if data != [] {
      var (to1, n) := SendOn(to, data);
      SendUses(to, data);
      if n >= 0 { PushReadsWriter(to1, SendOn(to', data).0, data[n..], log + [Out(data[..n])]); }
    }
  }

  lemma {:induction false} PumpReadsHalves(from: Line, from': Line, to: Line, to': Line, log: seq<Move>)
    requires SameReader(from, from') && SameWriter(to, to')
    ensures LogOf(Pump(from, to, log)) == LogOf(Pump(from', to', log))
    decreases RecvsLeft(from)
  {
    var (from1, len, data) := RecvOn(from, BUFFER);
    RecvUses(from, BUFFER);
    if len > 0 {
      PushReadsWriter(to, to', data, log + [In(data)]);
      var (to1, log1, ok) := Push(to, data, log + [In(data)]);
      if ok { PumpReadsHalves(from1, RecvOn(from', BUFFER).0, to1, Push(to', data, log + [In(data)]).0, log1); }
    }
  }

  lemma RestReadsHalves(from: Line, from': Line, to: Line, to': Line, way: Way)
    requires SameReader(from, from') && SameWriter(to, to')
    ensures Rest(from, to, way) == Rest(from', to', way)
  {
    hide Pump, Push;
    match way.phase
    case Over(_) =>
    case Receiving => PumpReadsHalves(from, from', to, to', way.log);
    case Sending(data) =>
      PushReadsWriter(to, to', data, way.log);
      var (to1, log1, _) := Push(to, data, way.log);
      PumpReadsHalves(from, from', to1, Push(to', data, way.log).0, log1);
  }

  /** A call not cut off is the next one of the thread left alone. */
  lemma CallFollowsRest(from: Line, to: Line, way: Way)
    requires way.phase.Sending? ==> way.phase.data != []
    ensures var (from1, to1, way1) := Call(from, to, way, false); Rest(from1, to1, way1) == Rest(from, to, way)
  {
    hide RecvOn, SendOn;
    if way.phase.Sending? {
      var data := way.phase.data;
      var (to1, n) := SendOn(to, data);
      if n == |data| {
        assert data[n..] == [];
        assert Push(to1, data[n..], way.log + [Out(data[..n])]) == (to1, way.log + [Out(data[..n])], true);
      }
    }
  }

  lemma OtherLeavesHalves(from: Line, to: Line, other: Way, cut: bool)
    ensures var (to1, from1, _) := Call(to, from, other, cut); SameReader(from, from1) && SameWriter(to, to1)
  {
  }

  /** Unless the other direction failed, a direction that is over did under every schedule exactly what it
      does alone: the same receives and sends, with the same outcome. */
  lemma {:induction false} ScheduleDecidesNothing(client: Line, proxy: Line, schedule: seq<bool>)
    requires client.pos <= |client.peer.stream| && proxy.pos <= |proxy.peer.stream|
    ensures var s := Run(Start(client, proxy), schedule);
      && (s.down.phase != Over(false) ==> Rest(s.client, s.proxy, s.up) == LogOf(Pump(client, proxy, [])))
      && (s.up.phase != Over(false) ==> Rest(s.proxy, s.client, s.down) == LogOf(Pump(proxy, client, [])))
  {
    hide Pump, Push, RecvOn, SendOn;
    if schedule != [] {
      var before, up := schedule[..|schedule| - 1], schedule[|schedule| - 1];
      ScheduleDecidesNothing(client, proxy, before);
      EveryScheduleIsFaithful(client, proxy, before);
      var s := Run(Start(client, proxy), before);
      hide Rest, Faithful, Taken, Received, Delivered;
      if up {
        CallFollowsRest(s.client, s.proxy, s.up);
        OtherLeavesHalves(s.proxy, s.client, s.up, s.down.phase == Over(false));
        RestReadsHalves(s.proxy, Turn(s, up).proxy, s.client, Turn(s, up).client, s.down);
      } else {
        CallFollowsRest(s.proxy, s.client, s.down);
        OtherLeavesHalves(s.client, s.proxy, s.down, s.up.phase == Over(false));
        RestReadsHalves(s.client, Turn(s, up).client, s.proxy, Turn(s, up).proxy, s.up);
      }
    }
  }

  // ---- Every thread ends ----

  /** Turns a direction gets under a schedule. */
  function Turns(schedule: seq<bool>, up: bool): nat {
    if schedule == [] then 0
      else Turns(schedule[..|schedule| - 1], up) + if schedule[|schedule| - 1] == up then 1 else 0
  }

  /** Calls a direction can still make. */
  function CallsLeft(from: Line, to: Line, way: Way): nat {
    if way.phase.Over? then 0 else 1 + RecvsLeft(from) + SendsLeft(to)
  }

  /** A direction with `left` calls left after `turns` turns, out of `all`. */
  predicate UsedUp(left: nat, turns: nat, all: nat) { left == 0 || left + turns <= all }

  /** However the threads are scheduled, each turn uses up one of the calls its direction has left. */
  lemma {:induction false} TurnsRunOut(client: Line, proxy: Line, schedule: seq<bool>)
    ensures var (s, whole) := (Run(Start(client, proxy), schedule), Way(Receiving, []));
      && UsedUp(CallsLeft(s.client, s.proxy, s.up), Turns(schedule, true), CallsLeft(client, proxy, whole))
      && UsedUp(CallsLeft(s.proxy, s.client, s.down), Turns(schedule, false), CallsLeft(proxy, client, whole))
  {
    hide Call, CallsLeft, Turns;
    if schedule == [] {
      NoTurns();
    } else {
      var before, up := schedule[..|schedule| - 1], schedule[|schedule| - 1];
      TurnsRunOut(client, proxy, before);
      TurnsStep(schedule);
      var s := Run(Start(client, proxy), before);
      if up {
        CallUsesOne(s.client, s.proxy, s.up, s.down, s.down.phase == Over(false));
      } else {
        CallUsesOne(s.proxy, s.client, s.down, s.up, s.up.phase == Over(false));
      }
    }
  }

  lemma NoTurns()
    ensures Turns([], true) == Turns([], false) == 0
  {
  }

  lemma TurnsStep(schedule: seq<bool>)
    requires schedule != []
    ensures var (before, up) := (schedule[..|schedule| - 1], schedule[|schedule| - 1]);
      Turns(schedule, up) == Turns(before, up) + 1 && Turns(schedule, !up) == Turns(before, !up)
  {
  }

  lemma OverIsNone(from: Line, to: Line, way: Way)
    ensures CallsLeft(from, to, way) == 0 <==> way.phase.Over?
  {
  }

  lemma CallUsesOne(from: Line, to: Line, way: Way, other: Way, cut: bool)
    ensures var (from1, to1, way1) := Call(from, to, way, cut);
      && (CallsLeft(from1, to1, way1) == 0 || CallsLeft(from1, to1, way1) < CallsLeft(from, to, way))
      && CallsLeft(to1, from1, other) == CallsLeft(to, from, other)
  {
    RecvUses(from, BUFFER);
    if way.phase.Sending? { SendUses(to, way.phase.data); }
  }

  /** So a direction with more turns than calls is over, whatever the other one does. */
  lemma EnoughTurnsEnd(client: Line, proxy: Line, schedule: seq<bool>)
    ensures var s := Run(Start(client, proxy), schedule);
      && (Turns(schedule, true) > RecvsLeft(client) + SendsLeft(proxy) ==> s.up.phase.Over?)
      && (Turns(schedule, false) > RecvsLeft(proxy) + SendsLeft(client) ==> s.down.phase.Over?)
  {
    TurnsRunOut(client, proxy, schedule);
    hide Run, Turns, RecvsLeft, SendsLeft;
  }

  // ---- The two threads ----

  /** The transfer thread of one direction between two of its system calls: its buffer, how much of it was
      received and sent, and whether the thread is over. */
  class Direction {
    const buf: array<U8>
    var len: nat
    var sent: nat
    var over: bool
    var ended: bool
    ghost var log: seq<Move>

    ghost predicate Valid()
      reads this
    {
      buf.Length == BUFFER && sent <= len <= BUFFER
    }

    ghost function Stand(): Way
      requires Valid()
      reads this, buf
    {
      Way(if over then Over(ended) else if sent < len then Sending(buf[sent..len]) else Receiving, log)
    }

    constructor ()
      ensures Valid() && Stand() == Way(Receiving, []) && fresh(buf)
    {
      buf := new U8[BUFFER](_ => 0);
      len, sent, over, ended, log := 0, 0, false, false, [];
    }

    /** One call of the thread. On a socket shut down for it a receive yields nothing and a send fails. */
    method Advance(from: Socket, to: Socket, ghost cut: bool)
      requires Valid() && from != to && (!over ==> from.readShut == to.writeShut == cut)
      modifies this, buf, from, to
      ensures Valid() && (old(over) ==> over && ended == old(ended))
      ensures (from.line, to.line, Stand()) == Call(old(from.line), old(to.line), old(Stand()), cut)
      ensures from.writeShut == (old(from.writeShut) || (!old(over) && over && !ended))
      ensures to.readShut == (old(to.readShut) || (!old(over) && over && !ended))
      ensures !over ==> from.readShut == old(from.readShut) && to.writeShut == old(to.writeShut)
    {
      hide RecvOn, SendOn;
      if over { return; }
      if sent == len {
        var n := 0;
        if !from.readShut { n := from.Recv(buf, BUFFER); }
        if n <= 0 {
          from.Shutdown(true, false);
          to.Shutdown(false, true);
          over, ended := true, true;
          return;
        }
        len, sent, log := n, 0, log + [In(buf[..n])];
        assert buf[0..n] == buf[..n];
      } else {
        var n := -1;
        if !to.writeShut {
          assert buf[sent..sent + (len - sent)] == buf[sent..len];
          n := to.SendFrom(buf, sent, len - sent);
        }
        if n < 0 {
          from.Shutdown(true, true);
          to.Shutdown(true, true);
          over, ended := true, false;
          return;
        }
        ghost var data := buf[sent..len];
        assert data[n..] == buf[sent + n..len];
        sent, log := sent + n, log + [Out(data[..n])];
      }
    }
  }

  /** The direction with stand `way` may call: its halves of the sockets are shut exactly when the other
      direction failed. */
  predicate Agree(way: Way, other: Way, readShut: bool, writeShut: bool) {
    !way.phase.Over? ==> readShut == writeShut == (other.phase == Over(false))
  }

  lemma RunStep(s: State, schedule: seq<bool>, up: bool)
    ensures Run(s, schedule + [up]) == Turn(Run(s, schedule), up)
  {
    assert (schedule + [up])[..|schedule|] == schedule;
  }

  /** Both threads, scheduled at first as `schedule` says and then until both are over. */
  method RunThreads(client: Socket, proxySock: Socket, schedule: seq<bool>) returns (ghost ran: seq<bool>)
    requires client != proxySock
    requires !client.readShut && !client.writeShut && !proxySock.readShut && !proxySock.writeShut
    modifies client, proxySock
    ensures schedule <= ran
    ensures var s := Run(Start(old(client.line), old(proxySock.line)), ran);
      client.line == s.client && proxySock.line == s.proxy && s.up.phase.Over? && s.down.phase.Over?
  {
    hide Run, Call, CallsLeft;
    var up := new Direction();
    var down := new Direction();
    ghost var start := Start(client.line, proxySock.line);
    ran := [];
    RunNothing(start);
    var i := 0;
    while i < |schedule| || !up.over || !down.over
      invariant up.Valid() && down.Valid() && fresh(up) && fresh(up.buf) && fresh(down) && fresh(down.buf)
      invariant up != down && up.buf != down.buf
      invariant i <= |schedule| && |ran| >= i && ran[..i] == schedule[..i] && (i < |schedule| ==> |ran| == i)
      invariant State(client.line, proxySock.line, up.Stand(), down.Stand()) == Run(start, ran)
      invariant Agree(up.Stand(), down.Stand(), client.readShut, proxySock.writeShut)
      invariant Agree(down.Stand(), up.Stand(), proxySock.readShut, client.writeShut)
      decreases |schedule| - i,
        CallsLeft(client.line, proxySock.line, up.Stand()) + CallsLeft(proxySock.line, client.line, down.Stand())
    {
      var turn := if i < |schedule| then schedule[i] else !up.over;
      ghost var c, p, u, d := client.line, proxySock.line, up.Stand(), down.Stand();
      RunStep(start, ran, turn);
      OverIsNone(c, p, u);
      OverIsNone(p, c, d);
      if turn {
        CallUsesOne(c, p, u, d, d.phase == Over(false));
        up.Advance(client, proxySock, d.phase == Over(false));
      } else {
        CallUsesOne(p, c, d, u, u.phase == Over(false));
        down.Advance(proxySock, client, u.phase == Over(false));
      }
      ran := ran + [turn];
      if i < |schedule| { i := i + 1; }
    }
  }

  lemma RunNothing(s: State)
    ensures Run(s, []) == s
  {
  }

  // ---- Serving a connection ----

  /** Both sockets are relayed after a granted handshake, by two threads that may be scheduled in any way
      until both are over, and closed once each, in every case; the tracker entry of the client's port is
      dropped. */
  method ConnectionHandler(os: Os, tracker: CT.Tracker, client: Socket, proxySock: Socket, ctx: Context, fate: Fate,
                           schedule: seq<bool>) returns (served: bool, ghost ran: seq<bool>)
    requires tracker.Valid() && client in os.live && proxySock !in os.live
    requires !client.readShut && !client.writeShut && !proxySock.readShut && !proxySock.writeShut
    modifies os, tracker, tracker.spine, client, proxySock
    ensures tracker.Valid() && tracker.Conns() == old(tracker.Conns()) - {ctx.clientPort}
    ensures os.live == old(os.live) - {client}
    ensures os.closed == old(os.closed) + if fate.resolved && fate.socketOk then [client, proxySock] else [client]
    ensures served <==> fate == Fate(true, true, true, true, true, true) && Handshake(old(proxySock.line), ctx).1
    ensures !served && fate.resolved && fate.socketOk && fate.connectOk ==>
      proxySock.line == Handshake(old(proxySock.line), ctx).0 && client.line == old(client.line)
    ensures !(fate.resolved && fate.socketOk && fate.connectOk) ==>
      proxySock.line == old(proxySock.line) && client.line == old(client.line)
    ensures served ==> schedule <= ran
    ensures served ==>
      var s := Run(Start(old(client.line), Handshake(old(proxySock.line), ctx).0), ran);
      client.line == s.client && proxySock.line == s.proxy && s.up.phase.Over? && s.down.phase.Over?
  {
    hide Run, Handshake, CT.MapOf, CT.Tracker.Valid;
    if !fate.resolved {
      os.Close(client);
      tracker.Remove(ctx.clientPort);
      return false, [];
    }
    if !fate.socketOk {
      os.Close(client);
      tracker.Remove(ctx.clientPort);
      return false, [];
    }
    os.Open(proxySock);
    if !fate.connectOk {
      CloseBoth(os, tracker, client, proxySock, ctx.clientPort);
      return false, [];
    }
    var ok := RunHandshake(proxySock, ctx);
    if !ok {
      CloseBoth(os, tracker, client, proxySock, ctx.clientPort);
      return false, [];
    }
    if !fate.memory1 || !fate.memory2 {
      CloseBoth(os, tracker, client, proxySock, ctx.clientPort);
      return false, [];
    }
    if !fate.threadOk {
      CloseBoth(os, tracker, client, proxySock, ctx.clientPort);
      return false, [];
    }
    ran := RunThreads(client, proxySock, schedule);
    CloseBoth(os, tracker, client, proxySock, ctx.clientPort);
    served := true;
  }
}
