/** How long the sessions of the UDP relay live, in unbounded time, and what a session request creates. */
module SessionLife {
  import opened CTypes
  import opened UdpRelay

  // ---- A session request ----

  /** The proxy of the request, or else the global one. */
  function ProxyFor(r: Request): ProxyInfo {
    if r.proxy.Some? && r.proxy.value.hasProxy then r.proxy.value else r.globalProxy
  }

  predicate Known(ss: Sessions, r: Request) {
    exists k :: 0 <= k < |ss| && ss[k].active && ss[k].clientIp == r.clientIp && ss[k].clientPort == r.clientPort
  }

  predicate Room(ss: Sessions) { exists k :: 0 <= k < |ss| && !ss[k].active }

  /** Every step of the set-up works. */
  predicate Works(u: Setup) {
    u.proxyIp != 0 && u.tcp != -1 && u.connected && u.associated && u.udp != -1
  }

  /** The relay answers its own port exactly to a client that has a session or gets one. Getting one takes a
      usable proxy, a free slot and a working set-up, and fills the first free slot with the client, its
      destination, the two sockets, the proxy and the tick of the request; any other request changes nothing. */
  lemma RequestCreates(t: Table, r: Request, u: Setup, localPort: U16)
    requires NewHandles(u, t.live)
    ensures var (ss, next, usable) := (t.sessions, Next(t, Add(r, u, localPort)), ProxyFor(r).hasProxy);
      && Answer(ss, r, u, localPort) == (if usable && (Known(ss, r) || (Room(ss) && Works(u))) then localPort else 0)
      && (!(usable && !Known(ss, r) && Room(ss) && Works(u)) ==> next == t)
      && (usable && !Known(ss, r) && Room(ss) && Works(u) ==>
            next.live == t.live + {u.tcp, u.udp}
            && exists i :: 0 <= i < |ss| && !ss[i].active && (forall k :: 0 <= k < i ==> ss[k].active)
                 && next.sessions == ss[i := Session(true, r.clientIp, r.clientPort, r.dest, r.destPort, u.tcp, u.udp,
                                                     u.relayIp, u.relayPort, localPort, ProxyFor(r), u.now)])
  {
    var ss := t.sessions;
    assert Known(ss, r) <==> FindByClient(ss, r.clientIp, r.clientPort) < |ss| by {
      if Known(ss, r) {
        var k :| 0 <= k < |ss| && ss[k].active && ss[k].clientIp == r.clientIp && ss[k].clientPort == r.clientPort;
        assert IsClient(ss[k], r.clientIp, r.clientPort);
      }
    }
    assert Room(ss) <==> FindFree(ss) < |ss|;
    hide FindByClient, FindFree, Known, Room;
    if Classify(ss, r, u).Created? {
      assert AsSet([]) == {} && AsSet([u.tcp, u.udp]) == {u.tcp, u.udp};
    } else {
      RefusalConserves(t, Add(r, u, localPort));
    }
  }

  // ---- Time ----

  /** An event and the time at which it happens; the ticks it carries are those of that time. */
  datatype Timed = Timed(event: Event, time: nat)
  {
    predicate Ticks() {
      match event
      case Add(_, u, _) => u.now == time % 0x1_0000_0000
      case Touch(_, tick) => tick == time % 0x1_0000_0000
      case Sweep(now) => now.Some? ==> now.value == time % 0x1_0000_0000
    }
  }

  function Events(ts: seq<Timed>): (es: seq<Event>)
    ensures |es| == |ts|
  {
    seq(|ts|, i requires 0 <= i < |ts| => ts[i].event)
  }

  lemma RunNext(t: Table, ts: seq<Timed>)
    requires ts != []
    ensures Run(t, Events(ts)) == Next(Run(t, Events(ts[..|ts| - 1])), ts[|ts| - 1].event)
  {
    assert Events(ts)[..|ts| - 1] == Events(ts[..|ts| - 1]);
  }

  /** A sweep ends a session exactly when its age, as 32-bit ticks tell it, is above 120000. */
  lemma SweepEnds(ss: Sessions, i: nat, touched: nat, time: nat)
    requires i < |ss| && ss[i].active && ss[i].lastActivity == touched % 0x1_0000_0000 && touched <= time
    ensures Swept(ss, Some(Tick(time)))[i]
         == if (time - touched) % 0x1_0000_0000 > 120000 then ss[i].(active := false) else ss[i]
  {
    TickAgeIsTrueAge(time, touched);
  }

  /** Event `e` neither touches slot `i` nor sweeps it more than 120000 ticks after it was last touched. */
  predicate Spares(e: Timed, i: nat, touched: nat) {
    match e.event
    case Add(_, _, _) => true
    case Touch(slot, _) => slot != i
    case Sweep(now) => now.Some? && (e.time - touched) % 0x1_0000_0000 <= 120000
  }

  ghost predicate Quiet(ts: seq<Timed>, i: nat, touched: nat) {
    forall k {:trigger ts[k]} :: 0 <= k < |ts| ==> ts[k].Ticks() && touched <= ts[k].time && Spares(ts[k], i, touched)
  }

  lemma NextKeeps(t: Table, e: Timed, i: nat, s: Session, touched: nat)
    requires i < |t.sessions| && t.sessions[i] == s && s.active && s.lastActivity == touched % 0x1_0000_0000
    requires e.Ticks() && touched <= e.time && Spares(e, i, touched)
    ensures i < |Next(t, e.event).sessions| && Next(t, e.event).sessions[i] == s
  {
    if e.event.Sweep? {
      SweepEnds(t.sessions, i, touched, e.time);
    } else if e.event.Add? {
      assert FindFree(t.sessions) != i;
    }
  }

  /** An idle session keeps its slot through every sweep up to 120000 ticks after it was last touched, over any
      run of requests, traffic on other sessions and sweeps. */
  lemma {:induction false} IdleSessionStays(t: Table, ts: seq<Timed>, i: nat, s: Session, touched: nat)
    requires i < |t.sessions| && t.sessions[i] == s && s.active && s.lastActivity == touched % 0x1_0000_0000
    requires Quiet(ts, i, touched)
    ensures i < |Run(t, Events(ts)).sessions| && Run(t, Events(ts)).sessions[i] == s
  {
    if ts != [] {
      var init := ts[..|ts| - 1];
      IdleSessionStays(t, init, i, s, touched);
      RunNext(t, ts);
      hide Run, Next;
      NextKeeps(Run(t, Events(init)), ts[|ts| - 1], i, s, touched);
    }
  }

  /** And so are its two sockets kept open. */
  lemma IdleSocketsStayOpen(t: Table, ts: seq<Timed>, i: nat, s: Session, touched: nat)
    requires i < |t.sessions| && t.sessions[i] == s && s.active && s.lastActivity == touched % 0x1_0000_0000
    requires Quiet(ts, i, touched) && Conserved(t) && AllAllowed(t, Events(ts))
    ensures s.tcp in Run(t, Events(ts)).live && s.udp in Run(t, Events(ts)).live
  {
    IdleSessionStays(t, ts, i, s, touched);
    SocketsAreConserved(t, Events(ts));
    var now := Run(t, Events(ts));
    hide Run, AllAllowed, Exclusive, Owned;
    OwnedIff(now.sessions, s.tcp);
    OwnedIff(now.sessions, s.udp);
    assert Owns(now.sessions[i], s.tcp) && Owns(now.sessions[i], s.udp);
  }

  /** A sweep later than that, until the age wraps, frees the slot and closes both sockets, each once. */
  lemma OverdueSessionEnds(t: Table, ts: seq<Timed>, i: nat, s: Session, touched: nat, time: nat)
    requires i < |t.sessions| && t.sessions[i] == s && s.active && s.lastActivity == touched % 0x1_0000_0000
    requires Quiet(ts, i, touched) && Conserved(t) && AllAllowed(t, Events(ts))
    requires touched + 120001 <= time < touched + 0x1_0000_0000
    ensures var sweep := Sweep(Some(Tick(time)));
      var (before, after) := (Run(t, Events(ts)), Next(Run(t, Events(ts)), Sweep(Some(Tick(time)))));
      && i < |after.sessions| && !after.sessions[i].active && s.tcp !in after.live && s.udp !in after.live
      && s.tcp in Closes(before, sweep) && s.udp in Closes(before, sweep) && NoDuplicates(Closes(before, sweep))
  {
    hide Run, AllAllowed, Next, Closes, Conserved, Quiet, Events, Swept, NoDuplicates;
    IdleSessionStays(t, ts, i, s, touched);
    SocketsAreConserved(t, Events(ts));
    var before := Run(t, Events(ts));
    SweepEnds(before.sessions, i, touched, time);
    OverdueByTicks(touched, time);
    SweepReleases(before, i, Some(Tick(time)));
  }

  lemma OverdueByTicks(touched: nat, time: nat)
    requires touched + 120001 <= time < touched + 0x1_0000_0000
    ensures (time - touched) % 0x1_0000_0000 > 120000
  {
  }

  /** What a sweep ends, it closes. */
  lemma SweepReleases(t: Table, i: nat, now: Option<U32>)
    requires Conserved(t) && i < |t.sessions| && t.sessions[i].active && !Swept(t.sessions, now)[i].active
    ensures var (s, after, closes) := (t.sessions[i], Next(t, Sweep(now)), Closes(t, Sweep(now)));
      && i < |after.sessions| && !after.sessions[i].active && s.tcp !in after.live && s.udp !in after.live
      && s.tcp in closes && s.udp in closes && NoDuplicates(closes)
  {
    EndedIsClosed(t.sessions, i, now);
    SweepConserves(t.sessions, now);
    hide Conserved, Swept, SweepCloses;
  }

  lemma {:induction false} EndedIsClosed(ss: Sessions, i: nat, now: Option<U32>)
    requires Exclusive(ss) && i < |ss| && ss[i].active && !Swept(ss, now)[i].active
    ensures ss[i].tcp in SweepCloses(ss, now) && ss[i].udp in SweepCloses(ss, now)
  {
    var init := ss[..|ss| - 1];
    if i < |init| {
      assert init[i] == ss[i];
      ExclusivePrefix(ss);
      EndedIsClosed(init, i, now);
    } else {
      assert ss[i].tcp != INVALID && ss[i].udp != INVALID;
    }
  }

  /** Once its age has wrapped, an idle session outlives sweeps again. */
  lemma AncientSessionStays(ss: Sessions, i: nat, touched: nat, time: nat)
    requires i < |ss| && ss[i].active && ss[i].lastActivity == touched % 0x1_0000_0000
    requires touched + 0x1_0000_0000 <= time <= touched + 0x1_0000_0000 + 120000
    ensures Swept(ss, Some(Tick(time)))[i] == ss[i]
  {
    SweepEnds(ss, i, touched, time);
    assert (time - touched) % 0x1_0000_0000 == time - touched - 0x1_0000_0000;
  }
}
