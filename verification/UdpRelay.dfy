/** The UDP relay's session table: 256 slots changed in place, each owning two sockets while active. */
module UdpRelay {
  import opened CTypes
  import opened ConnectionTracker

  const MAX_SESSIONS := 256
  const TIMEOUT := 120000

  /** Socket handles are natural numbers, or `INVALID`. */
  datatype Session = Session(active: bool, clientIp: U32, clientPort: U16, dest: Dest, destPort: U16,
                             tcp: int, udp: int, relayIp: U32, relayPort: U16, localPort: U16,
                             proxy: ProxyInfo, lastActivity: U32)

  const NO_SESSION := Session(false, 0, 0, V4(0), 0, 0, 0, 0, 0, 0, NO_PROXY, 0)

  type Sessions = seq<Session>

  // ---- Ownership ----

  /** The sockets owned by active sessions. */
  function Owned(ss: Sessions): set<int> {
    if ss == [] then {}
    else
      var s := ss[|ss| - 1];
      Owned(ss[..|ss| - 1]) + if s.active then {s.tcp, s.udp} else {}
  }

  predicate Owns(s: Session, h: int) { s.active && (h == s.tcp || h == s.udp) }

  /** Active sessions own two valid sockets each, share none, and serve different clients. */
  predicate Exclusive(ss: Sessions) {
    && (forall i :: 0 <= i < |ss| && ss[i].active ==> ss[i].tcp >= 0 && ss[i].udp >= 0 && ss[i].tcp != ss[i].udp)
    && (forall i, j :: 0 <= i < j < |ss| && ss[i].active && ss[j].active ==>
          && ss[i].tcp != ss[j].tcp && ss[i].tcp != ss[j].udp && ss[i].udp != ss[j].tcp && ss[i].udp != ss[j].udp
          && (ss[i].clientIp, ss[i].clientPort) != (ss[j].clientIp, ss[j].clientPort))
  }

  lemma {:induction false} OwnedIff(ss: Sessions, h: int)
    ensures h in Owned(ss) <==> exists i :: 0 <= i < |ss| && Owns(ss[i], h)
  {
    if ss != [] {
      OwnedIff(ss[..|ss| - 1], h);
      if Owns(ss[|ss| - 1], h) { assert h in Owned(ss); }
    }
  }

  // ---- Sweeping: expiry and stop ----

  /** `now.None?` sweeps every active session, otherwise only those idle for too long. */
  predicate Due(s: Session, now: Option<U32>) {
    s.active && (now.Some? ==> TickAge(now.value, s.lastActivity) > TIMEOUT)
  }

  function Swept(ss: Sessions, now: Option<U32>): (r: Sessions)
    ensures |r| == |ss|
  {
    seq(|ss|, i requires 0 <= i < |ss| => if Due(ss[i], now) then ss[i].(active := false) else ss[i])
  }

  function Handles(s: Session): seq<int> {
    (if s.tcp != INVALID then [s.tcp] else []) + (if s.udp != INVALID then [s.udp] else [])
  }

  /** The handles a sweep closes, in order. */
  function SweepCloses(ss: Sessions, now: Option<U32>): seq<int> {
    if ss == [] then []
    else
      var s := ss[|ss| - 1];
      SweepCloses(ss[..|ss| - 1], now) + if Due(s, now) then Handles(s) else []
  }

  ghost predicate NoDuplicates(hs: seq<int>) {
    forall i, j :: 0 <= i < j < |hs| ==> hs[i] != hs[j]
  }

  lemma ExclusivePrefix(ss: Sessions)
    requires Exclusive(ss) && ss != []
    ensures Exclusive(ss[..|ss| - 1])
    ensures var s := ss[|ss| - 1]; s.active ==> s.tcp >= 0 && s.udp >= 0 && s.tcp != s.udp
    ensures ss[|ss| - 1].active ==>
      ss[|ss| - 1].tcp !in Owned(ss[..|ss| - 1]) && ss[|ss| - 1].udp !in Owned(ss[..|ss| - 1])
  {
    var s := ss[|ss| - 1];
    OwnedIff(ss[..|ss| - 1], s.tcp);
    OwnedIff(ss[..|ss| - 1], s.udp);
  }

  function AsSet(hs: seq<int>): set<int> { set h | h in hs }

  lemma SweptIsExclusive(ss: Sessions, now: Option<U32>)
    requires Exclusive(ss)
    ensures Exclusive(Swept(ss, now))
  {
    hide Due;
  }

  lemma JoinDistinct(a: seq<int>, x: int, y: int)
    requires NoDuplicates(a) && x != y && x !in AsSet(a) && y !in AsSet(a)
    ensures NoDuplicates(a + [x, y])
  {
  }

  lemma SweptStep(ss: Sessions, now: Option<U32>)
    requires ss != []
    ensures var (init, s) := (ss[..|ss| - 1], ss[|ss| - 1]);
      Owned(Swept(ss, now)) == Owned(Swept(init, now)) + if s.active && !Due(s, now) then {s.tcp, s.udp} else {}
  {
    assert Swept(ss, now)[..|ss| - 1] == Swept(ss[..|ss| - 1], now);
  }

  /** A sweep closes each socket of the sessions it ends exactly once and no other socket. */
  lemma {:induction false} SweepConserves(ss: Sessions, now: Option<U32>)
    requires Exclusive(ss)
    ensures NoDuplicates(SweepCloses(ss, now))
    ensures Owned(Swept(ss, now)) !! AsSet(SweepCloses(ss, now))
    ensures Owned(Swept(ss, now)) + AsSet(SweepCloses(ss, now)) == Owned(ss)
  {
    hide Swept, Exclusive, Owned, SweepCloses, AsSet, Handles;
    if ss == [] {
      NothingSwept(now);
    } else {
      var init, s := ss[..|ss| - 1], ss[|ss| - 1];
      ExclusivePrefix(ss);
      SweepConserves(init, now);
      SweptStep(ss, now);
      ClosesStep(ss, now);
      OwnedStep(ss);
      if Due(s, now) { JoinDistinct(SweepCloses(init, now), s.tcp, s.udp); }
    }
  }

  lemma NothingSwept(now: Option<U32>)
    ensures SweepCloses([], now) == [] && Owned(Swept([], now)) == Owned([]) == {} && AsSet([]) == {}
  {
  }

  lemma OwnedStep(ss: Sessions)
    requires ss != []
    ensures var s := ss[|ss| - 1]; Owned(ss) == Owned(ss[..|ss| - 1]) + if s.active then {s.tcp, s.udp} else {}
  {
  }

  lemma ClosesStep(ss: Sessions, now: Option<U32>)
    requires ss != []
    ensures var (init, s) := (ss[..|ss| - 1], ss[|ss| - 1]);
      Due(s, now) && s.tcp >= 0 && s.udp >= 0 ==>
        SweepCloses(ss, now) == SweepCloses(init, now) + [s.tcp, s.udp]
        && AsSet(SweepCloses(ss, now)) == AsSet(SweepCloses(init, now)) + {s.tcp, s.udp}
    ensures !Due(ss[|ss| - 1], now) ==> SweepCloses(ss, now) == SweepCloses(ss[..|ss| - 1], now)
    ensures AsSet([]) == {} && SweepCloses([], now) == []
  {
  }

  // ---- Lookup and insertion ----

  predicate IsClient(s: Session, ip: U32, port: U16) {
    s.active && s.clientIp == ip && s.clientPort == port
  }

  function FindByClient(ss: Sessions, ip: U32, port: U16): (i: nat)
    ensures i <= |ss|
    ensures i < |ss| ==> IsClient(ss[i], ip, port)
    ensures forall k :: 0 <= k < i ==> !IsClient(ss[k], ip, port)
  {
    if ss == [] || IsClient(ss[0], ip, port) then 0 else FindByClient(ss[1..], ip, port) + 1
  }

  function FindFree(ss: Sessions): (i: nat)
    ensures i <= |ss|
    ensures i < |ss| ==> !ss[i].active
    ensures forall k :: 0 <= k < i ==> ss[k].active
  {
    if ss == [] || !ss[0].active then 0 else FindFree(ss[1..]) + 1
  }

  /** Filling a free slot with a new client and two new sockets adds exactly those two to the owned ones. */
  lemma FillConserves(ss: Sessions, i: nat, n: Session)
    requires Exclusive(ss) && i < |ss| && !ss[i].active
    requires n.active && n.tcp >= 0 && n.udp >= 0 && n.tcp != n.udp && n.tcp !in Owned(ss) && n.udp !in Owned(ss)
    requires FindByClient(ss, n.clientIp, n.clientPort) == |ss|
    ensures Exclusive(ss[i := n])
    ensures Owned(ss[i := n]) == Owned(ss) + {n.tcp, n.udp}
  {
    OwnedIff(ss, n.tcp);
    OwnedIff(ss, n.udp);
    assert forall k :: 0 <= k < |ss| && ss[k].active ==> !IsClient(ss[k], n.clientIp, n.clientPort);
    OwnedUpdate(ss, i, n);
  }

  lemma {:induction false} OwnedUpdate(ss: Sessions, i: nat, n: Session)
    requires i < |ss| && !ss[i].active && n.active
    ensures Owned(ss[i := n]) == Owned(ss) + {n.tcp, n.udp}
  {
    var init, last := ss[..|ss| - 1], ss[|ss| - 1];
    var t := ss[i := n];
    if i == |ss| - 1 {
      assert t[..|t| - 1] == init;
    } else {
      assert t[..|t| - 1] == init[i := n];
      OwnedUpdate(init, i, n);
    }
  }

  /** What the system and the proxy answer while a session is set up. Handles are new or `INVALID`. */
  datatype Setup = Setup(proxyIp: U32, tcp: int, connected: bool, associated: bool,
      relayIp: U32, relayPort: U16, udp: int, now: U32)

  datatype Request = Request(clientIp: U32, clientPort: U16, dest: Dest, destPort: U16, proxy: Option<ProxyInfo>,
      globalProxy: ProxyInfo)
  {
    function Effective(): ProxyInfo {
      if proxy.Some? && proxy.value.hasProxy then proxy.value else globalProxy
    }
  }

  predicate Succeeds(u: Setup) {
    u.proxyIp != 0 && u.tcp != INVALID && u.connected && u.associated && u.udp != INVALID
  }

  function NewSession(r: Request, u: Setup, localPort: U16): Session {
    Session(true, r.clientIp, r.clientPort, r.dest, r.destPort, u.tcp, u.udp, u.relayIp, u.relayPort, localPort,
            r.Effective(), u.now)
  }

  datatype Verdict = NoProxy | Existing | Full | Failed | Created(slot: nat)

  function Classify(ss: Sessions, r: Request, u: Setup): Verdict {
    if !r.Effective().hasProxy then NoProxy
    else if FindByClient(ss, r.clientIp, r.clientPort) < |ss| then Existing
    else if FindFree(ss) == |ss| then Full
    else if !Succeeds(u) then Failed
    else Created(FindFree(ss))
  }

  // ---- The table over whole runs ----

  datatype Table = Table(sessions: Sessions, live: set<int>)

  datatype Event =
    | Add(request: Request, setup: Setup, localPort: U16)
    | Touch(slot: nat, tick: U32)
    | Sweep(now: Option<U32>)

  /** Handles the system hands out are valid and not in use. */
  predicate NewHandles(u: Setup, live: set<int>) {
    && (u.tcp == INVALID || (u.tcp >= 0 && u.tcp !in live))
    && (u.udp == INVALID || (u.udp >= 0 && u.udp !in live && u.udp != u.tcp))
  }

  predicate Allowed(t: Table, e: Event) {
    e.Add? ==> NewHandles(e.setup, t.live)
  }

  /** The port a session request is answered with: the relay's own, or 0. */
  function Answer(ss: Sessions, r: Request, u: Setup, localPort: U16): U16 {
    var v := Classify(ss, r, u);
    if v.Existing? || v.Created? then localPort else 0
  }

  /** Sockets opened by an event, in a failed set-up as well. */
  function Opens(t: Table, e: Event): seq<int> {
    if !e.Add? then []
    else
      var u := e.setup;
      var v := Classify(t.sessions, e.request, u);
      if !(v.Failed? || v.Created?) || u.proxyIp == 0 || u.tcp == INVALID then []
      else if !u.connected || !u.associated || u.udp == INVALID then [u.tcp]
      else [u.tcp, u.udp]
  }

  function Closes(t: Table, e: Event): seq<int> {
    match e
    case Add(r, u, _) => if Classify(t.sessions, r, u).Failed? then Opens(t, e) else []
    case Touch(_, _) => []
    case Sweep(now) => SweepCloses(t.sessions, now)
  }

  function NextSessions(ss: Sessions, e: Event): Sessions {
    match e
    case Add(r, u, port) =>
      (match Classify(ss, r, u)
       case Created(i) => if i < |ss| then ss[i := NewSession(r, u, port)] else ss
       case _ => ss)
    case Touch(i, now) => if i < |ss| then ss[i := ss[i].(lastActivity := now)] else ss
    case Sweep(now) => Swept(ss, now)
  }

  function Next(t: Table, e: Event): Table {
    Table(NextSessions(t.sessions, e), t.live + AsSet(Opens(t, e)) - AsSet(Closes(t, e)))
  }

  /** The open session sockets are exactly those owned by active sessions. */
  predicate Conserved(t: Table) {
    Exclusive(t.sessions) && t.live == Owned(t.sessions)
  }

  /** A client that has a session keeps it: asking again opens nothing and changes nothing. */
  lemma RepeatedRequestChangesNothing(t: Table, r: Request, u: Setup, port: U16, again: Request, u': Setup, port': U16)
    requires Classify(t.sessions, r, u).Created?
    requires again.clientIp == r.clientIp && again.clientPort == r.clientPort && again.Effective().hasProxy
    ensures var t1 := Next(t, Add(r, u, port));
      Classify(t1.sessions, again, u') == Existing && Next(t1, Add(again, u', port')) == t1
  {
    var ss := t.sessions;
    var slot := FindFree(ss);
    var ss' := ss[slot := NewSession(r, u, port)];
    assert IsClient(ss'[slot], r.clientIp, r.clientPort);
    assert FindByClient(ss', r.clientIp, r.clientPort) < |ss'|;
    assert AsSet([]) == {};
  }

  lemma TouchConserves(ss: Sessions, i: nat, now: U32)
    requires Exclusive(ss) && i < |ss|
    ensures Exclusive(ss[i := ss[i].(lastActivity := now)])
    ensures Owned(ss[i := ss[i].(lastActivity := now)]) == Owned(ss)
  {
    var t := ss[i := ss[i].(lastActivity := now)];
    forall h ensures h in Owned(t) <==> h in Owned(ss) {
      OwnedIff(ss, h);
      OwnedIff(t, h);
      assert forall k :: 0 <= k < |ss| ==> (Owns(ss[k], h) <==> Owns(t[k], h));
    }
  }

  lemma AddConserves(t: Table, e: Event)
    requires Conserved(t) && Allowed(t, e) && e.Add?
    ensures Conserved(Next(t, e)) && NoDuplicates(Closes(t, e))
    ensures forall h :: h in Closes(t, e) ==> h in Opens(t, e)
  {
    if Classify(t.sessions, e.request, e.setup).Created? {
      CreateConserves(t, e);
    } else {
      RefusalConserves(t, e);
    }
  }

  lemma CreateConserves(t: Table, e: Event)
    requires Conserved(t) && Allowed(t, e) && e.Add? && Classify(t.sessions, e.request, e.setup).Created?
    ensures Conserved(Next(t, e)) && Closes(t, e) == []
  {
    var u, slot := e.setup, FindFree(t.sessions);
    var n := NewSession(e.request, u, e.localPort);
    FillConserves(t.sessions, slot, n);
    assert Opens(t, e) == [u.tcp, u.udp] && NextSessions(t.sessions, e) == t.sessions[slot := n];
    hide Exclusive, Owned, FindByClient, FindFree, NewSession, Opens, NextSessions;
    assert AsSet([]) == {} && AsSet([u.tcp, u.udp]) == {u.tcp, u.udp};
  }

  /** A refused or failed request leaves every socket as it was. */
  lemma RefusalConserves(t: Table, e: Event)
    requires Allowed(t, e) && e.Add? && !Classify(t.sessions, e.request, e.setup).Created?
    ensures Next(t, e) == t && Closes(t, e) == Opens(t, e) && NoDuplicates(Closes(t, e))
  {
    var u := e.setup;
    hide FindByClient, FindFree;
    assert Opens(t, e) == Closes(t, e);
    assert Opens(t, e) == [] || (Opens(t, e) == [u.tcp] && u.tcp !in t.live);
    assert NextSessions(t.sessions, e) == t.sessions;
    hide Opens, Closes, NextSessions, Classify;
    assert AsSet([]) == {} && AsSet([u.tcp]) == {u.tcp};
  }

  /** Every event conserves the sockets, and closes only open ones, each once. */
  lemma StepConserves(t: Table, e: Event)
    requires Conserved(t) && Allowed(t, e)
    ensures Conserved(Next(t, e)) && NoDuplicates(Closes(t, e))
    ensures forall h :: h in Closes(t, e) ==> h in t.live || h in Opens(t, e)
  {
    assert AsSet([]) == {};
    match e
    case Add(_, _, _) => AddConserves(t, e);
    case Touch(i, now) => if i < |t.sessions| { TouchConserves(t.sessions, i, now); }
    case Sweep(now) => SweepStepConserves(t, now);
  }

  lemma SweepStepConserves(t: Table, now: Option<U32>)
    requires Conserved(t)
    ensures Conserved(Next(t, Sweep(now))) && NoDuplicates(SweepCloses(t.sessions, now))
    ensures forall h :: h in SweepCloses(t.sessions, now) ==> h in t.live
  {
    SweptIsExclusive(t.sessions, now);
    SweepConserves(t.sessions, now);
    assert AsSet([]) == {};
    hide Exclusive, Owned, SweepCloses, Swept;
    assert forall h :: h in SweepCloses(t.sessions, now) ==> h in AsSet(SweepCloses(t.sessions, now));
  }

  function Run(t: Table, es: seq<Event>): Table {
    if es == [] then t else Next(Run(t, es[..|es| - 1]), es[|es| - 1])
  }

  ghost predicate AllAllowed(t: Table, es: seq<Event>) {
    forall k {:trigger es[k]} :: 0 <= k < |es| ==> Allowed(Run(t, es[..k]), es[k])
  }

  /** After any sequence of session requests (all failure branches included), activity, expiries and
      stops, the session sockets opened and not yet closed are exactly those owned by active
      sessions, none is shared, and no client has two active sessions. */
  lemma {:induction false} SocketsAreConserved(t: Table, es: seq<Event>)
    requires Conserved(t) && AllAllowed(t, es)
    ensures Conserved(Run(t, es))
  {
    if es != [] {
      var before := es[..|es| - 1];
      forall k | 0 <= k < |before| ensures Allowed(Run(t, before[..k]), before[k]) {
        assert before[..k] == es[..k] && before[k] == es[k];
      }
      SocketsAreConserved(t, before);
      StepConserves(Run(t, before), es[|es| - 1]);
    }
  }

  // ---- The relay ----

  class Relay {
    const sessions: array<Session>
    var listen: int
    var running: bool
    var threadAlive: bool
    var localPort: U16
    /** Sockets opened and not yet closed: the listening one and those of the sessions. */
    ghost var live: set<int>
    /** Every socket closed so far, in order. */
    ghost var closed: seq<int>

    ghost predicate Valid()
      reads this, sessions
    {
      && sessions.Length == MAX_SESSIONS && Conserved(Content())
      && (running <==> listen != INVALID) && Listening() <= live
    }

    ghost function Listening(): set<int>
      reads this
    {
      if listen == INVALID then {} else {listen}
    }

    /** The session table with the session sockets. */
    ghost function Content(): Table
      reads this, sessions
    {
      Table(sessions[..], live - Listening())
    }

    constructor ()
      ensures Valid() && !running && live == {} && closed == [] && fresh(sessions) && sessions.Length == 256
    {
      sessions := new Session[MAX_SESSIONS](_ => NO_SESSION);
      listen, running, threadAlive, localPort, live, closed := INVALID, false, false, 0, {}, [];
      new;
      forall h ensures h !in Owned(sessions[..]) { OwnedIff(sessions[..], h); }
    }

    /** Zero-fills the table; no session may own a socket at that point. */
    method Init()
      requires Valid() && live == {}
      modifies sessions
      ensures Valid() && forall k :: 0 <= k < sessions.Length ==> sessions[k] == NO_SESSION
    {
      for i := 0 to sessions.Length
        invariant forall k :: 0 <= k < i ==> sessions[k] == NO_SESSION
      {
        sessions[i] := NO_SESSION;
      }
      forall h ensures h !in Owned(sessions[..]) { OwnedIff(sessions[..], h); }
    }

    /** `closesocket`: only an open socket may be closed. */
    method Close(h: int)
      requires h in live
      modifies `live, `closed
      ensures live == old(live) - {h} && closed == old(closed) + [h]
    {
      live, closed := live - {h}, closed + [h];
    }

    method FindSession(ip: U32, port: U16) returns (slot: int)
      ensures var i := FindByClient(sessions[..], ip, port); slot == if i < sessions.Length then i else -1
    {
      for i := 0 to sessions.Length
        invariant i <= FindByClient(sessions[..], ip, port)
      {
        if sessions[i].active && sessions[i].clientIp == ip && sessions[i].clientPort == port { return i; }
      }
      return -1;
    }

    method FindFreeSlot() returns (slot: int)
      ensures var i := FindFree(sessions[..]); slot == if i < sessions.Length then i else -1
    {
      for i := 0 to sessions.Length
        invariant i <= FindFree(sessions[..])
      {
        if !sessions[i].active { return i; }
      }
      return -1;
    }

    /** The body shared by the IPv4 and IPv6 session requests. */
    method AddSession(r: Request, u: Setup) returns (port: U16)
      requires Valid() && NewHandles(u, live)
      modifies sessions, `live, `closed
      ensures Valid()
      ensures Content() == Next(old(Content()), Add(r, u, localPort))
      ensures closed == old(closed) + Closes(old(Content()), Add(r, u, localPort))
      ensures port == Answer(old(sessions[..]), r, u, localPort)
    {
      hide Owned, Exclusive;
      ghost var e := Event.Add(r, u, localPort);
      ghost var t := Content();
      StepConserves(t, e);
      if !r.Effective().hasProxy { return 0; }
      var existing := FindSession(r.clientIp, r.clientPort);
      if existing >= 0 { return localPort; }
      var slot := FindFreeSlot();
      if slot < 0 { return 0; }
      var ready := OpenSockets(u);
      if !ready { return 0; }
      sessions[slot] := NewSession(r, u, localPort);
      return localPort;
    }

    /** The two sockets of a session; on every failing path the first one is closed again. */
    method OpenSockets(u: Setup) returns (ready: bool)
      requires NewHandles(u, live)
      modifies `live, `closed
      ensures ready <==> Succeeds(u)
      ensures live == if ready then old(live) + {u.tcp, u.udp} else old(live)
      ensures closed == old(closed) + if ready || u.proxyIp == 0 || u.tcp == INVALID then [] else [u.tcp]
    {
      if u.proxyIp == 0 { return false; }
      if u.tcp == INVALID { return false; }
      live := live + {u.tcp};
      if !u.connected {
        Close(u.tcp);
        return false;
      }
      if !u.associated {
        Close(u.tcp);
        return false;
      }
      if u.udp == INVALID {
        Close(u.tcp);
        return false;
      }
      live := live + {u.udp};
      return true;
    }

    /** Traffic on a session renews it. */
    method Renew(slot: nat, now: U32)
      requires Valid() && slot < MAX_SESSIONS
      modifies sessions
      ensures Valid() && Content() == Next(old(Content()), Touch(slot, now))
    {
      TouchConserves(sessions[..], slot, now);
      hide Exclusive, Owned;
      sessions[slot] := sessions[slot].(lastActivity := now);
    }

    /** The first `i` slots of table `ss` have been swept, with `before` closed until then. */
    ghost predicate SweptTo(ss: Sessions, i: nat, now: Option<U32>, before: seq<int>)
      requires sessions.Length == |ss|
      reads this, sessions
    {
      && i <= |ss|
      && (forall k :: 0 <= k < i ==> sessions[k] == Swept(ss, now)[k])
      && (forall k :: i <= k < |ss| ==> sessions[k] == ss[k])
      && Listening() <= live && Ledger(ss, i, now, before, live - Listening(), closed)
    }

    /** The sweep loop of expiry and of stop. */
    method SweepSessions(now: Option<U32>)
      requires Valid()
      modifies sessions, `live, `closed
      ensures Valid() && Content() == Next(old(Content()), Sweep(now))
      ensures closed == old(closed) + SweepCloses(old(sessions[..]), now)
    {
      ghost var ss, before := sessions[..], closed;
      SweepStepConserves(Content(), now);
      LedgerStarts(ss, now, before);
      hide Exclusive, Owned, SweepCloses, AsSet, Ledger, Swept;
      for i := 0 to sessions.Length
        invariant Exclusive(ss) && SweptTo(ss, i, now, before)
      {
        SweepSlot(i, now, ss, before);
      }
      LedgerEnds(ss, now, before, live - Listening(), closed);
      assert sessions[..] == Swept(ss, now);
    }

    method SweepSlot(i: nat, now: Option<U32>, ghost ss: Sessions, ghost before: seq<int>)
      requires sessions.Length == |ss| && i < |ss| && Exclusive(ss) && SweptTo(ss, i, now, before)
      modifies sessions, `live, `closed
      ensures SweptTo(ss, i + 1, now, before)
    {
      NextLedger(ss, i, now, before, live - Listening(), closed);
      SweptIs(ss, i, now);
      hide Exclusive, Owned, SweepCloses, AsSet, Handles, Due, Ledger, Swept;
      if Due(sessions[i], now) {
        ghost var open, listening, pair := live, Listening(), {sessions[i].tcp, sessions[i].udp};
        DropPair(open, listening, pair);
        EndSession(i);
      }
    }

    /** Closes the sockets of an active session and frees its slot. */
    method EndSession(i: nat)
      requires i < sessions.Length && Handles(sessions[i]) == [sessions[i].tcp, sessions[i].udp]
      requires sessions[i].tcp != sessions[i].udp && sessions[i].tcp in live && sessions[i].udp in live
      modifies sessions, `live, `closed
      ensures sessions[i] == old(sessions[i]).(active := false)
      ensures forall k :: 0 <= k < sessions.Length && k != i ==> sessions[k] == old(sessions[k])
      ensures closed == old(closed) + Handles(old(sessions[i]))
      ensures live == old(live) - {old(sessions[i].tcp), old(sessions[i].udp)}
      ensures AsSet(Handles(old(sessions[i]))) == {old(sessions[i].tcp), old(sessions[i].udp)}
    {
      assert sessions[i].tcp != INVALID && sessions[i].udp != INVALID by {
        assert |Handles(sessions[i])| == 2;
      }
      if sessions[i].tcp != INVALID { Close(sessions[i].tcp); }
      if sessions[i].udp != INVALID { Close(sessions[i].udp); }
      sessions[i] := sessions[i].(active := false);
    }

    method Expire(now: U32)
      requires Valid()
      modifies sessions, `live, `closed
      ensures Valid() && Content() == Next(old(Content()), Sweep(Some(now)))
      ensures closed == old(closed) + SweepCloses(old(sessions[..]), Some(now))
    {
      SweepSessions(Some(now));
    }

    /** The listening socket is closed on every failing path after it was created. */
    method Start(port: U16, handle: int, bound: bool, threadOk: bool) returns (ok: bool)
      requires Valid() && handle >= INVALID && handle !in live
      modifies `listen, `running, `threadAlive, `localPort, `live, `closed
      ensures Valid() && Content() == old(Content())
      ensures old(running) ==>
        ok && running && listen == old(listen) && localPort == old(localPort) && closed == old(closed)
      ensures !old(running) ==>
        && localPort == port && ok == running == (handle != INVALID && bound && threadOk)
        && listen == (if ok then handle else INVALID) && threadAlive == (ok || old(threadAlive))
        && live == old(live) + (if ok then {handle} else {})
        && closed == old(closed) + if handle != INVALID && !ok then [handle] else []
    {
      hide Conserved;
      if running { return true; }
      localPort := port;
      listen := handle;
      if listen == INVALID { return false; }
      live := live + {handle};
      if !bound {
        Close(listen);
        listen := INVALID;
        return false;
      }
      running := true;
      if !threadOk {
        running := false;
        Close(listen);
        listen := INVALID;
        return false;
      }
      threadAlive := true;
      assert Listening() == {handle} && live - {handle} == old(live) == old(live) - old(Listening());
      return true;
    }

    /** Closes the listening socket, then every session. */
    method Stop()
      requires Valid()
      modifies this, sessions
      ensures Valid() && !running
      ensures live == if old(running) then {} else old(live)
      ensures if old(running) then Content() == Next(old(Content()), Sweep(None)) && !threadAlive
              else Content() == old(Content()) && threadAlive == old(threadAlive)
      ensures closed == old(closed) + if old(running) then [old(listen)] + SweepCloses(old(sessions[..]), None) else []
    {
      hide Exclusive, Owned, Swept, SweepCloses, AsSet;
      if !running { return; }
      running := false;
      if listen != INVALID {
        Close(listen);
        listen := INVALID;
      }
      StopReleasesEverything(sessions[..]);
      SweepSessions(None);
      threadAlive := false;
    }
  }

  lemma SweptIs(ss: Sessions, i: nat, now: Option<U32>)
    requires i < |ss|
    ensures Swept(ss, now)[i] == if Due(ss[i], now) then ss[i].(active := false) else ss[i]
  {
  }

  /** What is open and what was closed after the first `i` slots of `ss` were swept. */
  ghost predicate Ledger(ss: Sessions, i: nat, now: Option<U32>, before: seq<int>, open: set<int>, closed: seq<int>) {
    && i <= |ss| && closed == before + SweepCloses(ss[..i], now)
    && open == Owned(ss) - AsSet(SweepCloses(ss[..i], now))
  }

  lemma LedgerStarts(ss: Sessions, now: Option<U32>, before: seq<int>)
    ensures Ledger(ss, 0, now, before, Owned(ss), before)
  {
    SweepNothing(ss, now);
    hide Owned, SweepCloses, AsSet;
    assert before + [] == before;
  }

  lemma LedgerEnds(ss: Sessions, now: Option<U32>, before: seq<int>, open: set<int>, closed: seq<int>)
    requires Ledger(ss, |ss|, now, before, open, closed)
    ensures closed == before + SweepCloses(ss, now) && open == Owned(ss) - AsSet(SweepCloses(ss, now))
  {
    assert ss[..|ss|] == ss;
  }

  lemma NextLedger(ss: Sessions, i: nat, now: Option<U32>, before: seq<int>, open: set<int>, closed: seq<int>)
    requires i < |ss| && Exclusive(ss) && Ledger(ss, i, now, before, open, closed)
    ensures !Due(ss[i], now) ==> Ledger(ss, i + 1, now, before, open, closed)
    ensures Due(ss[i], now) ==>
      && Handles(ss[i]) == [ss[i].tcp, ss[i].udp] && ss[i].tcp != ss[i].udp && {ss[i].tcp, ss[i].udp} <= open
      && Ledger(ss, i + 1, now, before, open - {ss[i].tcp, ss[i].udp}, closed + Handles(ss[i]))
  {
    SweepNext(ss, now, i);
    hide Exclusive, Owned, SweepCloses, Handles, Due;
    if Due(ss[i], now) {
      assert AsSet([ss[i].tcp, ss[i].udp]) == {ss[i].tcp, ss[i].udp};
    } else {
      assert SweepCloses(ss[..i], now) + [] == SweepCloses(ss[..i], now);
    }
  }

  lemma DropPair(open: set<int>, listening: set<int>, pair: set<int>)
    ensures (open - pair) - listening == (open - listening) - pair
    ensures listening <= open && pair <= open - listening ==> listening <= open - pair
  {
  }

  lemma SweepNothing(ss: Sessions, now: Option<U32>)
    ensures SweepCloses(ss[..0], now) == [] && AsSet([]) == {}
  {
  }

  /** Closing at position `i` of a sweep: its sockets are open and not closed before. */
  lemma SweepNext(ss: Sessions, now: Option<U32>, i: nat)
    requires Exclusive(ss) && i < |ss|
    ensures SweepCloses(ss[..i + 1], now) == SweepCloses(ss[..i], now) + if Due(ss[i], now) then Handles(ss[i]) else []
    ensures Due(ss[i], now) ==> Handles(ss[i]) == [ss[i].tcp, ss[i].udp] && ss[i].tcp != ss[i].udp
    ensures Due(ss[i], now) ==> ss[i].tcp in Owned(ss) - AsSet(SweepCloses(ss[..i], now))
    ensures Due(ss[i], now) ==> ss[i].udp in Owned(ss) - AsSet(SweepCloses(ss[..i], now))
    ensures AsSet(SweepCloses(ss[..i + 1], now)) == AsSet(SweepCloses(ss[..i], now))
      + if Due(ss[i], now) then AsSet(Handles(ss[i])) else {}
  {
    hide Exclusive, Due;
    assert ss[..i + 1][..i] == ss[..i];
    assert Due(ss[i], now) ==> ss[i].active by { DueIsActive(ss[i], now); }
    if Due(ss[i], now) {
      ExclusiveAt(ss, i);
      OwnedIff(ss, ss[i].tcp);
      OwnedIff(ss, ss[i].udp);
      SweepClosesOwned(ss[..i], now, ss[i].tcp);
      SweepClosesOwned(ss[..i], now, ss[i].udp);
    }
  }

  lemma DueIsActive(s: Session, now: Option<U32>)
    ensures Due(s, now) ==> s.active
  {
  }

  lemma ExclusiveAt(ss: Sessions, i: nat)
    requires Exclusive(ss) && i < |ss| && ss[i].active
    ensures ss[i].tcp >= 0 && ss[i].udp >= 0 && ss[i].tcp != ss[i].udp
    ensures forall k :: 0 <= k < i ==> !Owns(ss[k], ss[i].tcp) && !Owns(ss[k], ss[i].udp)
  {
  }

  lemma {:induction false} SweepClosesOwned(ss: Sessions, now: Option<U32>, h: int)
    ensures h in SweepCloses(ss, now) ==> exists i :: 0 <= i < |ss| && Owns(ss[i], h)
  {
    if ss != [] {
      SweepClosesOwned(ss[..|ss| - 1], now, h);
      if h in SweepCloses(ss, now) && h !in SweepCloses(ss[..|ss| - 1], now) {
        assert Owns(ss[|ss| - 1], h);
      }
    }
  }

  /** After a stop no session is active and no session socket is open. */
  lemma {:induction false} StopReleasesEverything(ss: Sessions)
    ensures Owned(Swept(ss, None)) == {}
  {
    if ss != [] {
      StopReleasesEverything(ss[..|ss| - 1]);
      assert Swept(ss, None)[..|ss| - 1] == Swept(ss[..|ss| - 1], None);
    }
  }
}
