/** How much the bounded caches hold, and for how long. */
module CacheLimits {
  import opened CTypes
  import opened Lists
  import opened ProbeTables
  import opened ConnectionTracker
  import opened PacketPipeline
  import opened PacketRuns
  import opened CacheHistory
  import RE = RuleEngine

  // ---- Counting ----

  ghost predicate Distinct<T>(s: seq<T>) {
    forall i, j :: 0 <= i < j < |s| ==> s[i] != s[j]
  }

  /** Distinct numbers below `n` are at most `n`. */
  lemma {:induction false} AtMost(s: seq<nat>, n: nat)
    requires Distinct(s) && forall i :: 0 <= i < |s| ==> s[i] < n
    ensures |s| <= n
  {
    assert s != [] ==> s[0] < n;
    if i :| 0 <= i < |s| && s[i] == n - 1 {
      AtMost(Without(s, i), n - 1);
    } else if n > 0 {
      AtMost(s, n - 1);
    }
  }

  // ---- Windows ----

  ghost predicate SameHash<K>(sh: Shape<K>, ks: seq<K>) {
    forall i, j :: 0 <= i < |ks| && 0 <= j < |ks| ==> sh.hash(ks[i]) == sh.hash(ks[j])
  }

  /** Two keys with the same hash are found at different probes. */
  lemma FindsDiffer<K, V>(sh: Shape<K>, s: seq<Slot<K, V>>, k: K, o: K)
    requires sh.Valid() && |s| == sh.size && At(sh, s, k).Some? && At(sh, s, o).Some?
    requires sh.hash(k) == sh.hash(o) && k != o
    ensures Find(sh, s, k) != Find(sh, s, o)
  {
    assert Holds(s[sh.Probe(k, Find(sh, s, k))], k) && Holds(s[sh.Probe(o, Find(sh, s, o))], o);
  }

  /** A table holds at most one window of keys with the same hash. */
  lemma WindowBounds<K, V>(sh: Shape<K>, s: seq<Slot<K, V>>, ks: seq<K>)
    requires sh.Valid() && |s| == sh.size && Distinct(ks) && SameHash(sh, ks)
    requires forall i {:trigger ks[i]} :: 0 <= i < |ks| ==> At(sh, s, ks[i]).Some?
    ensures |ks| <= sh.window
  {
    var at := seq(|ks|, i requires 0 <= i < |ks| => Find(sh, s, ks[i]));
    forall i, j | 0 <= i < j < |at| ensures at[i] != at[j] {
      FindsDiffer(sh, s, ks[i], ks[j]);
    }
    AtMost(at, sh.window);
  }

  /** The table after storing `ks` in order. */
  function Filled<K(==), V>(sh: Shape<K>, s: seq<Slot<K, V>>, ks: seq<K>, v: V, now: U32): (t: seq<Slot<K, V>>)
    requires sh.Valid() && |s| == sh.size
    ensures |t| == sh.size
  {
    if ks == [] then s else AfterSet(sh, Filled(sh, s, ks[..|ks| - 1], v, now), ks[|ks| - 1], v, now)
  }

  /** An empty table does hold one window of such keys. */
  lemma {:induction false} WindowFills<K, V>(sh: Shape<K>, s: seq<Slot<K, V>>, ks: seq<K>, v: V, now: U32)
    requires Blank(sh, s) && Distinct(ks) && SameHash(sh, ks) && |ks| <= sh.window
    ensures WellPlaced(sh, Filled(sh, s, ks, v, now))
    ensures forall k {:trigger At(sh, Filled(sh, s, ks, v, now), k)} ::
      At(sh, Filled(sh, s, ks, v, now), k) == if k in ks then Some((v, now)) else None
  {
    if ks != [] {
      var init, k := ks[..|ks| - 1], ks[|ks| - 1];
      var t := Filled(sh, s, init, v, now);
      WindowFills(sh, s, init, v, now);
      HasRoom(sh, t, init, k);
      forall o ensures At(sh, Filled(sh, s, ks, v, now), o) == if o in ks then Some((v, now)) else None {
        SetRefines(sh, t, k, v, now, o);
        assert o in ks <==> o in init || o == k;
      }
      SetRefines(sh, t, k, v, now, k);
    }
  }

  /** A window that holds fewer keys than it has slots takes one more. */
  lemma HasRoom<K, V>(sh: Shape<K>, s: seq<Slot<K, V>>, ks: seq<K>, k: K)
    requires WellPlaced(sh, s) && |ks| < sh.window
    requires forall o {:trigger At(sh, s, o)} :: At(sh, s, o).Some? ==> o in ks
    ensures Accepts(sh, s, k)
  {
    if !Accepts(sh, s, k) {
      var held := seq(sh.window, i requires 0 <= i < sh.window => s[sh.Probe(k, i)].key);
      forall i | 0 <= i < sh.window ensures held[i] in ks {
        assert s[sh.Probe(k, i)].valid;
        assert At(sh, s, held[i]).Some?;
      }
      var places := seq(sh.window, i requires 0 <= i < sh.window => IndexIn(ks, held[i]));
      forall i, j | 0 <= i < j < sh.window ensures places[i] != places[j] {
        ProbesDiffer(sh, k, i, j);
        Placement(sh, s, sh.Probe(k, i), sh.Probe(k, j));
      }
      AtMost(places, |ks|);
      assert false;
    }
  }

  function IndexIn<K(==)>(ks: seq<K>, k: K): (i: nat)
    requires k in ks
    ensures i < |ks| && ks[i] == k
  {
    if ks[0] == k then 0 else IndexIn(ks[1..], k) + 1
  }

  lemma ProbesDiffer<K>(sh: Shape<K>, k: K, i: nat, j: nat)
    requires sh.Valid() && i < j < sh.window
    ensures sh.Probe(k, i) != sh.Probe(k, j)
  {
    var h, n := sh.hash(k), sh.size;
    var q := (h + j) / n - (h + i) / n;
    assert j - i == q * n + ((h + j) % n - (h + i) % n);
    assert q >= 1 ==> q * n >= n;
    assert q <= 0 ==> q * n <= 0;
  }

  // ---- Process ids ----

  /** The hash of a socket shifts its port out of the low nine bits, so it does not depend on the port. */
  lemma PortsCollide(ip: U32, proto: U8, p: U16, q: U16)
    ensures CONN_SHAPE.hash(SocketKey(ip, p, proto)) == CONN_SHAPE.hash(SocketKey(ip, q, proto))
  {
    HashBits(ip as bv32, p as bv32, q as bv32, proto as bv32);
  }

  lemma HashBits(ip: bv32, p: bv32, q: bv32, proto: bv32)
    ensures (ip ^ (p << 16) ^ proto) % 512 == (ip ^ (q << 16) ^ proto) % 512
  {
  }

  function Sockets(ip: U32, proto: U8, ports: seq<U16>): (ks: seq<SocketKey>)
    ensures |ks| == |ports|
  {
    seq(|ports|, i requires 0 <= i < |ports| => SocketKey(ip, ports[i], proto))
  }

  lemma SocketsCollide(ip: U32, proto: U8, ports: seq<U16>)
    requires Distinct(ports)
    ensures SameHash(CONN_SHAPE, Sockets(ip, proto, ports)) && Distinct(Sockets(ip, proto, ports))
  {
    forall i, j | 0 <= i < |ports| && 0 <= j < |ports|
      ensures CONN_SHAPE.hash(Sockets(ip, proto, ports)[i]) == CONN_SHAPE.hash(Sockets(ip, proto, ports)[j])
    {
      PortsCollide(ip, proto, ports[i], ports[j]);
    }
  }

  /** So at no point of any run are the process ids of more than eight sockets of one address and protocol
      remembered, whatever their ports. */
  lemma EightSocketsPerAddress(w: World, es: seq<Event>, n: nat, ip: U32, proto: U8, ports: seq<U16>)
    requires StartsEmpty(w) && n <= |es| && Distinct(ports)
    requires forall i :: 0 <= i < |ports| ==> HeldPid(WorldAt(w, es, n).memo, SocketKey(ip, ports[i], proto)).Some?
    ensures |ports| <= 8
  {
    SocketsCollide(ip, proto, ports);
    var s, ks := WorldAt(w, es, n).memo.conn, Sockets(ip, proto, ports);
    forall i | 0 <= i < |ks| ensures At(CONN_SHAPE, s, ks[i]).Some? {
      assert HeldPid(WorldAt(w, es, n).memo, SocketKey(ip, ports[i], proto)).Some?;
    }
    hide At, SameHash, Distinct, WorldAt;
    WindowBounds(CONN_SHAPE, s, ks);
  }

  /** Eight can be, and a ninth is dropped. */
  lemma NinthSocketIsDropped(ip: U32, proto: U8, ports: seq<U16>, pid: U32, now: U32)
    requires Distinct(ports) && |ports| == 9
    ensures var t := Filled(CONN_SHAPE, Zeroed(true).conn, Sockets(ip, proto, ports[..8]), pid, now);
      && (forall i :: 0 <= i < 8 ==> At(CONN_SHAPE, t, SocketKey(ip, ports[i], proto)) == Some((pid, now)))
      && AfterSet(CONN_SHAPE, t, SocketKey(ip, ports[8], proto), pid, now) == t
  {
    hide Zeroed, WellPlaced, At, AfterSet, Filled, Distinct, SameHash;
    var ks, k := Sockets(ip, proto, ports[..8]), SocketKey(ip, ports[8], proto);
    var s := Zeroed(true).conn;
    SocketsCollide(ip, proto, ports);
    EightAndOne(ip, proto, ports);
    WindowFills(CONN_SHAPE, s, ks, pid, now);
    var t := Filled(CONN_SHAPE, s, ks, pid, now);
    forall i | 0 <= i < 8 ensures At(CONN_SHAPE, t, SocketKey(ip, ports[i], proto)) == Some((pid, now)) {
      assert ks[i] == SocketKey(ip, ports[i], proto) && ks[i] in ks;
    }
    NinthKeyIsDropped(t, ks, k, pid, now);
  }

  lemma EightAndOne(ip: U32, proto: U8, ports: seq<U16>)
    requires |ports| == 9 && Distinct(ports) && SameHash(CONN_SHAPE, Sockets(ip, proto, ports))
    ensures var (ks, k) := (Sockets(ip, proto, ports[..8]), SocketKey(ip, ports[8], proto));
      && Sockets(ip, proto, ports) == ks + [k] && k !in ks && Distinct(ks) && SameHash(CONN_SHAPE, ks)
  {
    hide CONN_SHAPE;
    var ks, all := Sockets(ip, proto, ports[..8]), Sockets(ip, proto, ports);
    assert forall i :: 0 <= i < 8 ==> ks[i] == all[i];
  }

  lemma NoRoomNoChange(t: seq<Slot<SocketKey, U32>>, k: SocketKey, pid: U32, now: U32)
    requires |t| == CONN_SHAPE.size
    ensures Accepts(CONN_SHAPE, t, k) || AfterSet(CONN_SHAPE, t, k, pid, now) == t
  {
  }

  lemma NinthKeyIsDropped(t: seq<Slot<SocketKey, U32>>, ks: seq<SocketKey>, k: SocketKey, pid: U32, now: U32)
    requires WellPlaced(CONN_SHAPE, t) && |ks| == 8 && Distinct(ks + [k]) && SameHash(CONN_SHAPE, ks + [k])
    requires forall i {:trigger ks[i]} :: 0 <= i < 8 ==> At(CONN_SHAPE, t, ks[i]).Some?
    requires At(CONN_SHAPE, t, k) == None
    ensures AfterSet(CONN_SHAPE, t, k, pid, now) == t
  {
    hide At, Distinct, SameHash, AfterSet;
    NoRoomNoChange(t, k, pid, now);
    if Accepts(CONN_SHAPE, t, k) {
      var u := AfterSet(CONN_SHAPE, t, k, pid, now);
      SetRefines(CONN_SHAPE, t, k, pid, now, k);
      forall i | 0 <= i < 9 ensures At(CONN_SHAPE, u, (ks + [k])[i]).Some? {
        if i < 8 { SetRefines(CONN_SHAPE, t, k, pid, now, ks[i]); }
      }
      WindowBounds(CONN_SHAPE, u, ks + [k]);
    }
  }

  // ---- Verdicts ----

  /** At no point of any run are more than eight verdicts remembered whose addresses, ports and protocol number
      have the same exclusive or in the low ten bits. */
  lemma EightVerdictsPerHash(w: World, es: seq<Event>, n: nat, flows: seq<FlowKey>)
    requires StartsEmpty(w) && n <= |es| && Distinct(flows)
    requires forall i, j :: 0 <= i < |flows| && 0 <= j < |flows| ==> Mixed(flows[i]) % 1024 == Mixed(flows[j]) % 1024
    requires forall i :: 0 <= i < |flows| ==> HeldVerdict(WorldAt(w, es, n).memo, flows[i]).Some?
    ensures |flows| <= 8
  {
    var s := WorldAt(w, es, n).memo.decision;
    forall i | 0 <= i < |flows| ensures At(DECISION_SHAPE, s, flows[i]).Some? {
      assert HeldVerdict(WorldAt(w, es, n).memo, flows[i]).Some?;
    }
    assert DECISION_SHAPE.Valid() && DECISION_SHAPE.window == 8 && |s| == DECISION_SHAPE.size;
    hide At, Distinct, WorldAt, Mixed, DECISION_SHAPE;
    forall i, j | 0 <= i < |flows| && 0 <= j < |flows|
      ensures DECISION_SHAPE.hash(flows[i]) == DECISION_SHAPE.hash(flows[j])
    {
      VerdictHash(flows[i]);
      VerdictHash(flows[j]);
    }
    WindowBounds(DECISION_SHAPE, s, flows);
  }

  function Mixed(f: FlowKey): bv32 {
    f.srcIp as bv32 ^ f.srcPort as bv32 ^ f.dstIp as bv32 ^ f.dstPort as bv32 ^ f.Proto() as bv32
  }

  lemma VerdictHash(f: FlowKey)
    ensures DECISION_SHAPE.hash(f) == (Mixed(f) % 1024) as nat < 1024
  {
    BelowModulus(Mixed(f));
  }

  lemma BelowModulus(x: bv32)
    ensures (x % 1024) as nat < 1024 && (x % 512) as nat < 512
  {
    assert x % 1024 < 1024 && x % 512 < 512;
  }

  function Keyed(k: SocketKey): bv32 {
    k.ip as bv32 ^ ((k.port as bv32) << 16) ^ k.proto as bv32
  }

  lemma OwnerHash(k: SocketKey)
    ensures CONN_SHAPE.hash(k) == (Keyed(k) % 512) as nat < 512
  {
    BelowModulus(Keyed(k));
  }

  /** The first entry of each empty table goes to the slot its hash names. */
  lemma FirstOwnerSlot(s: seq<Slot<SocketKey, U32>>, k: SocketKey, pid: U32, now: U32)
    requires Blank(CONN_SHAPE, s)
    ensures |s| == 512 && (Keyed(k) % 512) as nat < 512
    ensures AfterSet(CONN_SHAPE, s, k, pid, now) == s[(Keyed(k) % 512) as nat := Slot(k, pid, now, true)]
  {
    OwnerHash(k);
    assert CONN_SHAPE.size == 512;
    hide Keyed, CONN_SHAPE, AfterSet;
    FirstSlot(CONN_SHAPE, s, k, pid, now, (Keyed(k) % 512) as nat);
  }

  lemma FirstVerdictSlot(s: seq<Slot<FlowKey, RE.RuleAction>>, f: FlowKey, a: RE.RuleAction, now: U32)
    requires Blank(DECISION_SHAPE, s)
    ensures |s| == 1024 && (Mixed(f) % 1024) as nat < 1024
    ensures AfterSet(DECISION_SHAPE, s, f, a, now) == s[(Mixed(f) % 1024) as nat := Slot(f, a, now, true)]
  {
    VerdictHash(f);
    assert DECISION_SHAPE.size == 1024;
    hide Mixed, DECISION_SHAPE, AfterSet;
    FirstSlot(DECISION_SHAPE, s, f, a, now, (Mixed(f) % 1024) as nat);
  }

  lemma FirstNameSlot(s: seq<Slot<U32, ProcName>>, q: U32, name: ProcName, now: U32)
    requires Blank(PROCESS_SHAPE, s)
    ensures |s| == 256 && AfterSet(PROCESS_SHAPE, s, q, name, now) == s[q % 256 := Slot(q, name, now, true)]
  {
    assert PROCESS_SHAPE.hash(q) == q % 256 && PROCESS_SHAPE.size == 256;
    hide PROCESS_SHAPE, AfterSet;
    FirstSlot(PROCESS_SHAPE, s, q, name, now, q % 256);
  }

  lemma FirstSlot<K, V>(sh: Shape<K>, s: seq<Slot<K, V>>, k: K, v: V, now: U32, x: nat)
    requires Blank(sh, s) && sh.hash(k) == x < sh.size
    ensures AfterSet(sh, s, k, v, now) == s[x := Slot(k, v, now, true)]
  {
    FirstProbe(sh, k, x);
    assert Hole(sh, s, k) == 0 && Find(sh, s, k) == sh.window;
    hide Hole, Find;
  }

  lemma FirstProbe<K>(sh: Shape<K>, k: K, x: nat)
    requires sh.Valid() && sh.hash(k) == x < sh.size
    ensures sh.Probe(k, 0) == x
  {
    SmallModulus(x, sh.size);
  }

  lemma SmallModulus(x: nat, n: nat)
    requires x < n
    ensures (x + 0) % n == x
  {
  }

  // ---- Caches that are not ready, and stale verdicts ----

  /** While the caches are not ready they neither answer nor change. */
  lemma UnreadyCachesAreUntouched(cfg: Config, c: Memo, conns: map<U16, Conn>, p: Packet, env: Env)
    requires !c.ready
    ensures Step(cfg, c, conns, p, env).memo == c
    ensures Step(cfg, c, conns, p, env).outs == Uncached(cfg, conns, p, env.relayPort)
  {
    hide Decide, Act, FlowOf, AfterGet, AfterSet, Lookup;
  }

  /** A verdict found stale frees its slot, even when the packet turns out to be the engine's own. */
  lemma StaleVerdictIsFreed(cfg: Config, c: Memo, conns: map<U16, Conn>, p: Packet, env: Env)
    requires Placed(c) && c.ready && p.net.V4Header?
    requires Classify(cfg.host.tcpPort, conns, p) == Inspect(FlowOf(p))
    requires var held := HeldVerdict(c, FlowOf(p)); held.Some? && !Fresh(env.now, held.value.1, 60000)
    requires PidStep(cfg.host, c, FlowOf(p).Socket(), env.now).0 == cfg.host.selfPid
    ensures HeldVerdict(Step(cfg, c, conns, p, env).memo, FlowOf(p)) == None
  {
    var flow := FlowOf(p);
    ConsultedFrees(c, flow, env.now);
    hide Classify, FlowOf, NameStep, Decide, Act, Consulted, HeldVerdict, Lookup;
    assert Step(cfg, c, conns, p, env) == SlowPath(cfg, Consulted(c, flow, env.now), p, env);
    var decided, action := SlowPathShape(cfg, Consulted(c, flow, env.now), p, env);
  }

  lemma ConsultedFrees(c: Memo, flow: FlowKey, now: U32)
    requires Placed(c) && c.ready
    requires var held := HeldVerdict(c, flow); held.Some? && !Fresh(now, held.value.1, 60000)
    ensures Remembered(c, flow, now) == None && HeldVerdict(Consulted(c, flow, now), flow) == None
    ensures Consulted(c, flow, now).ready && Consulted(c, flow, now).conn == c.conn
  {
    GetRefines(DECISION_SHAPE, c.decision, flow, now, flow);
    assert DECISION_SHAPE.ttl == 60000;
    hide At, AfterGet, WellPlaced;
  }

  // ---- Process names ----

  /** What a name lookup answers: the system's name, or one the table has held for less than 5000 ticks. */
  lemma NameStepTells(host: Host, c: Memo, pid: U32, now: U32)
    ensures var (name, held) := (NameStep(host, c, pid, now).0, HeldName(c, pid));
      name == NameOf(host, pid) || (c.ready && held.Some? && held.value.0 == name && Fresh(now, held.value.1, 5000))
    ensures var held := HeldName(c, pid);
      (!c.ready || pid == 0 || held == None || !Fresh(now, held.value.1, 5000)) ==>
        NameStep(host, c, pid, now).0 == NameOf(host, pid)
    ensures var held := HeldName(c, pid);
      c.ready && pid != 0 && held.Some? && Fresh(now, held.value.1, 5000) ==>
        NameStep(host, c, pid, now).0 == held.value.0
  {
    assert PROCESS_SHAPE.ttl == 5000;
    hide At, AfterGet, AfterSet, NameOf, PROCESS_SHAPE;
  }

  /** Over every run, the name a process goes by at an event is one the system gave for it at that event or at
      an earlier one, less than 5000 ticks before. */
  lemma NameIsBacked(w: World, es: seq<Event>, n: nat, pid: U32) returns (h: nat)
    requires StartsEmpty(w) && n < |es| && es[n].Arrive?
    ensures h <= n && es[h].Arrive? && Fresh(Tick(es[n].time), Tick(es[h].time), 5000)
    ensures NameStep(es[n].cfg.host, WorldAt(w, es, n).memo, pid, Tick(es[n].time)).0 == NameOf(es[h].cfg.host, pid)
  {
    var c, now := WorldAt(w, es, n).memo, Tick(es[n].time);
    NameStepTells(es[n].cfg.host, c, pid, now);
    CachesStaySourced(w, es, n);
    assert NameSourced(w, es, n, pid);
    hide NameStep, HeldName, WorldAt, CachesSourced, NameOf;
    h := n;
    if NameStep(es[n].cfg.host, c, pid, now).0 != NameOf(es[n].cfg.host, pid) {
      h :| 0 <= h < n && NamedAt(es, h, pid, HeldName(c, pid).value);
    }
  }

  /** A name just read is used for 4999 ticks and asked for again at 5000, whatever the process is called by
      then. */
  lemma NameIsKept(host: Host, pid: U32, host': Host)
    requires pid != 0 && host.nameOf(pid) != ""
    ensures var c := NameStep(host, Zeroed(true), pid, 0).1;
      && NameStep(host', c, pid, 4999).0 == host.nameOf(pid)
      && NameStep(host', c, pid, 5000).0 == host'.nameOf(pid)
  {
    var c0 := Zeroed(true);
    var c := NameStep(host, c0, pid, 0).1;
    FirstNameStored(host, pid);
    NameStepTells(host', c, pid, 4999);
    NameStepTells(host', c, pid, 5000);
    hide HeldName, Zeroed, NameStep;
  }

  lemma FirstNameStored(host: Host, pid: U32)
    requires pid != 0 && host.nameOf(pid) != ""
    ensures var c := NameStep(host, Zeroed(true), pid, 0).1;
      c.ready && HeldName(c, pid) == Some((host.nameOf(pid), 0))
  {
    var s := Zeroed(true).process;
    ZeroedIsPlaced(true);
    assert HeldName(Zeroed(true), pid) == None;
    assert !s[PROCESS_SHAPE.Probe(pid, 0)].valid;
    assert AfterGet(PROCESS_SHAPE, s, pid, 0) == s;
    SetRefines(PROCESS_SHAPE, s, pid, host.nameOf(pid), 0, pid);
    hide AfterSet, AfterGet, At, Zeroed, WellPlaced;
  }

  // ---- Nothing unknown is kept ----

  /** The tables hold no process id 0 and no empty name, and no name for process id 0. */
  ghost predicate Known(c: Memo) {
    && (forall k {:trigger HeldPid(c, k)} :: HeldPid(c, k).Some? ==> HeldPid(c, k).value.0 != 0)
    && (forall q {:trigger HeldName(c, q)} :: HeldName(c, q).Some? ==> HeldName(c, q).value.0 != "" && q != 0)
  }

  lemma PidStepKnows(host: Host, c: Memo, k: SocketKey, now: U32)
    requires Placed(c) && Known(c)
    ensures var d := PidStep(host, c, k, now).1; Placed(d) && Known(d)
  {
    hide AfterGet, AfterSet, At, WellPlaced, Accepts;
    var (got, pid) := (AfterGet(CONN_SHAPE, c.conn, k, now), host.pidOf(k));
    var d := PidStep(host, c, k, now).1;
    forall o ensures HeldPid(d, o).Some? ==> HeldPid(d, o).value.0 != 0 {
      assert HeldPid(c, o).Some? ==> HeldPid(c, o).value.0 != 0;
      GetRefines(CONN_SHAPE, c.conn, k, now, o);
      SetRefines(CONN_SHAPE, got, k, pid, now, o);
    }
    GetRefines(CONN_SHAPE, c.conn, k, now, k);
    SetRefines(CONN_SHAPE, got, k, pid, now, k);
    forall q ensures HeldName(d, q) == HeldName(c, q) {
    }
  }

  lemma NameStepKnows(host: Host, c: Memo, pid: U32, now: U32)
    requires Placed(c) && Known(c)
    ensures var d := NameStep(host, c, pid, now).1; Placed(d) && Known(d)
  {
    hide AfterGet, AfterSet, At, WellPlaced, Accepts;
    var (got, name) := (AfterGet(PROCESS_SHAPE, c.process, pid, now), NameOf(host, pid));
    var d := NameStep(host, c, pid, now).1;
    forall o ensures HeldName(d, o).Some? ==> HeldName(d, o).value.0 != "" && o != 0 {
      assert HeldName(c, o).Some? ==> HeldName(c, o).value.0 != "" && o != 0;
      GetRefines(PROCESS_SHAPE, c.process, pid, now, o);
      SetRefines(PROCESS_SHAPE, got, pid, name, now, o);
    }
    GetRefines(PROCESS_SHAPE, c.process, pid, now, pid);
    SetRefines(PROCESS_SHAPE, got, pid, name, now, pid);
    forall k ensures HeldPid(d, k) == HeldPid(c, k) {
    }
  }

  /** The tables of owners and names depend on these parts of the caches alone. */
  lemma KnownParts(c: Memo, d: Memo)
    requires c.conn == d.conn && c.process == d.process && Known(c)
    ensures Known(d)
  {
    hide At;
    forall k ensures HeldPid(d, k) == HeldPid(c, k) {
    }
    forall q ensures HeldName(d, q) == HeldName(c, q) {
    }
  }

  lemma StepKnows(cfg: Config, c: Memo, conns: map<U16, Conn>, p: Packet, env: Env)
    requires Placed(c) && Known(c)
    ensures Known(Step(cfg, c, conns, p, env).memo)
  {
    hide Placed, Known, PidStep, NameStep, Decide, Act, FlowOf, AfterGet, AfterSet, Lookup, DECISION_SHAPE;
    var route := Classify(cfg.host.tcpPort, conns, p);
    if route.Inspect? {
      var c1, k := Consulted(c, route.flow, env.now), route.flow.Socket();
      KnownParts(c, c1);
      ConsultedIsPlaced(c, route.flow, env.now);
      PidStepKnows(cfg.host, c1, k, env.now);
      var (pid, c2, _) := PidStep(cfg.host, c1, k, env.now);
      NameStepKnows(cfg.host, c2, pid, env.now);
      var (_, c3) := NameStep(cfg.host, c2, pid, env.now);
      KnownParts(if pid == cfg.host.selfPid then c2 else c3, SlowPath(cfg, c1, p, env).memo);
    }
  }

  lemma ConsultedIsPlaced(c: Memo, flow: FlowKey, now: U32)
    requires Placed(c)
    ensures Placed(Consulted(c, flow, now))
  {
    ConsultedKeeps(c, flow, now, flow);
    hide WellPlaced;
  }

  /** Over every run from empty caches, no unknown owner and no unknown name is ever remembered. */
  lemma {:induction false} NothingUnknownIsKept(w: World, es: seq<Event>, n: nat)
    requires StartsEmpty(w) && n <= |es|
    ensures Known(WorldAt(w, es, n).memo)
  {
    hide Known, Placed, Step, Zeroed, CachesSourced;
    if n == 0 {
      EmptyIsKnown(w.memo.ready);
    } else {
      NothingUnknownIsKept(w, es, n - 1);
      var before, e := WorldAt(w, es, n - 1), es[n - 1];
      CachesStaySourced(w, es, n - 1);
      assert Placed(before.memo) by { SourcedIsPlaced(w, es, n - 1); }
      EmptyIsKnown(true);
      match e
      case Arrive(cfg, p, _, _, _) => StepKnows(cfg, before.memo, before.conns, p, e.At());
      case CleanupCaches => KnownParts(before.memo, before.memo.(ready := false));
      case _ =>
    }
  }

  lemma EmptyIsKnown(ready: bool)
    ensures Known(Zeroed(ready))
  {
    ZeroedIsPlaced(ready);
    hide Zeroed, At;
  }

  lemma SourcedIsPlaced(w: World, es: seq<Event>, n: nat)
    requires n <= |es| && CachesSourced(w, es, n)
    ensures Placed(WorldAt(w, es, n).memo)
  {
  }
}
