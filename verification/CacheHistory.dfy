/** Where the entries of the three caches come from over whole runs: what a fast-path packet rests on, and
    how long the caches outlive a change of configuration. */
module CacheHistory {
  import opened CTypes
  import opened ProbeTables
  import opened ConnectionTracker
  import opened PacketPipeline
  import opened PacketRuns
  import RE = RuleEngine
  import RP = RulePatterns

  // ---- What one step does ----

  ghost predicate Placed(c: Memo) {
    WellPlaced(CONN_SHAPE, c.conn) && WellPlaced(DECISION_SHAPE, c.decision) && WellPlaced(PROCESS_SHAPE, c.process)
  }

  lemma ZeroedIsPlaced(ready: bool)
    ensures Placed(Zeroed(ready))
    ensures forall k {:trigger HeldPid(Zeroed(ready), k)} :: HeldPid(Zeroed(ready), k) == None
    ensures forall f {:trigger HeldVerdict(Zeroed(ready), f)} :: HeldVerdict(Zeroed(ready), f) == None
    ensures forall q {:trigger HeldName(Zeroed(ready), q)} :: HeldName(Zeroed(ready), q) == None
  {
    BlankIsEmpty(CONN_SHAPE, Zeroed(ready).conn);
    BlankIsEmpty(DECISION_SHAPE, Zeroed(ready).decision);
    BlankIsEmpty(PROCESS_SHAPE, Zeroed(ready).process);
    hide Zeroed, WellPlaced, At;
  }

  lemma PidStepTable(host: Host, c: Memo, k: SocketKey, now: U32)
    ensures var (got, r) := (AfterGet(CONN_SHAPE, c.conn, k, now), PidStep(host, c, k, now));
      || r.1.conn == c.conn || r.1.conn == got
      || (r.1.conn == AfterSet(CONN_SHAPE, got, k, host.pidOf(k), now)
         && r.0 == host.pidOf(k) && r.2 == [Queried(k, r.0)])
  {
    hide AfterGet, AfterSet, Lookup, CONN_SHAPE;
  }

  /** What one lookup of a process id writes to its table: only what it read from the system at this tick. */
  lemma PidStepWrites(host: Host, c: Memo, k: SocketKey, now: U32, o: SocketKey)
    requires WellPlaced(CONN_SHAPE, c.conn)
    ensures var r := PidStep(host, c, k, now);
      var (before, after) := (HeldPid(c, o), HeldPid(r.1, o));
      && WellPlaced(CONN_SHAPE, r.1.conn)
      && (after == None || after == before || (o == k && after == Some((r.0, now)) && r.2 == [Queried(k, r.0)]))
  {
    GetThenSet(CONN_SHAPE, c.conn, k, host.pidOf(k), now, o);
    PidStepTable(host, c, k, now);
    hide PidStep, AfterGet, AfterSet, At, WellPlaced, CONN_SHAPE;
  }

  lemma NameStepTable(host: Host, c: Memo, pid: U32, now: U32)
    ensures var (got, t) := (AfterGet(PROCESS_SHAPE, c.process, pid, now), NameStep(host, c, pid, now).1.process);
      t == c.process || t == got || t == AfterSet(PROCESS_SHAPE, got, pid, NameOf(host, pid), now)
  {
    hide AfterGet, AfterSet, Lookup, NameOf, PROCESS_SHAPE;
  }

  lemma NameStepWrites(host: Host, c: Memo, pid: U32, now: U32, o: U32)
    requires WellPlaced(PROCESS_SHAPE, c.process)
    ensures var (before, after) := (HeldName(c, o), HeldName(NameStep(host, c, pid, now).1, o));
      && WellPlaced(PROCESS_SHAPE, NameStep(host, c, pid, now).1.process)
      && (after == None || after == before || after == Some((NameOf(host, o), now)))
  {
    GetThenSet(PROCESS_SHAPE, c.process, pid, NameOf(host, pid), now, o);
    NameStepTable(host, c, pid, now);
    hide NameStep, AfterGet, AfterSet, At, WellPlaced, NameOf, PROCESS_SHAPE;
  }

  /** At this tick the system knows the owner of socket `k`, or the table holds a live answer. */
  predicate OwnerKnown(host: Host, c: Memo, k: SocketKey, now: U32) {
    || host.pidOf(k) != 0
    || (c.ready && Lookup(CONN_SHAPE, c.conn, k, now).Some? && Lookup(CONN_SHAPE, c.conn, k, now).value != 0)
  }

  lemma PidStepTells(host: Host, c: Memo, k: SocketKey, now: U32)
    ensures var r := PidStep(host, c, k, now);
      && (r.0 != 0 <==> OwnerKnown(host, c, k, now))
      && (r.2 == [Queried(k, r.0)] || (r.2 == [] && Lookup(CONN_SHAPE, c.conn, k, now) == Some(r.0)))
      && (r.2 != [] ==> r.0 == host.pidOf(k))
  {
    hide AfterGet, AfterSet, Lookup, CONN_SHAPE;
  }

  /** What the marks of a step mean: an answered query is the system's answer, and a decision is for a
      process id that the system gave in this step or that a live entry held. */
  ghost predicate MarksMean(host: Host, c: Memo, marks: seq<Mark>, now: U32) {
    && (forall k, pid :: Queried(k, pid) in marks ==> pid == host.pidOf(k))
    && (forall f, pid: U32, a :: Decided(f, pid, a) in marks ==>
          && (pid != 0 <==> OwnerKnown(host, c, f.Socket(), now))
          && (Queried(f.Socket(), pid) in marks || Lookup(CONN_SHAPE, c.conn, f.Socket(), now) == Some(pid)))
  }

  /** The marks of a slow path, and what it stores in the decision cache. */
  lemma SlowPathShape(cfg: Config, c: Memo, p: Packet, env: Env) returns (decided: seq<Mark>, action: RE.RuleAction)
    requires p.net.V4Header?
    ensures var (o, asked, flow) := (SlowPath(cfg, c, p, env),
                                PidStep(cfg.host, c, FlowOf(p).Socket(), env.now), FlowOf(p));
      && o.marks == asked.2 + decided && o.memo.ready == c.ready && o.memo.conn == asked.1.conn
      && (decided == [] <==> asked.0 == cfg.host.selfPid) && (decided == [] ==> o.memo.decision == c.decision)
      && (decided != [] ==>
            && decided == [Decided(flow, asked.0, action)]
            && o.memo.decision == if c.ready then AfterSet(DECISION_SHAPE, c.decision, flow, action, env.now)
                 else c.decision)
  {
    hide PidStep, NameStep, AfterSet, Decide, Act, FlowOf, DECISION_SHAPE;
    var flow := FlowOf(p);
    var (pid, c1, asked) := PidStep(cfg.host, c, flow.Socket(), env.now);
    var (name, _) := NameStep(cfg.host, c1, pid, env.now);
    action := Decide(cfg, flow, name).0;
    decided := if pid == cfg.host.selfPid then [] else [Decided(flow, pid, action)];
    assert asked + [] == asked;
  }

  lemma SlowPathMarks(cfg: Config, c: Memo, p: Packet, env: Env)
    requires p.net.V4Header?
    ensures MarksMean(cfg.host, c, SlowPath(cfg, c, p, env).marks, env.now)
    ensures forall f :: FastForward(f) !in SlowPath(cfg, c, p, env).marks
  {
    hide PidStep, SlowPath, AfterSet, Lookup, OwnerKnown, FlowOf, CONN_SHAPE, DECISION_SHAPE;
    var k := FlowOf(p).Socket();
    PidStepTells(cfg.host, c, k, env.now);
    var decided, action := SlowPathShape(cfg, c, p, env);
    var r := PidStep(cfg.host, c, k, env.now);
    assert r.2 != [] ==> (r.2 + decided)[0] == Queried(k, r.0);
  }

  /** The marks of a whole step mean the same; a fast forward is a hit in the decision cache. */
  lemma StepMarks(cfg: Config, c: Memo, conns: map<U16, Conn>, p: Packet, env: Env)
    ensures var marks := Step(cfg, c, conns, p, env).marks;
      && MarksMean(cfg.host, c, marks, env.now)
      && forall f :: FastForward(f) in marks ==> Remembered(c, f, env.now) == Some(RE.Direct)
  {
    hide SlowPath, Remembered, Consulted, Lookup, CONN_SHAPE;
    var route := Classify(cfg.host.tcpPort, conns, p);
    if route.Inspect? { SlowPathMarks(cfg, Consulted(c, route.flow, env.now), p, env); }
  }

  /** An entry of the process id table after a step is old, or was just read from the system. */
  ghost predicate OwnerTraced(c: Memo, o: Outcome, now: U32, k: SocketKey) {
    var held := HeldPid(o.memo, k);
    held == None || held == HeldPid(c, k) || (held.value.1 == now && Queried(k, held.value.0) in o.marks)
  }

  /** An entry of the process name table after a step is old, or is the system's name of this tick. */
  ghost predicate NameTraced(host: Host, c: Memo, o: Outcome, now: U32, q: U32) {
    var held := HeldName(o.memo, q);
    held == None || held == HeldName(c, q) || held == Some((NameOf(host, q), now))
  }

  /** An entry of the decision cache after a step is old, or was just decided. */
  ghost predicate VerdictTraced(c: Memo, o: Outcome, now: U32, f: FlowKey) {
    var held := HeldVerdict(o.memo, f);
    held == None || held == HeldVerdict(c, f)
    || (held.value.1 == now && exists pid :: Decided(f, pid, held.value.0) in o.marks)
  }

  lemma SlowPathOwners(cfg: Config, c: Memo, p: Packet, env: Env, k: SocketKey)
    requires WellPlaced(CONN_SHAPE, c.conn) && p.net.V4Header?
    ensures WellPlaced(CONN_SHAPE, SlowPath(cfg, c, p, env).memo.conn)
      && OwnerTraced(c, SlowPath(cfg, c, p, env), env.now, k)
  {
    hide PidStep, NameStep, AfterSet, At, WellPlaced, Decide, Act, FlowOf, CONN_SHAPE, DECISION_SHAPE;
    PidStepWrites(cfg.host, c, FlowOf(p).Socket(), env.now, k);
  }

  lemma SlowPathNames(cfg: Config, c: Memo, p: Packet, env: Env, q: U32)
    requires WellPlaced(PROCESS_SHAPE, c.process) && p.net.V4Header?
    ensures WellPlaced(PROCESS_SHAPE, SlowPath(cfg, c, p, env).memo.process)
    ensures NameTraced(cfg.host, c, SlowPath(cfg, c, p, env), env.now, q)
  {
    hide PidStep, NameStep, AfterSet, At, WellPlaced, Decide, Act, FlowOf, NameOf, PROCESS_SHAPE, DECISION_SHAPE;
    var (pid, c1, _) := PidStep(cfg.host, c, FlowOf(p).Socket(), env.now);
    NameStepWrites(cfg.host, c1, pid, env.now, q);
  }

  lemma SlowPathVerdicts(cfg: Config, c: Memo, p: Packet, env: Env, f: FlowKey)
    requires WellPlaced(DECISION_SHAPE, c.decision) && p.net.V4Header?
    ensures WellPlaced(DECISION_SHAPE, SlowPath(cfg, c, p, env).memo.decision)
    ensures VerdictTraced(c, SlowPath(cfg, c, p, env), env.now, f)
  {
    hide PidStep, SlowPath, AfterSet, At, WellPlaced, FlowOf, DECISION_SHAPE;
    var decided, action := SlowPathShape(cfg, c, p, env);
    if decided != [] {
      SetRefines(DECISION_SHAPE, c.decision, FlowOf(p), action, env.now, f);
      assert decided[0] in SlowPath(cfg, c, p, env).marks;
    }
  }

  lemma ConsultedKeeps(c: Memo, flow: FlowKey, now: U32, f: FlowKey)
    requires WellPlaced(DECISION_SHAPE, c.decision)
    ensures WellPlaced(DECISION_SHAPE, Consulted(c, flow, now).decision)
    ensures var held := HeldVerdict(Consulted(c, flow, now), f);
      held == None || held == HeldVerdict(c, f)
  {
    hide AfterGet, At, WellPlaced, DECISION_SHAPE;
    GetRefines(DECISION_SHAPE, c.decision, flow, now, f);
  }

  /** What a step writes to the three tables, for one key each. */
  lemma StepWrites(cfg: Config, c: Memo, conns: map<U16, Conn>, p: Packet, env: Env, k: SocketKey, q: U32, f: FlowKey)
    requires Placed(c)
    ensures var o := Step(cfg, c, conns, p, env);
      Placed(o.memo) && OwnerTraced(c, o, env.now, k) && NameTraced(cfg.host, c, o, env.now, q)
        && VerdictTraced(c, o, env.now, f)
  {
    hide SlowPath, Remembered, Consulted, At, WellPlaced, NameOf, CONN_SHAPE, DECISION_SHAPE, PROCESS_SHAPE;
    var route := Classify(cfg.host.tcpPort, conns, p);
    if route.Inspect? {
      var c1 := Consulted(c, route.flow, env.now);
      ConsultedKeeps(c, route.flow, env.now, f);
      SlowPathOwners(cfg, c1, p, env, k);
      SlowPathNames(cfg, c1, p, env, q);
      SlowPathVerdicts(cfg, c1, p, env, f);
    }
  }

  // ---- The caches are used ----

  /** Once a flow is decided DIRECT and the table takes the entry, the next packet of the flow within
      60000 ticks goes through without a system lookup or a rule scan, under any configuration. */
  lemma SecondPacketIsFast(cfg: Config, c: Memo, p: Packet, env: Env, pid: U32,
                           cfg': Config, conns': map<U16, Conn>, p': Packet, env': Env)
    requires Placed(c) && c.ready && p.net.V4Header? && Accepts(DECISION_SHAPE, c.decision, FlowOf(p))
    requires Decided(FlowOf(p), pid, RE.Direct) in SlowPath(cfg, c, p, env).marks
    requires Classify(cfg'.host.tcpPort, conns', p') == Inspect(FlowOf(p)) && Fresh(env'.now, env.now, 60000)
    ensures var o := Step(cfg', SlowPath(cfg, c, p, env).memo, conns', p', env');
      o.outs == [Send(p')] && o.marks == [FastForward(FlowOf(p))]
  {
    hide SlowPath, PidStep, OwnerKnown, AfterSet, AfterGet, At, Accepts, Classify, WellPlaced, CONN_SHAPE, FlowOf;
    var flow := FlowOf(p);
    var decided, action := SlowPathShape(cfg, c, p, env);
    PidStepTells(cfg.host, c, flow.Socket(), env.now);
    SetRefines(DECISION_SHAPE, c.decision, flow, RE.Direct, env.now, flow);
    assert DECISION_SHAPE.ttl == 60000;
  }

  /** A process id read from the system is not asked for again within 30000 ticks once the table took it. */
  lemma PidIsReused(host: Host, c: Memo, k: SocketKey, now: U32, host': Host, later: U32)
    requires WellPlaced(CONN_SHAPE, c.conn) && c.ready && PidStep(host, c, k, now).2 != []
    requires Accepts(CONN_SHAPE, c.conn, k) && host.pidOf(k) != 0 && Fresh(later, now, 30000)
    ensures var again := PidStep(host', PidStep(host, c, k, now).1, k, later);
      again.0 == host.pidOf(k) && again.2 == []
  {
    var got := AfterGet(CONN_SHAPE, c.conn, k, now);
    GetRefines(CONN_SHAPE, c.conn, k, now, k);
    GetKeepsRoom(CONN_SHAPE, c.conn, k, now);
    SetRefines(CONN_SHAPE, got, k, host.pidOf(k), now, k);
    assert CONN_SHAPE.ttl == 30000;
    hide AfterGet, AfterSet, Accepts, At, WellPlaced;
  }

  // ---- Where a fast-path packet comes from ----

  lemma ReadyIsNoContent(c: Memo, k: SocketKey, q: U32, f: FlowKey)
    ensures var d := c.(ready := false);
      && (Placed(c) ==> Placed(d))
      && HeldPid(d, k) == HeldPid(c, k) && HeldName(d, q) == HeldName(c, q) && HeldVerdict(d, f) == HeldVerdict(c, f)
  {
    hide At, WellPlaced;
  }

  lemma TurnTells(w: World, e: Event, k: SocketKey, q: U32, f: FlowKey)
    requires Placed(w.memo)
    ensures Placed(Turn(w, e).memo)
    ensures e.Arrive? ==> var o, now := Turn(w, e), Tick(e.time);
      OwnerTraced(w.memo, o, now, k) && NameTraced(e.cfg.host, w.memo, o, now, q) && VerdictTraced(w.memo, o, now, f)
    ensures !e.Arrive? ==> var c := Turn(w, e).memo;
      && HeldPid(c, k) in {None, HeldPid(w.memo, k)}
      && HeldName(c, q) in {None, HeldName(w.memo, q)}
      && HeldVerdict(c, f) in {None, HeldVerdict(w.memo, f)}
  {
    hide Step, HeldPid, HeldName, HeldVerdict, Placed, Zeroed, OwnerTraced, NameTraced, VerdictTraced;
    match e
    case Arrive(cfg, p, _, _, _) => StepWrites(cfg, w.memo, w.conns, p, e.At(), k, q, f);
    case InitCaches => ZeroedIsPlaced(true);
    case CleanupCaches => ReadyIsNoContent(w.memo, k, q, f);
    case _ =>
  }

  /** The system answered `pid` for socket `k` at event `h`. */
  predicate QueriedAt(w: World, es: seq<Event>, h: nat, k: SocketKey, pid: U32) {
    h < |es| && es[h].Arrive? && Queried(k, pid) in MarksAt(w, es, h)
  }

  /** The slow path decided `action` for `f` at event `i`, for a process `pid`. */
  predicate DecidedAt(w: World, es: seq<Event>, i: nat, f: FlowKey, pid: U32, action: RE.RuleAction) {
    i < |es| && es[i].Arrive? && Decided(f, pid, action) in MarksAt(w, es, i)
  }

  /** The process id `held` was read from the system at event `h`, at the tick it is stamped with. */
  predicate ReadAt(w: World, es: seq<Event>, h: nat, k: SocketKey, held: (U32, U32)) {
    QueriedAt(w, es, h, k, held.0) && Tick(es[h].time) == held.1
  }

  /** The process name `held` is the system's answer at event `h`. */
  predicate NamedAt(es: seq<Event>, h: nat, q: U32, held: (ProcName, U32)) {
    h < |es| && es[h].Arrive? && held == (NameOf(es[h].cfg.host, q), Tick(es[h].time))
  }

  /** The process id used at event `i` was read from the system at event `h`, less than 30000 ticks before. */
  predicate Backed(w: World, es: seq<Event>, i: nat, h: nat, k: SocketKey, pid: U32) {
    h <= i < |es| && es[i].Arrive? && QueriedAt(w, es, h, k, pid) && Fresh(Tick(es[i].time), Tick(es[h].time), 30000)
  }

  /** Event `i` decided `f` with the verdict `held`, on a process id read at event `h`. */
  predicate JudgedAt(w: World, es: seq<Event>, i: nat, h: nat, f: FlowKey, pid: U32, held: (RE.RuleAction, U32)) {
    DecidedAt(w, es, i, f, pid, held.0) && Tick(es[i].time) == held.1 && Backed(w, es, i, h, f.Socket(), pid)
  }

  /** The entry for one key before event `n` comes from an earlier event. */
  ghost predicate PidSourced(w: World, es: seq<Event>, n: nat, k: SocketKey)
    requires n <= |es|
  {
    var held := HeldPid(WorldAt(w, es, n).memo, k);
    held.Some? ==> exists h :: 0 <= h < n && ReadAt(w, es, h, k, held.value)
  }

  ghost predicate NameSourced(w: World, es: seq<Event>, n: nat, q: U32)
    requires n <= |es|
  {
    var held := HeldName(WorldAt(w, es, n).memo, q);
    held.Some? ==> exists h :: 0 <= h < n && NamedAt(es, h, q, held.value)
  }

  ghost predicate VerdictSourced(w: World, es: seq<Event>, n: nat, f: FlowKey)
    requires n <= |es|
  {
    var held := HeldVerdict(WorldAt(w, es, n).memo, f);
    held.Some? ==> exists i, h, pid :: 0 <= i < n && JudgedAt(w, es, i, h, f, pid, held.value)
  }

  ghost predicate CachesSourced(w: World, es: seq<Event>, n: nat)
    requires n <= |es|
  {
    && Placed(WorldAt(w, es, n).memo)
    && (forall k :: PidSourced(w, es, n, k))
    && (forall q :: NameSourced(w, es, n, q))
    && (forall f :: VerdictSourced(w, es, n, f))
  }

  lemma PidStaysSourced(w: World, es: seq<Event>, n: nat, k: SocketKey)
    requires n < |es| && Placed(WorldAt(w, es, n).memo) && PidSourced(w, es, n, k)
    ensures PidSourced(w, es, n + 1, k)
  {
    hide Turn, HeldPid, Placed;
    TurnTells(WorldAt(w, es, n), es[n], k, 0, FlowKey(0, 0, 0, 0, false));
    var held := HeldPid(WorldAt(w, es, n + 1).memo, k);
    if held.Some? {
      if held == HeldPid(WorldAt(w, es, n).memo, k) {
        var h :| 0 <= h < n && ReadAt(w, es, h, k, held.value);
      } else {
        assert ReadAt(w, es, n, k, held.value);
      }
    }
  }

  lemma NameStaysSourced(w: World, es: seq<Event>, n: nat, q: U32)
    requires n < |es| && Placed(WorldAt(w, es, n).memo) && NameSourced(w, es, n, q)
    ensures NameSourced(w, es, n + 1, q)
  {
    hide Turn, HeldName, Placed, NameOf;
    TurnTells(WorldAt(w, es, n), es[n], SocketKey(0, 0, 0), q, FlowKey(0, 0, 0, 0, false));
    var held := HeldName(WorldAt(w, es, n + 1).memo, q);
    if held.Some? {
      if held == HeldName(WorldAt(w, es, n).memo, q) {
        var h :| 0 <= h < n && NamedAt(es, h, q, held.value);
      } else {
        assert NamedAt(es, n, q, held.value);
      }
    }
  }

  /** Every decision was made on a process id read from the system less than 30000 ticks before. */
  lemma DecisionIsBacked(w: World, es: seq<Event>, n: nat, f: FlowKey, pid: U32, action: RE.RuleAction) returns (h: nat)
    requires n < |es| && PidSourced(w, es, n, f.Socket()) && DecidedAt(w, es, n, f, pid, action)
    ensures Backed(w, es, n, h, f.Socket(), pid)
  {
    var e, before := es[n], WorldAt(w, es, n);
    StepMarks(e.cfg, before.memo, before.conns, e.packet, e.At());
    hide Step, At, WorldAt, OwnerKnown;
    if QueriedAt(w, es, n, f.Socket(), pid) {
      h := n;
    } else {
      assert CONN_SHAPE.ttl == 30000;
      var held := HeldPid(before.memo, f.Socket());
      assert held.Some?;
      h :| 0 <= h < n && ReadAt(w, es, h, f.Socket(), held.value);
    }
  }

  lemma VerdictStaysSourced(w: World, es: seq<Event>, n: nat, f: FlowKey)
    requires n < |es| && Placed(WorldAt(w, es, n).memo)
    requires PidSourced(w, es, n, f.Socket()) && VerdictSourced(w, es, n, f)
    ensures VerdictSourced(w, es, n + 1, f)
  {
    hide Turn, HeldVerdict, Placed, PidSourced, Backed;
    TurnTells(WorldAt(w, es, n), es[n], SocketKey(0, 0, 0), 0, f);
    var held := HeldVerdict(WorldAt(w, es, n + 1).memo, f);
    if held.Some? {
      if held == HeldVerdict(WorldAt(w, es, n).memo, f) {
        var i, h, pid :| 0 <= i < n && JudgedAt(w, es, i, h, f, pid, held.value);
      } else {
        var pid :| Decided(f, pid, held.value.0) in MarksAt(w, es, n);
        var h := DecisionIsBacked(w, es, n, f, pid, held.value.0);
        assert JudgedAt(w, es, n, h, f, pid, held.value);
      }
    }
  }

  /** A world whose caches are empty. */
  predicate StartsEmpty(w: World) {
    exists ready :: w.memo == Zeroed(ready)
  }

  lemma NextIsPlaced(w: World, es: seq<Event>, n: nat)
    requires n < |es| && Placed(WorldAt(w, es, n).memo)
    ensures Placed(WorldAt(w, es, n + 1).memo)
  {
    hide Turn, Placed;
    TurnTells(WorldAt(w, es, n), es[n], SocketKey(0, 0, 0), 0, FlowKey(0, 0, 0, 0, false));
  }

  lemma EmptyIsSourced(w: World, es: seq<Event>)
    requires StartsEmpty(w)
    ensures CachesSourced(w, es, 0)
  {
    ZeroedIsPlaced(w.memo.ready);
    hide HeldPid, HeldName, HeldVerdict, Placed, Zeroed;
  }

  lemma NextIsSourced(w: World, es: seq<Event>, n: nat)
    requires n < |es| && CachesSourced(w, es, n)
    ensures CachesSourced(w, es, n + 1)
  {
    hide WorldAt, Placed, PidSourced, NameSourced, VerdictSourced;
    var m := n + 1;
    forall k ensures PidSourced(w, es, m, k) { PidStaysSourced(w, es, n, k); }
    forall q ensures NameSourced(w, es, m, q) { NameStaysSourced(w, es, n, q); }
    forall f ensures VerdictSourced(w, es, m, f) { VerdictStaysSourced(w, es, n, f); }
    NextIsPlaced(w, es, n);
  }

  /** Over every run from empty caches, each entry of each table comes from an earlier event. */
  lemma {:induction false} CachesStaySourced(w: World, es: seq<Event>, n: nat)
    requires StartsEmpty(w) && n <= |es|
    ensures CachesSourced(w, es, n)
  {
    hide CachesSourced, StartsEmpty;
    if n == 0 {
      EmptyIsSourced(w, es);
    } else {
      CachesStaySourced(w, es, n - 1);
      NextIsSourced(w, es, n - 1);
    }
  }

  predicate Monotone(es: seq<Event>) {
    forall i, j :: 0 <= i < j < |es| && es[i].Arrive? && es[j].Arrive? ==> es[i].time <= es[j].time
  }

  /** A verdict of the decision cache that answers at event `j` was decided at an earlier event `i`, on
      a process id read at event `h`. */
  lemma HitWasJudged(w: World, es: seq<Event>, j: nat, f: FlowKey) returns (i: nat, h: nat, pid: U32, stamp: U32)
    requires StartsEmpty(w) && j < |es| && es[j].Arrive?
    requires Remembered(WorldAt(w, es, j).memo, f, Tick(es[j].time)) == Some(RE.Direct)
    ensures h <= i < j && JudgedAt(w, es, i, h, f, pid, (RE.Direct, stamp))
      && Fresh(Tick(es[j].time), Tick(es[i].time), 60000)
  {
    CachesStaySourced(w, es, j);
    var held := HeldVerdict(WorldAt(w, es, j).memo, f);
    assert VerdictSourced(w, es, j, f);
    assert DECISION_SHAPE.ttl == 60000;
    hide At, WorldAt, CachesSourced, MarksAt, DECISION_SHAPE;
    i, h, pid :| 0 <= i < j && JudgedAt(w, es, i, h, f, pid, held.value);
    stamp := held.value.1;
  }

  lemma AgesAdd(t0: nat, t1: nat, t2: nat)
    requires t0 <= t1 <= t2 && Fresh(Tick(t2), Tick(t1), 60000) && Fresh(Tick(t1), Tick(t0), 30000)
    ensures (t2 - t1) % TWO_32 < 60000 && (t1 - t0) % TWO_32 < 30000
    ensures t2 - t0 < TWO_32 ==> t2 - t1 < 60000 && t2 - t0 < 90000
  {
    TickAgeIsTrueAge(t2, t1);
    TickAgeIsTrueAge(t1, t0);
  }

  /** Across every run, rule edits and cache restarts included, a packet forwarded on the fast path
      was decided DIRECT by the slow path for the same flow, with an age of less than 60000 modulo
      2^32, for a process id read from the system less than 30000 modulo 2^32 before that. The id is
      nonzero exactly when, as the deciding packet arrived, the system knew the owner of its socket or
      the table of process ids held a live answer. */
  lemma FastPathWasDecidedDirect(w: World, es: seq<Event>, j: nat, f: FlowKey) returns (i: nat, h: nat, pid: U32)
    requires StartsEmpty(w) && Monotone(es) && j < |es|
    requires es[j].Arrive? && FastForward(f) in MarksAt(w, es, j)
    ensures h <= i < j && es[h].Arrive? && es[i].Arrive?
    ensures DecidedAt(w, es, i, f, pid, RE.Direct) && QueriedAt(w, es, h, f.Socket(), pid)
    ensures (es[j].time - es[i].time) % TWO_32 < 60000 && (es[i].time - es[h].time) % TWO_32 < 30000
    ensures es[j].time - es[h].time < TWO_32 ==>
      es[j].time - es[i].time < 60000 && es[j].time - es[h].time < 90000
    ensures pid != 0 <==> OwnerKnown(es[i].cfg.host, WorldAt(w, es, i).memo, f.Socket(), Tick(es[i].time))
  {
    hide MarksAt, WorldAt, Remembered, OwnerKnown, Fresh, StartsEmpty;
    HitOfMark(w, es, j, f);
    var stamp;
    i, h, pid, stamp := HitWasJudged(w, es, j, f);
    OwnerOfMark(w, es, i, f, pid, RE.Direct);
    AgesAdd(es[h].time, es[i].time, es[j].time);
  }

  lemma HitOfMark(w: World, es: seq<Event>, j: nat, f: FlowKey)
    requires j < |es| && es[j].Arrive? && FastForward(f) in MarksAt(w, es, j)
    ensures Remembered(WorldAt(w, es, j).memo, f, Tick(es[j].time)) == Some(RE.Direct)
  {
    var e, at := es[j], WorldAt(w, es, j);
    StepMarks(e.cfg, at.memo, at.conns, e.packet, e.At());
    hide Step, WorldAt, Remembered, MarksMean;
  }

  lemma OwnerOfMark(w: World, es: seq<Event>, i: nat, f: FlowKey, pid: U32, action: RE.RuleAction)
    requires DecidedAt(w, es, i, f, pid, action)
    ensures pid != 0 <==> OwnerKnown(es[i].cfg.host, WorldAt(w, es, i).memo, f.Socket(), Tick(es[i].time))
  {
    var e, at := es[i], WorldAt(w, es, i);
    StepMarks(e.cfg, at.memo, at.conns, e.packet, e.At());
    hide Step, WorldAt, Remembered, OwnerKnown, Lookup;
  }

  // ---- How long a configuration outlives its change ----

  /** After event `c`, at most `changed` in time, the configuration is `cfg` and stays it; no entry is
      old enough at event `n` for its age to wrap. */
  ghost predicate Settled(cfg: Config, es: seq<Event>, c: nat, changed: nat, n: nat) {
    && Monotone(es) && n < |es| && es[n].Arrive?
    && (forall i :: 0 <= i < |es| && es[i].Arrive? ==> if i < c then es[i].time <= changed else es[i].cfg == cfg)
    && (forall i :: 0 <= i < n && es[i].Arrive? ==> es[n].time - es[i].time < TWO_32)
  }

  /** What still looks fresh at event `n`, a lifetime or more after the change, was stored after it. */
  lemma FreshIsCurrent(cfg: Config, es: seq<Event>, c: nat, changed: nat, n: nat, h: nat, ttl: nat)
    requires Settled(cfg, es, c, changed, n) && h < n && es[h].Arrive?
    requires Fresh(Tick(es[n].time), Tick(es[h].time), ttl) && es[n].time >= changed + ttl
    ensures es[h].cfg == cfg && es[n].time - ttl < es[h].time <= es[n].time
  {
    TickAgeIsTrueAge(es[n].time, es[h].time);
  }

  /** From 30000 ticks after the change on, every lookup that hits answers what the system says now. */
  lemma LookupsAreCurrent(cfg: Config, w: World, es: seq<Event>, c: nat, changed: nat, n: nat, flow: FlowKey)
    requires StartsEmpty(w) && Settled(cfg, es, c, changed, n) && es[n].time >= changed + 30000
    ensures AnswersRight(cfg, WorldAt(w, es, n).memo, flow, Tick(es[n].time))
  {
    CachesStaySourced(w, es, n);
    var memo, now, k := WorldAt(w, es, n).memo, Tick(es[n].time), flow.Socket();
    var pid := cfg.host.pidOf(k);
    assert PidSourced(w, es, n, k) && NameSourced(w, es, n, pid);
    assert CONN_SHAPE.ttl == 30000 && PROCESS_SHAPE.ttl == 5000;
    hide At, WorldAt, CachesSourced, StartsEmpty, Settled, Fresh;
    if Lookup(CONN_SHAPE, memo.conn, k, now).Some? {
      var held := HeldPid(memo, k).value;
      var h :| 0 <= h < n && ReadAt(w, es, h, k, held);
      FreshIsCurrent(cfg, es, c, changed, n, h, 30000);
      QueryIsTrue(w, es, h, k, held.0);
    }
    if Lookup(PROCESS_SHAPE, memo.process, pid, now).Some? {
      var held := HeldName(memo, pid).value;
      var h :| 0 <= h < n && NamedAt(es, h, pid, held);
      FreshIsCurrent(cfg, es, c, changed, n, h, 5000);
    }
  }

  lemma QueryIsTrue(w: World, es: seq<Event>, h: nat, k: SocketKey, pid: U32)
    requires QueriedAt(w, es, h, k, pid)
    ensures pid == es[h].cfg.host.pidOf(k)
  {
    var e, at := es[h], WorldAt(w, es, h);
    StepMarks(e.cfg, at.memo, at.conns, e.packet, e.At());
    hide Step, WorldAt, Remembered, OwnerKnown, Lookup;
  }

  lemma DecisionIsAction(w: World, es: seq<Event>, i: nat, f: FlowKey, pid: U32, action: RE.RuleAction)
    requires DecidedAt(w, es, i, f, pid, action)
    requires forall flow :: AnswersRight(es[i].cfg, WorldAt(w, es, i).memo, flow, Tick(es[i].time))
    ensures action == ActionOf(es[i].cfg, f)
  {
    var e, at := es[i], WorldAt(w, es, i);
    hide WorldAt, SlowPath, ActionOf, Consulted, Remembered, Lookup;
    var route := Classify(e.cfg.host.tcpPort, at.conns, e.packet);
    if route.Inspect? {
      assert AnswersRight(e.cfg, at.memo, route.flow, Tick(e.time));
      SlowPathFollows(e.cfg, Consulted(at.memo, route.flow, Tick(e.time)), at.conns, e.packet, e.At());
    }
  }

  /** The caches forget an old configuration: from 89999 ticks after its last change on, every packet of
      every run is handled as without caches, under the new configuration. */
  lemma ConfigurationTakesEffect(cfg: Config, w: World, es: seq<Event>, c: nat, changed: nat, n: nat)
    requires StartsEmpty(w) && Settled(cfg, es, c, changed, n) && es[n].time >= changed + 89999
    ensures OutsAt(w, es, n) == Uncached(cfg, WorldAt(w, es, n).conns, es[n].packet, es[n].relayPort)
  {
    var e, at := es[n], WorldAt(w, es, n);
    hide WorldAt, AnswersRight, Remembered, Uncached, ActionOf, StartsEmpty;
    var route := Classify(cfg.host.tcpPort, at.conns, e.packet);
    if route.Inspect? {
      LookupsAreCurrent(cfg, w, es, c, changed, n, route.flow);
      if Remembered(at.memo, route.flow, Tick(e.time)) == Some(RE.Direct) {
        HitIsCurrent(cfg, w, es, c, changed, n, route.flow);
      }
    }
    StepFollows(cfg, at.memo, at.conns, e.packet, e.At());
  }

  lemma HitIsCurrent(cfg: Config, w: World, es: seq<Event>, c: nat, changed: nat, n: nat, f: FlowKey)
    requires StartsEmpty(w) && Settled(cfg, es, c, changed, n) && es[n].time >= changed + 89999
    requires Remembered(WorldAt(w, es, n).memo, f, Tick(es[n].time)) == Some(RE.Direct)
    ensures ActionOf(cfg, f) == RE.Direct
  {
    hide WorldAt, MarksAt, AnswersRight, Remembered, ActionOf, StartsEmpty, Fresh;
    var i, h, pid, stamp := HitWasJudged(w, es, n, f);
    FreshIsCurrent(cfg, es, c, changed, n, i, 60000);
    assert Settled(cfg, es, c, changed, i);
    forall flow ensures AnswersRight(cfg, WorldAt(w, es, i).memo, flow, Tick(es[i].time)) {
      LookupsAreCurrent(cfg, w, es, c, changed, i, flow);
    }
    DecisionIsAction(w, es, i, f, pid, RE.Direct);
  }

  // ---- Two failures, as runs ----

  /** Empty caches answer nothing and have room for every key. */
  lemma EmptyCaches(flow: FlowKey, k: SocketKey, q: U32, now: U32)
    ensures var c := Zeroed(true);
      && Placed(c) && Remembered(c, flow, now) == None && Consulted(c, flow, now) == c
      && Lookup(CONN_SHAPE, c.conn, k, now) == None && Lookup(PROCESS_SHAPE, c.process, q, now) == None
      && Accepts(DECISION_SHAPE, c.decision, flow) && Accepts(CONN_SHAPE, c.conn, k)
  {
    var c := Zeroed(true);
    ZeroedIsPlaced(true);
    assert HeldVerdict(c, flow) == None && HeldPid(c, k) == None && HeldName(c, q) == None;
    assert !c.decision[DECISION_SHAPE.Probe(flow, 0)].valid && !c.conn[CONN_SHAPE.Probe(k, 0)].valid;
    hide Zeroed, Placed;
  }

  /** The first packet of all takes the slow path and gets the decision of the rules. */
  lemma FirstStep(cfg: Config, conns: map<U16, Conn>, p: Packet, env: Env)
    requires Classify(cfg.host.tcpPort, conns, p).Inspect? && cfg.host.pidOf(FlowOf(p).Socket()) != cfg.host.selfPid
    ensures var c, flow := Zeroed(true), FlowOf(p);
      && Step(cfg, c, conns, p, env) == SlowPath(cfg, c, p, env)
      && Decided(flow, cfg.host.pidOf(flow.Socket()), ActionOf(cfg, flow)) in SlowPath(cfg, c, p, env).marks
  {
    hide SlowPath, PidStep, Consulted, Remembered, Lookup, AfterSet, Zeroed;
    hide CONN_SHAPE, PROCESS_SHAPE, FlowOf, ActionOf, Classify;
    var c, flow := Zeroed(true), FlowOf(p);
    EmptyCaches(flow, flow.Socket(), cfg.host.pidOf(flow.Socket()), env.now);
    PidStepTells(cfg.host, c, flow.Socket(), env.now);
    SlowPathFollows(cfg, c, conns, p, env);
    var decided, action := SlowPathShape(cfg, c, p, env);
    assert decided[0] in SlowPath(cfg, c, p, env).marks;
  }

  /** A packet that goes to the rules, whatever the tracker holds. */
  ghost predicate AlwaysInspected(tcpPort: U16, p: Packet) {
    p.net.V4Header? && forall conns :: Classify(tcpPort, conns, p) == Inspect(FlowOf(p))
  }

  /** Two packets of a flow that the rules send DIRECT: the second one is fast. */
  lemma DirectFlowTwice(cfg: Config, w: World, p: Packet, es: seq<Event>)
    requires w.memo == Zeroed(true) && AlwaysInspected(cfg.host.tcpPort, p)
    requires cfg.host.pidOf(FlowOf(p).Socket()) != cfg.host.selfPid && ActionOf(cfg, FlowOf(p)) == RE.Direct
    requires es == [Arrive(cfg, p, 0, 0, true), Arrive(cfg, p, 1, 0, true)]
    ensures DecidedAt(w, es, 0, FlowOf(p), cfg.host.pidOf(FlowOf(p).Socket()), RE.Direct)
    ensures FastForward(FlowOf(p)) in MarksAt(w, es, 1)
  {
    var pid := cfg.host.pidOf(FlowOf(p).Socket());
    assert WorldAt(w, es, 0) == w;
    assert Classify(cfg.host.tcpPort, w.conns, p).Inspect?;
    FirstStep(cfg, w.conns, p, es[0].At());
    EmptyCaches(FlowOf(p), FlowOf(p).Socket(), pid, 0);
    var conns := WorldAt(w, es, 1).conns;
    assert Classify(cfg.host.tcpPort, conns, p) == Inspect(FlowOf(p));
    hide Step, SlowPath, Classify, Placed, Accepts, Zeroed, FlowOf, ActionOf, NextConns;
    SecondPacketIsFast(cfg, w.memo, p, es[0].At(), pid, cfg, conns, p, es[1].At());
  }

  const CLIENT := Packet(true, V4Header(0x0200A8C0, 0x08080808), Tcp(50000, 443), [])

  /** A machine on which one process owns every socket; only process 8 has a name. */
  function Machine(owner: U32): Host {
    Host(NO_PROXY, true, 1, 34020, false, k => owner, q => if q == 8 then "b" else "")
  }

  lemma ClientIsInspected()
    ensures AlwaysInspected(34020, CLIENT)
  {
  }

  lemma NoRulesIsDirect(host: Host, flow: FlowKey)
    ensures ActionOf(Config([], host), flow) == RE.Direct
  {
  }

  /** A DIRECT decision is cached even when the system knows no owner for the socket, so "for a
      nonzero process id" fails: here the second packet takes the fast path on process id 0. */
  lemma FastPathOnUnknownOwner()
    ensures var cfg := Config([], Machine(0));
      var es := [Arrive(cfg, CLIENT, 0, 0, true), Arrive(cfg, CLIENT, 1, 0, true)];
      var w := World(Zeroed(true), map[]);
      && StartsEmpty(w) && Monotone(es)
      && DecidedAt(w, es, 0, FlowOf(CLIENT), 0, RE.Direct) && FastForward(FlowOf(CLIENT)) in MarksAt(w, es, 1)
  {
    ClientIsInspected();
    hide FlowOf, DecidedAt, MarksAt, AlwaysInspected, Zeroed, CLIENT, ActionOf;
    var cfg := Config([], Machine(0));
    NoRulesIsDirect(Machine(0), FlowOf(CLIENT));
    DirectFlowTwice(cfg, World(Zeroed(true), map[]), CLIENT,
                    [Arrive(cfg, CLIENT, 0, 0, true), Arrive(cfg, CLIENT, 1, 0, true)]);
  }

  /** The same configuration on a machine where `owner` owns every socket. */
  function Owned(cfg: Config, owner: U32): Config {
    cfg.(host := cfg.host.(pidOf := k => owner))
  }

  /** While the table of process ids answers, the slow path does not depend on the system's owners. */
  lemma HitHidesOwner(cfg: Config, c: Memo, p: Packet, env: Env, owner: U32)
    requires c.ready && p.net.V4Header? && owner != 0
    requires Lookup(CONN_SHAPE, c.conn, FlowOf(p).Socket(), env.now) == Some(owner)
    ensures SlowPath(cfg, c, p, env) == SlowPath(Owned(cfg, owner), c, p, env)
  {
    hide AfterGet, AfterSet, Lookup, FlowOf, Effective, RE.Verdict, ExtractFilename, CONN_SHAPE, DECISION_SHAPE,
      PROCESS_SHAPE;
  }

  /** What the first packet leaves behind for its own flow. */
  lemma FirstStepStores(cfg: Config, conns: map<U16, Conn>, p: Packet, env: Env)
    requires Classify(cfg.host.tcpPort, conns, p).Inspect?
      && cfg.host.pidOf(FlowOf(p).Socket()) !in {0, cfg.host.selfPid}
    ensures var (c, flow, o) := (Zeroed(true), FlowOf(p), Step(cfg, Zeroed(true), conns, p, env));
      && o.memo.ready && Placed(o.memo) && HeldVerdict(o.memo, flow) == Some((ActionOf(cfg, flow), env.now))
      && HeldPid(o.memo, flow.Socket()) == Some((cfg.host.pidOf(flow.Socket()), env.now))
  {
    var c, flow := Zeroed(true), FlowOf(p);
    var k := flow.Socket();
    EmptyCaches(flow, k, cfg.host.pidOf(k), env.now);
    FirstStep(cfg, conns, p, env);
    StepWrites(cfg, c, conns, p, env, k, 0, flow);
    PidStepTells(cfg.host, c, k, env.now);
    SlowPathFollows(cfg, c, conns, p, env);
    FirstOwnerStored(cfg.host, k, env.now);
    var decided, action := SlowPathShape(cfg, c, p, env);
    SetRefines(DECISION_SHAPE, c.decision, flow, action, env.now, flow);
    assert decided[0] in SlowPath(cfg, c, p, env).marks;
    hide Step, SlowPath, PidStep, Lookup, AfterSet, At, Placed, WellPlaced, Zeroed;
    hide CONN_SHAPE, PROCESS_SHAPE, FlowOf, ActionOf, Classify, Accepts;
  }

  lemma FirstOwnerStored(host: Host, k: SocketKey, now: U32)
    requires host.pidOf(k) != 0
    ensures HeldPid(PidStep(host, Zeroed(true), k, now).1, k) == Some((host.pidOf(k), now))
  {
    var c := Zeroed(true);
    EmptyCaches(FlowKey(0, 0, 0, 0, false), k, 0, now);
    EmptyGetKeeps(k, now);
    SetRefines(CONN_SHAPE, c.conn, k, host.pidOf(k), now, k);
    hide AfterGet, AfterSet, At, Zeroed, WellPlaced, Accepts, Lookup, CONN_SHAPE;
  }

  lemma EmptyGetKeeps(k: SocketKey, now: U32)
    ensures AfterGet(CONN_SHAPE, Zeroed(true).conn, k, now) == Zeroed(true).conn
  {
    ZeroedIsPlaced(true);
    assert HeldPid(Zeroed(true), k) == None;
    hide Zeroed, WellPlaced;
  }

  /** A process id is reused for 29999 ticks and asked for again at 30000: by then another process may own
      the socket. */
  lemma OwnerIsKept(k: SocketKey)
    ensures var c := PidStep(Machine(7), Zeroed(true), k, 0).1;
      PidStep(Machine(8), c, k, 29999).0 == 7 && PidStep(Machine(8), c, k, 30000).0 == 8
  {
    var c := Zeroed(true);
    EmptyCaches(FlowKey(0, 0, 0, 0, false), k, 0, 0);
    PidStepTells(Machine(7), c, k, 0);
    FirstOwnerStored(Machine(7), k, 0);
    hide Zeroed, PidStep, Placed, Accepts, HeldPid, Lookup, CONN_SHAPE;
    PidIsReused(Machine(7), c, k, 0, Machine(8), 29999);
    OldOwnerIsAsked(Machine(8), PidStep(Machine(7), c, k, 0).1, k, (7, 0), 30000);
  }

  lemma OldOwnerIsAsked(host: Host, c: Memo, k: SocketKey, held: (U32, U32), now: U32)
    requires HeldPid(c, k) == Some(held) && !Fresh(now, held.1, 30000)
    ensures PidStep(host, c, k, now).0 == host.pidOf(k)
  {
    assert CONN_SHAPE.ttl == 30000;
    hide At, AfterGet, AfterSet, CONN_SHAPE;
  }

  /** The caches `c` remember `owner` for the socket of `flow`, and no other name for it than `host` gives. */
  ghost predicate Remembers(c: Memo, host: Host, flow: FlowKey, owner: U32, stamp: U32) {
    && c.ready && HeldPid(c, flow.Socket()) == Some((owner, stamp))
    && (HeldName(c, owner).Some? ==> HeldName(c, owner).value.0 == NameOf(host, owner))
  }

  /** On a remembered owner the slow path decides as if it owned every socket. */
  lemma StaleOwnerDecides(cfg: Config, c: Memo, conns: map<U16, Conn>, p: Packet, env: Env, owner: U32, stamp: U32)
    requires Classify(cfg.host.tcpPort, conns, p).Inspect? && owner !in {0, cfg.host.selfPid}
    requires Remembers(c, cfg.host, FlowOf(p), owner, stamp) && Fresh(env.now, stamp, 30000)
    ensures Decided(FlowOf(p), owner, ActionOf(Owned(cfg, owner), FlowOf(p))) in SlowPath(cfg, c, p, env).marks
  {
    var flow, lie := FlowOf(p), Owned(cfg, owner);
    assert CONN_SHAPE.ttl == 30000;
    assert Lookup(CONN_SHAPE, c.conn, flow.Socket(), env.now) == Some(owner);
    assert AnswersRight(lie, c, flow, env.now);
    HitHidesOwner(cfg, c, p, env, owner);
    PidStepTells(lie.host, c, flow.Socket(), env.now);
    SlowPathFollows(lie, c, conns, p, env);
    var decided, action := SlowPathShape(lie, c, p, env);
    assert decided[0] in SlowPath(lie, c, p, env).marks;
    hide SlowPath, PidStep, Lookup, At, AfterSet, FlowOf, ActionOf, Classify, CONN_SHAPE;
  }

  /** What the first packet leaves behind about its owner. */
  lemma FirstStepRemembers(before: Config, conns: map<U16, Conn>, p: Packet, env: Env, after: Host, owner: U32)
    requires Classify(before.host.tcpPort, conns, p).Inspect? && owner !in {0, before.host.selfPid}
    requires before.host.pidOf(FlowOf(p).Socket()) == owner && NameOf(before.host, owner) == NameOf(after, owner)
    ensures var c1 := Step(before, Zeroed(true), conns, p, env).memo;
      && Placed(c1) && Remembers(c1, after, FlowOf(p), owner, env.now)
      && HeldVerdict(c1, FlowOf(p)) == Some((ActionOf(before, FlowOf(p)), env.now))
  {
    hide Step, HeldPid, HeldVerdict, HeldName, Placed, Zeroed, FlowOf, ActionOf, Classify;
    ZeroedIsPlaced(true);
    FirstStepStores(before, conns, p, env);
    StepWrites(before, Zeroed(true), conns, p, env, FlowOf(p).Socket(), owner, FlowOf(p));
    assert HeldName(Zeroed(true), owner) == None;
  }

  /** Asking the decision cache for a fresh entry that is not DIRECT leads to the slow path and keeps the entry. */
  lemma OldVerdictIsReplaced(cfg: Config, c: Memo, conns: map<U16, Conn>, p: Packet, env: Env,
      held: (RE.RuleAction, U32))
    requires Classify(cfg.host.tcpPort, conns, p).Inspect? && c.ready && Placed(c)
    requires HeldVerdict(c, FlowOf(p)) == Some(held) && held.0 != RE.Direct && Fresh(env.now, held.1, 60000)
    ensures var c1 := Consulted(c, FlowOf(p), env.now);
      && Step(cfg, c, conns, p, env) == SlowPath(cfg, c1, p, env)
      && Placed(c1) && Accepts(DECISION_SHAPE, c1.decision, FlowOf(p))
  {
    var flow := FlowOf(p);
    assert DECISION_SHAPE.ttl == 60000;
    GetRefines(DECISION_SHAPE, c.decision, flow, env.now, flow);
    HeldHasRoom(DECISION_SHAPE, Consulted(c, flow, env.now).decision, flow);
    hide SlowPath, At, AfterGet, WellPlaced, FlowOf, Classify, Accepts;
  }

  /** A change of configuration between two packets of a flow, and what a third one meets. */
  lemma StaleOwnerLingers(before: Config, after: Config, w: World, p: Packet, owner: U32, es: seq<Event>)
    requires w.memo == Zeroed(true) && AlwaysInspected(before.host.tcpPort, p) && AlwaysInspected(after.host.tcpPort, p)
    requires before.host.pidOf(FlowOf(p).Socket()) == owner && owner !in {0, before.host.selfPid, after.host.selfPid}
    requires NameOf(before.host, owner) == NameOf(after.host, owner)
    requires ActionOf(before, FlowOf(p)) != RE.Direct && ActionOf(Owned(after, owner), FlowOf(p)) == RE.Direct
    requires es == [Arrive(before, p, 0, 0, true), Arrive(after, p, 29999, 0, true), Arrive(after, p, 89998, 0, true)]
    ensures OutsAt(w, es, 2) == [Send(p)]
  {
    var flow := FlowOf(p);
    assert WorldAt(w, es, 0) == w;
    var w1, w2 := WorldAt(w, es, 1), WorldAt(w, es, 2);
    assert Classify(before.host.tcpPort, w.conns, p).Inspect?;
    assert Classify(after.host.tcpPort, w1.conns, p).Inspect?;
    assert Classify(after.host.tcpPort, w2.conns, p) == Inspect(flow);
    FirstStepRemembers(before, w.conns, p, es[0].At(), after.host, owner);
    hide Step, SlowPath, Classify, Placed, Accepts, Zeroed, FlowOf, ActionOf, NextConns;
    hide Consulted, HeldPid, HeldVerdict, HeldName, AlwaysInspected;
    OldVerdictIsReplaced(after, w1.memo, w1.conns, p, es[1].At(), (ActionOf(before, flow), 0));
    var c := Consulted(w1.memo, flow, 29999);
    ConsultedRemembers(w1.memo, after.host, flow, owner, 0, 29999);
    StaleOwnerDecides(after, c, w1.conns, p, es[1].At(), owner, 0);
    SecondPacketIsFast(after, c, p, es[1].At(), owner, after, w2.conns, p, es[2].At());
  }

  lemma ConsultedRemembers(c: Memo, host: Host, flow: FlowKey, owner: U32, stamp: U32, now: U32)
    requires Remembers(c, host, flow, owner, stamp)
    ensures Remembers(Consulted(c, flow, now), host, flow, owner, stamp)
  {
    hide At, Consulted;
  }

  const BLOCK_ALL := RE.Rule(1, "*", "*", "*", RE.Both, RE.Block, NO_PROXY, true)
  const BLOCK_B := RE.Rule(1, "b", "*", "*", RE.Both, RE.Block, NO_PROXY, true)

  lemma LoneRule(r: RE.Rule, host: Host, flow: FlowKey)
    requires flow.dstPort != 53 && r.action == RE.Block
    ensures var q := RE.Query(NameOf(host, host.pidOf(flow.Socket())), flow.dstIp, flow.dstPort, flow.isTcp);
      ActionOf(Config([r], host), flow) == if RE.Applies(r, q) || RE.Fallback(r, q) then RE.Block else RE.Direct
  {
    hide RE.Applies, RE.Fallback;
    var q := RE.Query(NameOf(host, host.pidOf(flow.Socket())), flow.dstIp, flow.dstPort, flow.isTcp);
    var keep := if RE.Fallback(r, q) then Some(r) else None;
    assert [r][1..] == [] && RE.OnePass([], q, keep) == keep;
    assert RE.OnePass([r], q) == if RE.Applies(r, q) then Some(r) else keep;
  }

  lemma BlockedAnyway(host: Host, flow: FlowKey)
    requires flow.dstPort != 53
    ensures ActionOf(Config([BLOCK_ALL], host), flow) == RE.Block
  {
    LoneRule(BLOCK_ALL, host, flow);
    hide ActionOf, RE.Applies;
  }

  /** A rule for program `b` alone blocks process 8 and lets every other one through. */
  lemma BlockedByName(owner: U32, flow: FlowKey)
    requires flow.dstPort != 53
    ensures ActionOf(Config([BLOCK_B], Machine(owner)), flow) == if owner == 8 then RE.Block else RE.Direct
  {
    var name := NameOf(Machine(owner), owner);
    LoneRule(BLOCK_B, Machine(owner), flow);
    OnlyProgramB(name);
    assert name == if owner == 8 then "b" else "";
    hide ActionOf, RP.ProcessListMatches;
  }

  lemma OnlyProgramB(name: string)
    requires name == "" || name == "b"
    ensures RP.ProcessListMatches("b", name) <==> name == "b"
  {
    RP.PlainNameMatches("b", name);
    assert RP.Filename(name) == name;
    hide RP.ProcessListMatches, RP.Filename;
  }

  /** The bound is exact: one tick earlier a packet can still meet the old configuration. Process 7 owned
      the socket, process 8 owns it now and is blocked, and the packet goes through. */
  lemma OldConfigurationLingers()
    ensures var (before, after) := (Config([BLOCK_ALL], Machine(7)), Config([BLOCK_B], Machine(8)));
      var es := [Arrive(before, CLIENT, 0, 0, true), Arrive(after, CLIENT, 29999, 0, true),
                 Arrive(after, CLIENT, 89998, 0, true)];
      var w := World(Zeroed(true), map[]);
      && StartsEmpty(w) && Settled(after, es, 1, 0, 2)
      && OutsAt(w, es, 2) == [Send(CLIENT)] && Uncached(after, WorldAt(w, es, 2).conns, CLIENT, 0) == []
  {
    var before, after := Config([BLOCK_ALL], Machine(7)), Config([BLOCK_B], Machine(8));
    var es := [Arrive(before, CLIENT, 0, 0, true), Arrive(after, CLIENT, 29999, 0, true),
               Arrive(after, CLIENT, 89998, 0, true)];
    var w := World(Zeroed(true), map[]);
    assert Settled(after, es, 1, 0, 2);
    ClientIsInspected();
    assert FlowOf(CLIENT).dstPort == 443;
    BlockedAnyway(Machine(7), FlowOf(CLIENT));
    BlockedByName(7, FlowOf(CLIENT));
    BlockedByName(8, FlowOf(CLIENT));
    assert Owned(after, 7) == Config([BLOCK_B], Machine(7));
    BlockIsSilent(after, WorldAt(w, es, 2).conns, CLIENT);
    hide ActionOf, Zeroed, AlwaysInspected, CLIENT, FlowOf, WorldAt, OutsAt, Settled, Uncached, BLOCK_ALL, BLOCK_B;
    StaleOwnerLingers(before, after, w, CLIENT, 7, es);
  }

  lemma BlockIsSilent(cfg: Config, conns: map<U16, Conn>, p: Packet)
    requires AlwaysInspected(cfg.host.tcpPort, p) && cfg.host.pidOf(FlowOf(p).Socket()) != cfg.host.selfPid
    requires !cfg.host.hasCallback && ActionOf(cfg, FlowOf(p)) == RE.Block
    ensures Uncached(cfg, conns, p, 0) == []
  {
    assert Classify(cfg.host.tcpPort, conns, p) == Inspect(FlowOf(p));
    hide Decide, FlowOf, Classify;
  }
}
