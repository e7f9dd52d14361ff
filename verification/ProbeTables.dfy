/** The open-addressed caches of the packet processor: a fixed array, linear probing over a
    bounded window, entries that expire by tick count and are never moved or evicted. */
module ProbeTables {
  import opened CTypes

  datatype Slot<K, V> = Slot(key: K, value: V, stamp: U32, valid: bool)

  datatype Shape<!K> = Shape(size: nat, window: nat, ttl: nat, hash: K -> nat)
  {
    ghost predicate Valid() { 0 < window <= size }

    /** Array index of the `i`-th slot probed for `k`. */
    function Probe(k: K, i: nat): (idx: nat)
      requires Valid()
      ensures idx < size
    {
      (hash(k) + i) % size
    }
  }

  /** What a table holds for a key: the value and the tick at which it was stored. */
  type Held<V> = Option<(V, U32)>

  predicate Holds<K(==), V>(s: Slot<K, V>, k: K) {
    s.valid && s.key == k
  }

  /** First probe from `i` on that finds `k`; `sh.window` when none does. */
  function Find<K(==), V>(sh: Shape<K>, s: seq<Slot<K, V>>, k: K, i: nat := 0): (j: nat)
    requires sh.Valid() && |s| == sh.size && i <= sh.window
    ensures i <= j <= sh.window
    ensures j < sh.window ==> Holds(s[sh.Probe(k, j)], k)
    ensures forall m {:trigger sh.Probe(k, m)} :: i <= m < j ==> !Holds(s[sh.Probe(k, m)], k)
    decreases sh.window - i
  {
    if i == sh.window || Holds(s[sh.Probe(k, i)], k) then i else Find(sh, s, k, i + 1)
  }

  /** First probe from `i` on that meets a free slot; `sh.window` when the window is full. */
  function Hole<K, V>(sh: Shape<K>, s: seq<Slot<K, V>>, k: K, i: nat := 0): (j: nat)
    requires sh.Valid() && |s| == sh.size && i <= sh.window
    ensures i <= j <= sh.window
    ensures j < sh.window ==> !s[sh.Probe(k, j)].valid
    ensures forall m {:trigger sh.Probe(k, m)} :: i <= m < j ==> s[sh.Probe(k, m)].valid
    decreases sh.window - i
  {
    if i == sh.window || !s[sh.Probe(k, i)].valid then i else Hole(sh, s, k, i + 1)
  }

  predicate Fresh(now: U32, stamp: U32, ttl: nat) {
    TickAge(now, stamp) < ttl
  }

  /** The abstract content of a table: a partial map from keys. */
  function At<K(==), V>(sh: Shape<K>, s: seq<Slot<K, V>>, k: K): Held<V>
    requires sh.Valid() && |s| == sh.size
  {
    var j := Find(sh, s, k);
    if j == sh.window then None else Some((s[sh.Probe(k, j)].value, s[sh.Probe(k, j)].stamp))
  }

  /** A set is dropped when the window is full of other keys. */
  predicate Accepts<K(==), V>(sh: Shape<K>, s: seq<Slot<K, V>>, k: K)
    requires sh.Valid() && |s| == sh.size
  {
    exists i: nat {:trigger sh.Probe(k, i)} :: i < sh.window
      && (!s[sh.Probe(k, i)].valid || s[sh.Probe(k, i)].key == k)
  }

  function Lookup<K(==), V>(sh: Shape<K>, s: seq<Slot<K, V>>, k: K, now: U32): Option<V>
    requires sh.Valid() && |s| == sh.size
  {
    var h := At(sh, s, k);
    if h.Some? && Fresh(now, h.value.1, sh.ttl) then Some(h.value.0) else None
  }

  /** The table after a lookup: an expired entry is freed. */
  function AfterGet<K(==), V>(sh: Shape<K>, s: seq<Slot<K, V>>, k: K, now: U32): (t: seq<Slot<K, V>>)
    requires sh.Valid() && |s| == sh.size
    ensures |t| == sh.size
  {
    var j := Find(sh, s, k);
    if j == sh.window || Fresh(now, s[sh.Probe(k, j)].stamp, sh.ttl) then s
    else s[sh.Probe(k, j) := s[sh.Probe(k, j)].(valid := false)]
  }

  function AfterSet<K(==), V>(sh: Shape<K>, s: seq<Slot<K, V>>, k: K, v: V, now: U32): (t: seq<Slot<K, V>>)
    requires sh.Valid() && |s| == sh.size
    ensures |t| == sh.size
  {
    var j, h := Find(sh, s, k), Hole(sh, s, k);
    if j < sh.window then s[sh.Probe(k, j) := s[sh.Probe(k, j)].(value := v, stamp := now)]
    else if h < sh.window then s[sh.Probe(k, h) := Slot(k, v, now, true)]
    else s
  }

  /** Every valid slot is the one that probing for its own key finds. */
  ghost predicate WellPlaced<K, V>(sh: Shape<K>, s: seq<Slot<K, V>>) {
    && sh.Valid() && |s| == sh.size
    && forall x {:trigger s[x]} :: 0 <= x < |s| && s[x].valid ==>
         Find(sh, s, s[x].key) < sh.window && sh.Probe(s[x].key, Find(sh, s, s[x].key)) == x
  }

  /** No key is valid twice and every entry lies within the window after its hash. */
  lemma Placement<K, V>(sh: Shape<K>, s: seq<Slot<K, V>>, x: nat, y: nat)
    requires WellPlaced(sh, s) && x < |s| && y < |s| && s[x].valid && s[y].valid
    ensures s[x].key == s[y].key ==> x == y
    ensures exists i: nat {:trigger sh.Probe(s[x].key, i)} :: i < sh.window && x == sh.Probe(s[x].key, i)
  {
    var i := Find(sh, s, s[x].key);
    assert x == sh.Probe(s[x].key, i);
  }

  /** Tables that agree on which slots hold `k` are probed alike. */
  lemma {:induction false} SameFind<K, V>(sh: Shape<K>, s: seq<Slot<K, V>>, t: seq<Slot<K, V>>, k: K, i: nat := 0)
    requires sh.Valid() && |s| == |t| == sh.size && i <= sh.window
    requires forall x {:trigger t[x]} :: 0 <= x < |s| ==> (Holds(s[x], k) <==> Holds(t[x], k))
    ensures Find(sh, s, k, i) == Find(sh, t, k, i)
    decreases sh.window - i
  {
    if i < sh.window {
      assert Holds(s[sh.Probe(k, i)], k) <==> Holds(t[sh.Probe(k, i)], k);
      SameFind(sh, s, t, k, i + 1);
    }
  }

  /** Overwriting one slot that is free or holds `k` leaves every other key alone. */
  lemma OtherKeysKept<K, V>(sh: Shape<K>, s: seq<Slot<K, V>>, x: nat, n: Slot<K, V>, k: K, other: K)
    requires sh.Valid() && |s| == sh.size && x < |s| && other != k
    requires (!s[x].valid || s[x].key == k) && n.key == k
    ensures Find(sh, s[x := n], other) == Find(sh, s, other)
    ensures At(sh, s[x := n], other) == At(sh, s, other)
  {
    SameFind(sh, s, s[x := n], other);
  }

  /** Storing a slot for `k` where a probe for `k` reaches it keeps the table well placed. */
  lemma StoreWellPlaced<K, V>(sh: Shape<K>, s: seq<Slot<K, V>>, i: nat, n: Slot<K, V>, k: K)
    requires WellPlaced(sh, s) && i < sh.window && n.key == k
    requires var x := sh.Probe(k, i);
      if Find(sh, s, k) < sh.window then i == Find(sh, s, k) else !s[x].valid
    ensures WellPlaced(sh, s[sh.Probe(k, i) := n])
    ensures n.valid ==> At(sh, s[sh.Probe(k, i) := n], k) == Some((n.value, n.stamp))
    ensures !n.valid ==> At(sh, s[sh.Probe(k, i) := n], k) == None
  {
    var x := sh.Probe(k, i);
    var t := s[x := n];
    forall y | 0 <= y < |t| && y != x ensures !Holds(t[y], k) {
      assert t[y] == s[y];
    }
    var j := Find(sh, t, k);
    if n.valid {
      assert Holds(t[sh.Probe(k, i)], k);
    }
    forall y | 0 <= y < |t| && t[y].valid
      ensures Find(sh, t, t[y].key) < sh.window && sh.Probe(t[y].key, Find(sh, t, t[y].key)) == y
    {
      if t[y].key != k {
        OtherKeysKept(sh, s, x, n, k, t[y].key);
        assert y != x && t[y] == s[y];
      }
    }
  }

  /** A lookup refines the map: it removes the key when its entry has expired, and nothing else. */
  lemma GetRefines<K, V>(sh: Shape<K>, s: seq<Slot<K, V>>, k: K, now: U32, other: K)
    requires WellPlaced(sh, s)
    ensures WellPlaced(sh, AfterGet(sh, s, k, now))
    ensures At(sh, AfterGet(sh, s, k, now), k)
         == (var h := At(sh, s, k); if h.Some? && Fresh(now, h.value.1, sh.ttl) then h else None)
    ensures other != k ==> At(sh, AfterGet(sh, s, k, now), other) == At(sh, s, other)
  {
    var j := Find(sh, s, k);
    if j < sh.window && !Fresh(now, s[sh.Probe(k, j)].stamp, sh.ttl) {
      var n := s[sh.Probe(k, j)].(valid := false);
      StoreWellPlaced(sh, s, j, n, k);
      if other != k { OtherKeysKept(sh, s, sh.Probe(k, j), n, k, other); }
    }
  }

  /** A set refines the map: it binds the key when the window accepts it, else the key stays absent. */
  lemma SetRefines<K, V>(sh: Shape<K>, s: seq<Slot<K, V>>, k: K, v: V, now: U32, other: K)
    requires WellPlaced(sh, s)
    ensures WellPlaced(sh, AfterSet(sh, s, k, v, now))
    ensures At(sh, AfterSet(sh, s, k, v, now), k) == (if Accepts(sh, s, k) then Some((v, now)) else None)
    ensures other != k ==> At(sh, AfterSet(sh, s, k, v, now), other) == At(sh, s, other)
  {
    var j, h := Find(sh, s, k), Hole(sh, s, k);
    if j < sh.window {
      var n := s[sh.Probe(k, j)].(value := v, stamp := now);
      StoreWellPlaced(sh, s, j, n, k);
      if other != k { OtherKeysKept(sh, s, sh.Probe(k, j), n, k, other); }
    } else if h < sh.window {
      var n := Slot(k, v, now, true);
      StoreWellPlaced(sh, s, h, n, k);
      if other != k { OtherKeysKept(sh, s, sh.Probe(k, h), n, k, other); }
    }
  }

  lemma HeldHasRoom<K, V>(sh: Shape<K>, s: seq<Slot<K, V>>, k: K)
    requires sh.Valid() && |s| == sh.size && At(sh, s, k).Some?
    ensures Accepts(sh, s, k)
  {
    assert Holds(s[sh.Probe(k, Find(sh, s, k))], k);
  }

  /** A lookup of `k`, and a set of `k` after it, leave every entry as it was, free it, or store the new one. */
  lemma GetThenSet<K, V>(sh: Shape<K>, s: seq<Slot<K, V>>, k: K, v: V, now: U32, o: K)
    requires WellPlaced(sh, s)
    ensures var got := AfterGet(sh, s, k, now);
      var t := AfterSet(sh, got, k, v, now);
      && WellPlaced(sh, got) && (At(sh, got, o) == None || At(sh, got, o) == At(sh, s, o))
      && WellPlaced(sh, t)
      && (At(sh, t, o) == None || At(sh, t, o) == At(sh, s, o) || (o == k && At(sh, t, o) == Some((v, now))))
  {
    var got := AfterGet(sh, s, k, now);
    GetRefines(sh, s, k, now, o);
    SetRefines(sh, got, k, v, now, o);
    hide AfterGet, AfterSet, At, WellPlaced, Accepts;
  }

  /** Freeing an expired entry leaves room for its key. */
  lemma GetKeepsRoom<K, V>(sh: Shape<K>, s: seq<Slot<K, V>>, k: K, now: U32)
    requires WellPlaced(sh, s) && Accepts(sh, s, k)
    ensures Accepts(sh, AfterGet(sh, s, k, now), k)
  {
    var i: nat :| i < sh.window && (!s[sh.Probe(k, i)].valid || s[sh.Probe(k, i)].key == k);
    assert var t := AfterGet(sh, s, k, now); !t[sh.Probe(k, i)].valid || t[sh.Probe(k, i)].key == k;
  }

  lemma ModularProbe(n: nat, h: nat, x: nat)
    requires x < n
    ensures (h + (x - h) % n) % n == x
  {
    var q := (x - h) / n;
    var y := h + (x - h) % n;
    assert x - h == q * n + (x - h) % n;
    assert y == x - q * n;
    var z := y / n + q;
    assert z * n == x - y % n by {
      assert y == (y / n) * n + y % n;
      assert z * n == (y / n) * n + q * n;
    }
    assert z >= 1 ==> z * n >= n;
    assert z <= -1 ==> z * n <= 0 - n;
  }

  lemma ProbeReaches<K>(sh: Shape<K>, k: K, x: nat) returns (i: nat)
    requires sh.Valid() && x < sh.size
    ensures i < sh.size && sh.Probe(k, i) == x
  {
    i := (x - sh.hash(k)) % sh.size;
    ModularProbe(sh.size, sh.hash(k), x);
  }

  /** A table probed over all of its slots drops a set only when no slot is free. */
  lemma FullProbeDropsOnlyWhenFull<K, V>(sh: Shape<K>, s: seq<Slot<K, V>>, k: K)
    requires WellPlaced(sh, s) && sh.window == sh.size
    ensures !Accepts(sh, s, k) <==> forall x :: 0 <= x < |s| ==> s[x].valid && s[x].key != k
  {
    if !Accepts(sh, s, k) {
      forall x | 0 <= x < |s| ensures s[x].valid && s[x].key != k {
        var i := ProbeReaches(sh, k, x);
      }
    }
  }

  // ---- Histories ----

  datatype Op<K, V> = GetOp(k: K, now: U32) | SetOp(k: K, v: V, now: U32)

  function Apply<K(==), V>(sh: Shape<K>, s: seq<Slot<K, V>>, op: Op<K, V>): (t: seq<Slot<K, V>>)
    requires sh.Valid() && |s| == sh.size
    ensures |t| == sh.size
  {
    match op
    case GetOp(k, now) => AfterGet(sh, s, k, now)
    case SetOp(k, v, now) => AfterSet(sh, s, k, v, now)
  }

  function Run<K(==), V>(sh: Shape<K>, s: seq<Slot<K, V>>, ops: seq<Op<K, V>>): (t: seq<Slot<K, V>>)
    requires sh.Valid() && |s| == sh.size
    ensures |t| == sh.size
  {
    if ops == [] then s else Apply(sh, Run(sh, s, ops[..|ops| - 1]), ops[|ops| - 1])
  }

  /** The most recent set of `k`, whether the table accepted it or not. */
  function LastSet<K(==), V>(ops: seq<Op<K, V>>, k: K): Held<V> {
    if ops == [] then None
    else
      var op := ops[|ops| - 1];
      if op.SetOp? && op.k == k then Some((op.v, op.now)) else LastSet(ops[..|ops| - 1], k)
  }

  /** An all-free table, as left by clearing the array. */
  ghost predicate Blank<K, V>(sh: Shape<K>, s: seq<Slot<K, V>>) {
    sh.Valid() && |s| == sh.size && forall x :: 0 <= x < |s| ==> !s[x].valid
  }

  /** Over every history, what the table holds for a key is exactly the most recent set of that
      key: neither holes nor expiry nor dropped sets bring an older value back. */
  lemma {:induction false} HitIsMostRecentSet<K, V>(sh: Shape<K>, s: seq<Slot<K, V>>, ops: seq<Op<K, V>>,
      k: K, now: U32)
    requires Blank(sh, s)
    ensures WellPlaced(sh, Run(sh, s, ops))
    ensures var h := At(sh, Run(sh, s, ops), k); h.Some? ==> h == LastSet(ops, k)
    ensures var r := Lookup(sh, Run(sh, s, ops), k, now); r.Some? ==>
      LastSet(ops, k).Some? && r.value == LastSet(ops, k).value.0
      && Fresh(now, LastSet(ops, k).value.1, sh.ttl)
  {
    if ops != [] {
      var op, before := ops[|ops| - 1], Run(sh, s, ops[..|ops| - 1]);
      HitIsMostRecentSet(sh, s, ops[..|ops| - 1], k, now);
      match op
      case GetOp(o, t) => GetRefines(sh, before, o, t, k);
      case SetOp(o, v, t) => SetRefines(sh, before, o, v, t, k);
    }
  }

  /** `op` neither rebinds `k` nor looks it up after the entry stamped `stamp` went stale. */
  predicate LeavesAlone<K(==), V>(op: Op<K, V>, k: K, stamp: U32, ttl: nat) {
    op.k == k ==> op.GetOp? && Fresh(op.now, stamp, ttl)
  }

  /** An accepted set stays readable until its key is set again or looked up stale: nothing done
      to other keys can evict it. */
  lemma {:induction false} AcceptedSetSurvives<K, V>(sh: Shape<K>, s: seq<Slot<K, V>>, k: K, v: V, stamp: U32,
      ops: seq<Op<K, V>>)
    requires WellPlaced(sh, s) && Accepts(sh, s, k)
    requires forall i :: 0 <= i < |ops| ==> LeavesAlone(ops[i], k, stamp, sh.ttl)
    ensures WellPlaced(sh, Run(sh, AfterSet(sh, s, k, v, stamp), ops))
    ensures At(sh, Run(sh, AfterSet(sh, s, k, v, stamp), ops), k) == Some((v, stamp))
  {
    if ops == [] {
      SetRefines(sh, s, k, v, stamp, k);
    } else {
      var op, before := ops[|ops| - 1], Run(sh, AfterSet(sh, s, k, v, stamp), ops[..|ops| - 1]);
      AcceptedSetSurvives(sh, s, k, v, stamp, ops[..|ops| - 1]);
      assert LeavesAlone(op, k, stamp, sh.ttl);
      match op
      case GetOp(o, t) => GetRefines(sh, before, o, t, k);
      case SetOp(o, w, t) => SetRefines(sh, before, o, w, t, k);
    }
  }

  // ---- Ages ----

  /** An entry that looks fresh is fresh exactly when its true age is below 2^32 ticks. */
  lemma FreshUnlessAncient(now: nat, then_: nat, ttl: nat)
    requires then_ <= now && ttl <= TWO_32 && Fresh(Tick(now), Tick(then_), ttl)
    ensures now - then_ < ttl <==> now - then_ < TWO_32
  {
    TickAgeIsTrueAge(now, then_);
  }

  /** In every table, an entry left alone for exactly 2^32 ticks answers again as if just stored. */
  lemma AncientEntryAnswers<K, V>(sh: Shape<K>, s: seq<Slot<K, V>>, k: K, v: V)
    requires Blank(sh, s) && sh.ttl > 0
    ensures Lookup(sh, AfterSet(sh, s, k, v, Tick(0)), k, Tick(TWO_32)) == Some(v)
  {
    assert !s[sh.Probe(k, 0)].valid;
    SetRefines(sh, s, k, v, 0, k);
    hide AfterSet, Find;
  }

  // ---- The array ----

  class ProbeTable<K(==), V> {
    const shape: Shape<K>
    /** A zero-filled slot. */
    const blank: Slot<K, V>
    const slots: array<Slot<K, V>>

    ghost predicate Valid()
      reads slots
    {
      shape.Valid() && slots.Length == shape.size
    }

    constructor (shape: Shape<K>, blank: Slot<K, V>)
      requires shape.Valid()
      ensures this.shape == shape && this.blank == blank && Valid() && fresh(slots)
      ensures slots[..] == seq(shape.size, _ => blank)
    {
      this.shape, this.blank := shape, blank;
      slots := new Slot<K, V>[shape.size](_ => blank);
    }

    /** Zero-fills the array. */
    method Clear()
      requires Valid()
      modifies slots
      ensures Valid() && slots[..] == seq(shape.size, _ => blank)
    {
      for i := 0 to slots.Length
        invariant forall x :: 0 <= x < i ==> slots[x] == blank
      {
        slots[i] := blank;
      }
    }

    method Get(k: K, now: U32) returns (r: Option<V>)
      requires Valid()
      modifies slots
      ensures Valid()
      ensures r == Lookup(shape, old(slots[..]), k, now)
      ensures slots[..] == AfterGet(shape, old(slots[..]), k, now)
    {
      ghost var s := slots[..];
      r := None;
      for i := 0 to shape.window
        invariant Valid() && slots[..] == s && r == None
        invariant Find(shape, s, k) == Find(shape, s, k, i)
      {
        var idx := shape.Probe(k, i);
        if slots[idx].valid && slots[idx].key == k {
          if Fresh(now, slots[idx].stamp, shape.ttl) {
            r := Some(slots[idx].value);
          } else {
            slots[idx] := slots[idx].(valid := false);
          }
          return;
        }
      }
    }

    method Set(k: K, v: V, now: U32)
      requires Valid()
      modifies slots
      ensures Valid()
      ensures slots[..] == AfterSet(shape, old(slots[..]), k, v, now)
    {
      ghost var s := slots[..];
      var empty := -1;
      for i := 0 to shape.window
        invariant Valid() && slots[..] == s
        invariant Find(shape, s, k) == Find(shape, s, k, i)
        invariant if empty < 0 then Hole(shape, s, k) == Hole(shape, s, k, i)
                  else Hole(shape, s, k) < i && empty == shape.Probe(k, Hole(shape, s, k))
      {
        var idx := shape.Probe(k, i);
        if slots[idx].valid && slots[idx].key == k {
          slots[idx] := slots[idx].(value := v, stamp := now);
          return;
        }
        if !slots[idx].valid && empty < 0 {
          empty := idx;
        }
      }
      if empty >= 0 {
        slots[empty] := Slot(k, v, now, true);
      }
    }
  }
}
