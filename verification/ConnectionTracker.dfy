/** The table of redirected connections: a singly linked list of nodes updated in place, which
    refines a finite map from the client's source port. */
module ConnectionTracker {
  import opened CTypes
  import opened Lists

  datatype Dest = V4(ip: U32) | V6(bytes: seq<U8>)

  datatype Conn = Conn(srcIp: U32, dest: Dest, destPort: U16, proxy: ProxyInfo)

  /** What the table records for `port` after an add: nothing new when the node cannot be allocated. */
  function Put(m: map<U16, Conn>, port: U16, c: Conn, memory: bool): map<U16, Conn> {
    if port in m || memory then m[port := c] else m
  }

  /** The entry of `port` as the IPv4-only lookups see it. */
  function Visible4(m: map<U16, Conn>, port: U16): Option<Conn> {
    if port in m && m[port].dest.V4? then Some(m[port]) else None
  }

  function ProxyOrZero(proxy: Option<ProxyInfo>): ProxyInfo {
    if proxy.Some? then proxy.value else NO_PROXY
  }

  // ---- The map a list of entries stands for ----

  type Entries = seq<(U16, Conn)>

  predicate Distinct(es: Entries) {
    forall i, j :: 0 <= i < j < |es| ==> es[i].0 != es[j].0
  }

  function MapOf(es: Entries): map<U16, Conn> {
    if es == [] then map[] else MapOf(es[1..])[es[0].0 := es[0].1]
  }

  lemma {:induction false} KeyAt(es: Entries, p: U16) returns (i: nat)
    requires p in MapOf(es)
    ensures i < |es| && es[i].0 == p
  {
    if es[0].0 == p { i := 0; } else { i := KeyAt(es[1..], p); i := i + 1; }
  }

  lemma {:induction false} ValueAt(es: Entries, i: nat)
    requires Distinct(es) && i < |es|
    ensures es[i].0 in MapOf(es) && MapOf(es)[es[i].0] == es[i].1
  {
    if i > 0 {
      assert es[i] == es[1..][i - 1];
      ValueAt(es[1..], i - 1);
    }
  }

  lemma Absent(es: Entries, p: U16)
    requires forall i {:trigger es[i]} :: 0 <= i < |es| ==> es[i].0 != p
    ensures p !in MapOf(es)
  {
    if p in MapOf(es) { var i := KeyAt(es, p); }
  }

  lemma {:induction false} ReplaceAt(es: Entries, at: nat, c: Conn)
    requires Distinct(es) && at < |es|
    ensures Distinct(es[at := (es[at].0, c)])
    ensures MapOf(es[at := (es[at].0, c)]) == MapOf(es)[es[at].0 := c]
  {
    var t := es[at := (es[at].0, c)];
    if at > 0 {
      assert t[1..] == es[1..][at - 1 := (es[at].0, c)];
      ReplaceAt(es[1..], at - 1, c);
    } else {
      assert t[1..] == es[1..];
    }
  }

  lemma NothingToDrop(es: Entries, p: U16)
    ensures p !in MapOf(es) ==> MapOf(es) - {p} == MapOf(es)
    ensures MapOf([]) == map[]
  {
  }

  lemma WithoutIsDistinct(es: Entries, at: nat)
    requires Distinct(es) && at < |es|
    ensures Distinct(Without(es, at))
  {
  }

  lemma {:induction false} DropAt(es: Entries, at: nat)
    requires Distinct(es) && at < |es|
    ensures MapOf(Without(es, at)) == MapOf(es) - {es[at].0}
  {
    var t := Without(es, at);
    if at > 0 {
      var rest := es[1..];
      assert Distinct(rest) && rest[at - 1] == es[at];
      assert t[0] == es[0] && t[1..] == rest[..at - 1] + rest[at..];
      DropAt(rest, at - 1);
    } else {
      assert t == es[1..];
      Absent(t, es[0].0);
    }
  }

  // ---- The list ----

  class Node {
    const srcPort: U16
    var srcIp: U32
    var origDestIp: U32
    var origDestIpv6: seq<U8>
    var origDestPort: U16
    var isIpv6: bool
    var isTracked: bool
    var proxy: ProxyInfo
    var next: Node?

    constructor (srcPort: U16, srcIp: U32, dest: Dest, destPort: U16, proxy: ProxyInfo, next: Node?)
      ensures this.srcPort == srcPort && this.next == next && isTracked
      ensures Content() == Conn(srcIp, dest, destPort, proxy)
    {
      this.srcPort, this.srcIp, this.origDestPort, this.proxy, this.next := srcPort, srcIp, destPort, proxy, next;
      origDestIp := if dest.V4? then dest.ip else 0;
      origDestIpv6 := if dest.V6? then dest.bytes else seq(16, _ => 0);
      isIpv6, isTracked := dest.V6?, true;
    }

    ghost function Content(): Conn
      reads this
    {
      Conn(srcIp, if isIpv6 then V6(origDestIpv6) else V4(origDestIp), origDestPort, proxy)
    }

    /** The node carries entry `e` and is followed by `next`. */
    ghost predicate Stands(e: (U16, Conn), next: Node?)
      reads this
    {
      this.next == next && isTracked && (srcPort, Content()) == e
    }

    /** `node->next = next` */
    method Point(next: Node?, ghost e: (U16, Conn))
      requires Stands(e, this.next)
      modifies `next
      ensures Stands(e, next)
    {
      this.next := next;
    }

    method Overwrite(srcIp: U32, dest: Dest, destPort: U16, proxy: ProxyInfo)
      modifies this
      ensures Content() == Conn(srcIp, dest, destPort, proxy)
      ensures next == old(next) && isTracked
    {
      this.srcIp := srcIp;
      if dest.V6? {
        origDestIp, origDestIpv6 := 0, dest.bytes;
      } else {
        origDestIp := dest.ip;
      }
      origDestPort, isIpv6, isTracked := destPort, dest.V6?, true;
      this.proxy := proxy;
    }
  }

  ghost function Link(s: seq<Node>, i: nat): Node? {
    if i < |s| then s[i] else null
  }

  class Tracker {
    var list: Node?
    var initialized: bool
    ghost var spine: seq<Node>
    ghost var entries: Entries

    /** The list is acyclic, holds at most one node per port, and spells out `entries`. */
    ghost predicate Valid()
      reads this, spine
    {
      && list == Link(spine, 0) && |spine| == |entries| && Distinct(entries)
      && (forall i {:trigger spine[i]} :: 0 <= i < |spine| ==> Linked(i))
      && (!initialized ==> entries == [])
    }

    ghost predicate Linked(i: nat)
      requires i < |spine| == |entries|
      reads this, spine
    {
      spine[i].Stands(entries[i], Link(spine, i + 1))
    }

    ghost function Conns(): map<U16, Conn>
      reads this
    {
      MapOf(entries)
    }

    constructor ()
      ensures Valid() && !initialized && Conns() == map[]
    {
      list, initialized, spine, entries := null, false, [], [];
    }

    method Init()
      requires Valid()
      modifies this
      ensures Valid() && initialized && entries == old(entries) && spine == old(spine)
    {
      if initialized { return; }
      list, initialized := null, true;
    }

    method Cleanup()
      requires Valid()
      modifies this
      ensures Valid() && !initialized && spine == [] && Conns() == map[]
    {
      if !initialized { return; }
      Clear();
      initialized := false;
    }

    /** The list walk of every lookup; the IPv4-only ones pass over IPv6 entries. */
    method Locate(port: U16, v4Only: bool) returns (n: Node?, ghost at: nat)
      requires Valid()
      ensures n == null <==> port !in Conns() || (v4Only && Conns()[port].dest.V6?)
      ensures n != null ==> at < |spine| && spine[at] == n && n.srcPort == port && n.Content() == Conns()[port]
      ensures n != null ==> entries[at] == (port, n.Content())
    {
      n, at := list, 0;
      while n != null && !(n.srcPort == port && !(v4Only && n.isIpv6))
        invariant at <= |spine| && n == Link(spine, at)
        invariant forall i {:trigger entries[i]} :: 0 <= i < at ==>
          entries[i].0 != port || (v4Only && entries[i].1.dest.V6?)
        decreases |spine| - at
      {
        assert Linked(at);
        n, at := n.next, at + 1;
      }
      if n != null {
        assert Linked(at);
        ValueAt(entries, at);
      } else if port in Conns() {
        var i := KeyAt(entries, port);
        ValueAt(entries, i);
      }
    }

    method AddEntry(port: U16, c: Conn, memory: bool)
      requires Valid()
      modifies this, spine
      ensures Valid() && initialized == old(initialized)
      ensures Conns() == if initialized then Put(old(Conns()), port, c, memory) else old(Conns())
      ensures forall n :: n in spine ==> n in old(spine) || fresh(n)
    {
      if !initialized { return; }
      var n, at := Locate(port, false);
      if n != null {
        OverwriteAt(n, at, c);
      } else if memory {
        Prepend(port, c);
      }
    }

    method OverwriteAt(n: Node, ghost at: nat, c: Conn)
      requires Valid() && initialized && at < |spine| && spine[at] == n
      modifies this, n
      ensures Valid() && initialized && spine == old(spine)
      ensures Conns() == old(Conns())[n.srcPort := c]
    {
      assert Linked(at);
      forall i | 0 <= i < |spine| && i != at ensures Linked(i) && spine[i] != n {
      }
      ReplaceAt(entries, at, c);
      entries := entries[at := (n.srcPort, c)];
      n.Overwrite(c.srcIp, c.dest, c.destPort, c.proxy);
      forall i | 0 <= i < |spine| ensures Linked(i) {
        if i != at { assert old(Linked(i)); }
      }
    }

    method Prepend(port: U16, c: Conn)
      requires Valid() && initialized && port !in Conns()
      modifies this
      ensures Valid() && initialized && Conns() == old(Conns())[port := c]
      ensures |spine| > 0 && fresh(spine[0]) && spine[1..] == old(spine)
    {
      forall i | 0 <= i < |spine| ensures Linked(i) && entries[i].0 != port {
        ValueAt(entries, i);
      }
      var n := new Node(port, c.srcIp, c.dest, c.destPort, c.proxy, list);
      list, spine, entries := n, [n] + spine, [(port, c)] + entries;
      assert entries[1..] == old(entries);
      forall i | 0 <= i < |spine| ensures Linked(i) {
        if i > 0 { assert spine[i] == old(spine)[i - 1]; }
      }
    }

    method Add(port: U16, srcIp: U32, destIp: U32, destPort: U16, proxy: Option<ProxyInfo>, memory: bool)
      requires Valid()
      modifies this, spine
      ensures Valid() && initialized == old(initialized)
      ensures Conns() == if initialized && (memory || port in old(Conns()))
        then old(Conns())[port := Conn(srcIp, V4(destIp), destPort, if proxy.Some? then proxy.value else NO_PROXY)]
        else old(Conns())
      ensures forall n :: n in spine ==> n in old(spine) || fresh(n)
    {
      AddEntry(port, Conn(srcIp, V4(destIp), destPort, ProxyOrZero(proxy)), memory);
    }

    method AddIPv6(port: U16, srcIp: U32, destIp: seq<U8>, destPort: U16, proxy: Option<ProxyInfo>, memory: bool)
      requires Valid() && |destIp| == 16
      modifies this, spine
      ensures Valid() && initialized == old(initialized)
      ensures Conns() == if initialized && (memory || port in old(Conns()))
        then old(Conns())[port := Conn(srcIp, V6(destIp), destPort, if proxy.Some? then proxy.value else NO_PROXY)]
        else old(Conns())
      ensures forall n :: n in spine ==> n in old(spine) || fresh(n)
    {
      AddEntry(port, Conn(srcIp, V6(destIp), destPort, ProxyOrZero(proxy)), memory);
    }

    method Get(port: U16) returns (r: Option<(U32, U16)>)
      requires Valid()
      ensures r == if port in Conns() && Conns()[port].dest.V4?
        then Some((Conns()[port].dest.ip, Conns()[port].destPort)) else None
    {
      if !initialized { return None; }
      var n, at := Locate(port, true);
      r := if n == null then None else Some((n.origDestIp, n.origDestPort));
    }

    method GetFull(port: U16) returns (r: Option<(U32, U32, U16)>)
      requires Valid()
      ensures r == if port in Conns() && Conns()[port].dest.V4?
        then Some((Conns()[port].srcIp, Conns()[port].dest.ip, Conns()[port].destPort)) else None
    {
      if !initialized { return None; }
      var n, at := Locate(port, true);
      r := if n == null then None else Some((n.srcIp, n.origDestIp, n.origDestPort));
    }

    method GetEx(port: U16) returns (r: Option<(Dest, U16)>)
      requires Valid()
      ensures r == if port in Conns() then Some((Conns()[port].dest, Conns()[port].destPort)) else None
    {
      if !initialized { return None; }
      var n, at := Locate(port, false);
      if n == null { return None; }
      r := Some((if n.isIpv6 then V6(n.origDestIpv6) else V4(n.origDestIp), n.origDestPort));
    }

    method GetProxy(port: U16) returns (r: Option<ProxyInfo>)
      requires Valid()
      ensures r == if port in Conns() then Some(Conns()[port].proxy) else None
    {
      if !initialized { return None; }
      var n, at := Locate(port, false);
      r := if n == null then None else Some(n.proxy);
    }

    method IsTracked(port: U16) returns (r: bool)
      requires Valid()
      ensures r <==> port in Conns()
    {
      if !initialized { return false; }
      var n, at := Locate(port, false);
      if n != null { assert Linked(at); }
      r := n != null && n.isTracked;
    }

    method Remove(port: U16)
      requires Valid()
      modifies this, spine
      ensures Valid() && initialized == old(initialized)
      ensures Conns() == old(Conns()) - {port}
      ensures forall n :: n in spine ==> n in old(spine)
    {
      hide Distinct, MapOf, Node.Stands;
      NothingToDrop(entries, port);
      if !initialized { return; }
      var prev, n, at := Seek(port);
      if n == null { return; }
      DropAt(entries, at);
      if prev == null { UnlinkHead(); } else { UnlinkAfter(prev, n, at); }
    }

    /** The walk to the node of a port, and the node before it. */
    method Seek(port: U16) returns (prev: Node?, n: Node?, ghost at: nat)
      requires Valid()
      ensures n == null <==> port !in Conns()
      ensures n != null ==> at < |spine| && n == spine[at] && entries[at].0 == port
      ensures n != null ==> prev == if at == 0 then null else spine[at - 1]
    {
      hide MapOf, Distinct;
      prev, n, at := null, list, 0;
      while n != null && n.srcPort != port
        invariant at <= |spine| && n == Link(spine, at)
        invariant prev == if at == 0 then null else Link(spine, at - 1)
        invariant forall i {:trigger entries[i]} :: 0 <= i < at ==> entries[i].0 != port
        decreases |spine| - at
      {
        assert Linked(at);
        prev, n, at := n, n.next, at + 1;
      }
      if n == null {
        Absent(entries, port);
      } else {
        assert Linked(at);
        ValueAt(entries, at);
      }
    }

    /** `*ptr = (*ptr)->next` at the head of the list. */
    method UnlinkHead()
      requires Valid() && initialized && list != null
      modifies this
      ensures Valid() && initialized
      ensures spine == Without(old(spine), 0) && entries == Without(old(entries), 0)
    {
      ghost var before, was := spine, entries;
      assert forall i :: 0 <= i < |spine| ==> Linked(i);
      list, spine, entries := list.next, Without(spine, 0), Without(entries, 0);
      forall i | 0 <= i < |spine| ensures Linked(i) {
        assert spine[i] == before[i + 1] && entries[i] == was[i + 1];
      }
    }

    /** `*ptr = (*ptr)->next` where `ptr` is the `next` field of `prev`. */
    method UnlinkAfter(prev: Node, n: Node, ghost at: nat)
      requires Valid() && initialized && 0 < at < |spine| && prev == spine[at - 1] && n == spine[at]
      modifies this, prev
      ensures Valid() && initialized
      ensures spine == Without(old(spine), at)
      ensures entries == Without(old(entries), at)
    {
      hide Distinct, MapOf, Node.Stands;
      PointPast(prev, n, at);
      WithoutIsDistinct(entries, at);
      ghost var before, was := spine, entries;
      spine, entries := Without(before, at), Without(was, at);
      Spliced(before, was, at);
    }

    method PointPast(prev: Node, n: Node, ghost at: nat)
      requires Valid() && 0 < at < |spine| && prev == spine[at - 1] && n == spine[at]
      modifies prev`next
      ensures forall o {:trigger spine[o]} :: 0 <= o < |spine| && o != at - 1 ==>
        spine[o].Stands(entries[o], Link(spine, o + 1))
      ensures prev.Stands(entries[at - 1], Link(spine, at + 1))
    {
      hide Distinct, MapOf, Link;
      assert Linked(at) && Linked(at - 1);
      NodesDiffer(at - 1);
      hide Node.Stands;
      prev.Point(n.next, entries[at - 1]);
      forall o | 0 <= o < |spine| && o != at - 1 ensures spine[o].Stands(entries[o], Link(spine, o + 1)) {
        assert old(Linked(o));
      }
    }

    /** The remaining nodes are linked once the one before position `at` points past it. */
    lemma Spliced(before: seq<Node>, was: Entries, at: nat)
      requires 0 < at < |before| == |was| && spine == Without(before, at) && entries == Without(was, at)
      requires forall o {:trigger before[o]} :: 0 <= o < |before| && o != at - 1 ==>
        before[o].Stands(was[o], Link(before, o + 1))
      requires before[at - 1].Stands(was[at - 1], Link(before, at + 1))
      ensures forall i :: 0 <= i < |spine| ==> Linked(i)
    {
      hide Node.Stands;
      forall i | 0 <= i < |spine| ensures Linked(i) {
        var o := if i < at then i else i + 1;
        assert before[o] == spine[i];
      }
    }

    /** No node occurs twice in the list. */
    lemma NodesDiffer(k: nat)
      requires Valid() && k < |spine|
      ensures forall i :: 0 <= i < |spine| && i != k ==> spine[i] != spine[k]
    {
      forall i | 0 <= i < |spine| && i != k ensures spine[i] != spine[k] {
        assert Linked(i) && Linked(k);
      }
    }

    method Clear()
      requires Valid()
      modifies this
      ensures Valid() && initialized == old(initialized) && spine == [] && Conns() == map[]
    {
      if !initialized { return; }
      while list != null
        invariant Valid() && initialized
        decreases |spine|
      {
        UnlinkHead();
      }
    }
  }
}
