/** The rule list: newest rule first, matched in one pass with the fully wildcard rule deferred. */
module RuleEngine {
  import opened CTypes
  import opened CStrings
  import opened Lists
  import opened RulePatterns

  datatype RuleProtocol = TcpOnly | UdpOnly | Both
  datatype RuleAction = Proxy | Direct | Block

  datatype Rule = Rule(id: U32, process: CString, hosts: CString, ports: CString,
                       protocol: RuleProtocol, action: RuleAction, proxy: ProxyInfo, enabled: bool)

  /** One packet as the rules see it. */
  datatype Query = Query(process: string, ip: U32, port: U16, isTcp: bool)

  // ---- Matching ----

  predicate Compatible(r: Rule, q: Query) {
    r.enabled && (r.protocol == Both || (r.protocol == TcpOnly) == q.isTcp)
  }

  predicate FullWildcard(r: Rule) {
    r.process == "*" && r.hosts == "*" && r.ports == "*"
  }

  /** A rule that decides as soon as the scan meets it. */
  predicate Applies(r: Rule, q: Query) {
    && Compatible(r, q) && !FullWildcard(r)
    && ProcessListMatches(r.process, q.process) && IpListMatches(r.hosts, q.ip) && PortListMatches(r.ports, q.port)
  }

  /** A rule that decides only when no other rule does. */
  predicate Fallback(r: Rule, q: Query) {
    Compatible(r, q) && FullWildcard(r)
  }

  /** The scan, with the first fully wildcard rule met so far. */
  function OnePass(rules: seq<Rule>, q: Query, saved: Option<Rule> := None): Option<Rule> {
    if rules == [] then saved
    else if Applies(rules[0], q) then Some(rules[0])
    else OnePass(rules[1..], q, if saved.None? && Fallback(rules[0], q) then Some(rules[0]) else saved)
  }

  function Verdict(rules: seq<Rule>, q: Query): (RuleAction, ProxyInfo) {
    match OnePass(rules, q)
    case Some(r) => (r.action, r.proxy)
    case None => (Direct, NO_PROXY)
  }

  predicate Eligible(r: Rule, q: Query, last: bool) {
    if last then Fallback(r, q) else Applies(r, q)
  }

  /** Rule `i` is the newest applicable (or, with `last`, fully wildcard) one: rules are added in front. */
  predicate NewestAt(rules: seq<Rule>, q: Query, last: bool, i: nat) {
    i < |rules| && Eligible(rules[i], q, last) && forall k :: 0 <= k < i ==> !Eligible(rules[k], q, last)
  }

  predicate Newest(rules: seq<Rule>, q: Query, last: bool, r: Rule) {
    exists i :: 0 <= i < |rules| && NewestAt(rules, q, last, i) && rules[i] == r
  }

  predicate Any(rules: seq<Rule>, q: Query, last: bool) {
    exists i :: 0 <= i < |rules| && Eligible(rules[i], q, last)
  }

  /** What the documentation promises: the newest applicable rule, else the newest compatible
      fully wildcard rule, else none. */
  predicate IsChoice(rules: seq<Rule>, q: Query, c: Option<Rule>) {
    if Any(rules, q, false) then c.Some? && Newest(rules, q, false, c.value)
    else if Any(rules, q, true) then c.Some? && Newest(rules, q, true, c.value)
    else c == None
  }

  /** How eligibility in a list follows from its head and its tail. */
  lemma AnyOfTail(rules: seq<Rule>, q: Query, last: bool)
    requires rules != []
    ensures Any(rules, q, last) <==> Eligible(rules[0], q, last) || Any(rules[1..], q, last)
  {
    hide Eligible;
    if Any(rules[1..], q, last) {
      var i :| 0 <= i < |rules[1..]| && Eligible(rules[1..][i], q, last);
      assert Eligible(rules[i + 1], q, last);
    }
    if Any(rules, q, last) && !Eligible(rules[0], q, last) {
      var i :| 0 <= i < |rules| && Eligible(rules[i], q, last);
      assert Eligible(rules[1..][i - 1], q, last);
    }
  }

  lemma NewestOfTail(rules: seq<Rule>, q: Query, last: bool, r: Rule)
    requires rules != []
    ensures Eligible(rules[0], q, last) ==> Newest(rules, q, last, rules[0])
    ensures !Eligible(rules[0], q, last) && Newest(rules[1..], q, last, r) ==> Newest(rules, q, last, r)
  {
    hide Eligible;
    if Eligible(rules[0], q, last) {
      assert NewestAt(rules, q, last, 0);
    } else if Newest(rules[1..], q, last, r) {
      var i :| 0 <= i < |rules[1..]| && NewestAt(rules[1..], q, last, i) && rules[1..][i] == r;
      forall k | 0 <= k < i + 1 ensures !Eligible(rules[k], q, last) {
        if k > 0 { assert rules[k] == rules[1..][k - 1]; }
      }
      assert NewestAt(rules, q, last, i + 1);
    }
  }

  /** The scan finds the newest applicable rule, else keeps the saved one, else finds the newest fully
      wildcard rule. */
  lemma {:induction false} OnePassFinds(rules: seq<Rule>, q: Query, saved: Option<Rule>)
    ensures var c := OnePass(rules, q, saved);
      if Any(rules, q, false) then c.Some? && Newest(rules, q, false, c.value)
      else if saved.Some? then c == saved else IsChoice(rules, q, c)
  {
    if rules != [] {
      var keep := if saved.None? && Fallback(rules[0], q) then Some(rules[0]) else saved;
      var c := OnePass(rules, q, saved);
      AnyOfTail(rules, q, false);
      AnyOfTail(rules, q, true);
      NewestOfTail(rules, q, false, if c.Some? then c.value else rules[0]);
      NewestOfTail(rules, q, true, if c.Some? then c.value else rules[0]);
      OnePassFinds(rules[1..], q, keep);
      hide Newest, Any, Applies, Fallback;
    }
  }

  lemma NewestIsOne(rules: seq<Rule>, q: Query, last: bool, a: Rule, b: Rule)
    requires Newest(rules, q, last, a) && Newest(rules, q, last, b)
    ensures a == b
  {
    hide Eligible;
  }

  /** The one-pass scan computes the documented choice, for every list, and that choice is unique. */
  lemma VerdictIsDocumentedChoice(rules: seq<Rule>, q: Query, c: Option<Rule>)
    ensures IsChoice(rules, q, c) <==> c == OnePass(rules, q)
  {
    OnePassFinds(rules, q, None);
    hide Eligible, Any, Newest;
    var d := OnePass(rules, q);
    if IsChoice(rules, q, c) && c.Some? {
      NewestIsOne(rules, q, !Any(rules, q, false), c.value, d.value);
    }
  }

  predicate Decreasing(rules: seq<Rule>) {
    forall i, j :: 0 <= i < j < |rules| ==> rules[i].id > rules[j].id
  }

  /** While ids have not wrapped, the newest rule is the one with the highest id. */
  lemma NewestHasHighestId(rules: seq<Rule>, q: Query, last: bool, r: Rule)
    requires Decreasing(rules)
    ensures Newest(rules, q, last, r) <==>
      r in rules && Eligible(r, q, last) && forall o :: o in rules && Eligible(o, q, last) ==> o.id <= r.id
  {
    hide Eligible;
    if Newest(rules, q, last, r) {
      var i :| 0 <= i < |rules| && NewestAt(rules, q, last, i) && rules[i] == r;
      forall o | o in rules && Eligible(o, q, last) ensures o.id <= r.id {
        var j :| 0 <= j < |rules| && rules[j] == o;
      }
    }
    if r in rules && Eligible(r, q, last) && forall o :: o in rules && Eligible(o, q, last) ==> o.id <= r.id {
      var i :| 0 <= i < |rules| && rules[i] == r;
      forall k | 0 <= k < i ensures !Eligible(rules[k], q, last) {
        assert rules[k] in rules;
      }
      assert NewestAt(rules, q, last, i);
    }
  }

  lemma {:induction false} SavedMatters(rules: seq<Rule>, q: Query, r: Rule)
    ensures OnePass(rules, q, Some(r)) == OnePass(rules, q) || OnePass(rules, q, Some(r)) == Some(r)
  {
    if rules != [] && !Applies(rules[0], q) {
      if Fallback(rules[0], q) {
        SavedMatters(rules[1..], q, rules[0]);
        SavedMatters(rules[1..], q, r);
        SavedOnlyLast(rules[1..], q, r, rules[0]);
      } else {
        SavedMatters(rules[1..], q, r);
      }
    }
  }

  /** Two scans with different saved rules differ only by returning them. */
  lemma {:induction false} SavedOnlyLast(rules: seq<Rule>, q: Query, a: Rule, b: Rule)
    ensures OnePass(rules, q, Some(a)) == OnePass(rules, q, Some(b))
         || (OnePass(rules, q, Some(a)) == Some(a) && OnePass(rules, q, Some(b)) == Some(b))
  {
    if rules != [] && !Applies(rules[0], q) { SavedOnlyLast(rules[1..], q, a, b); }
  }

  /** Adding a rule changes a verdict only if the new rule itself becomes the chosen one. */
  lemma AddChangesOnlyToNew(rules: seq<Rule>, r: Rule, q: Query)
    ensures OnePass([r] + rules, q) == OnePass(rules, q) || OnePass([r] + rules, q) == Some(r)
  {
    assert ([r] + rules)[1..] == rules;
    SavedMatters(rules, q, r);
  }

  /** For matching, a disabled rule is as good as absent. */
  lemma {:induction false} DisabledIsAbsent(rules: seq<Rule>, i: nat, q: Query, saved: Option<Rule> := None)
    requires i < |rules|
    ensures OnePass(rules[i := rules[i].(enabled := false)], q, saved) == OnePass(Without(rules, i), q, saved)
  {
    var off, gone := rules[i := rules[i].(enabled := false)], Without(rules, i);
    if i == 0 {
      assert off[1..] == gone;
    } else {
      assert off[0] == gone[0] == rules[0];
      assert off[1..] == rules[1..][i - 1 := rules[1..][i - 1].(enabled := false)];
      assert gone[1..] == rules[1..][..i - 1] + rules[1..][i..];
      if !Applies(rules[0], q) {
        DisabledIsAbsent(rules[1..], i - 1, q, if saved.None? && Fallback(rules[0], q) then Some(rules[0]) else saved);
      }
    }
  }

  /** The rules of a list for packets of one protocol, and for both. */
  function Speaking(rules: seq<Rule>, isTcp: bool): seq<Rule> {
    if rules == [] then []
    else
      var foreign := rules[0].protocol == if isTcp then UdpOnly else TcpOnly;
      (if foreign then [] else [rules[0]]) + Speaking(rules[1..], isTcp)
  }

  /** Dropping every rule for the other protocol, from any list, changes no verdict. */
  lemma {:induction false} OtherProtocolIsAbsent(rules: seq<Rule>, q: Query, saved: Option<Rule> := None)
    ensures OnePass(rules, q, saved) == OnePass(Speaking(rules, q.isTcp), q, saved)
  {
    if rules != [] {
      var keep := if saved.None? && Fallback(rules[0], q) then Some(rules[0]) else saved;
      OtherProtocolIsAbsent(rules[1..], q, keep);
      var rest := Speaking(rules[1..], q.isTcp);
      assert [] + rest == rest && ([rules[0]] + rest)[1..] == rest;
      hide FullWildcard, ProcessListMatches, IpListMatches, PortListMatches;
    }
  }

  lemma StarMatchesAll(path: string)
    ensures ProcessListMatches("*", path)
  {
  }

  // ---- Editing ----

  datatype Book = Book(rules: seq<Rule>, nextId: U32)

  const EMPTY_BOOK := Book([], 1)

  function OrStar(s: CString, max: nat): CString {
    if s == "" then "*" else Clip(s, max)
  }

  function NewRule(id: U32, process: CString, hosts: CString, ports: CString,
                   protocol: RuleProtocol, action: RuleAction, proxy: ProxyInfo): Rule {
    Rule(id, Clip(process, 255), OrStar(hosts, 1023), OrStar(ports, 255), protocol, action, proxy, true)
  }

  /** The texts of a rule are cut to their buffers; no hosts or no ports means all. */
  lemma FieldsAreCut(id: U32, process: CString, hosts: CString, ports: CString, protocol: RuleProtocol,
                     action: RuleAction, proxy: ProxyInfo)
    ensures var r := NewRule(id, process, hosts, ports, protocol, action, proxy);
      && r.id == id && r.enabled && r.protocol == protocol && r.action == action && r.proxy == proxy
      && r.process <= process && |r.process| == (if |process| < 255 then |process| else 255)
      && (if hosts == "" then r.hosts == "*" else r.hosts <= hosts && (r.hosts == hosts || |r.hosts| == 1023))
      && (if ports == "" then r.ports == "*" else r.ports <= ports && (r.ports == ports || |r.ports| == 255))
      && |r.hosts| <= 1023 && |r.ports| <= 255
  {
  }

  /** Position of the first rule with an id, or the length of the list. */
  function Position(rules: seq<Rule>, id: U32): (i: nat)
    ensures i <= |rules|
    ensures i < |rules| ==> rules[i].id == id
    ensures forall k :: 0 <= k < i ==> rules[k].id != id
  {
    if rules == [] || rules[0].id == id then 0 else Position(rules[1..], id) + 1
  }

  datatype Edit =
    | Add(process: CString, hosts: CString, ports: CString, protocol: RuleProtocol,
        action: RuleAction, proxy: ProxyInfo)
    | Remove(id: U32)
    | Enable(id: U32, on: bool)
    | ClearAll

  function Removed(rules: seq<Rule>, id: U32): seq<Rule> {
    var i := Position(rules, id);
    if id == 0 || i == |rules| then rules else Without(rules, i)
  }

  function Switched(rules: seq<Rule>, id: U32, on: bool): seq<Rule> {
    var i := Position(rules, id);
    if id == 0 || i == |rules| then rules else rules[i := rules[i].(enabled := on)]
  }

  function Apply(b: Book, e: Edit): Book {
    match e
    case Add(process, hosts, ports, protocol, action, proxy) =>
      if process == "" then b
      else Book([NewRule(b.nextId, process, hosts, ports, protocol, action, proxy)] + b.rules, (b.nextId + 1) % TWO_32)
    case Remove(id) => b.(rules := Removed(b.rules, id))
    case Enable(id, on) => b.(rules := Switched(b.rules, id, on))
    case ClearAll => b.(rules := [])
  }

  function Run(b: Book, es: seq<Edit>): Book {
    if es == [] then b else Apply(Run(b, es[..|es| - 1]), es[|es| - 1])
  }

  function Adds(es: seq<Edit>): nat {
    if es == [] then 0 else Adds(es[..|es| - 1]) + if es[|es| - 1].Add? then 1 else 0
  }

  predicate Ordered(b: Book) {
    && Decreasing(b.rules)
    && forall r :: r in b.rules ==> 1 <= r.id < b.nextId
  }

  lemma DropKeepsOrder(rules: seq<Rule>, i: nat)
    requires Decreasing(rules) && i < |rules|
    ensures Decreasing(Without(rules, i))
    ensures forall r {:trigger r in Without(rules, i)} :: r in Without(rules, i) ==> r in rules
  {
    var rs := Without(rules, i);
    forall a, b | 0 <= a < b < |rs| ensures rs[a].id > rs[b].id {
      assert rs[a] == rules[if a < i then a else a + 1] && rs[b] == rules[if b < i then b else b + 1];
    }
  }

  lemma AddKeepsOrder(b: Book, r: Rule)
    requires Ordered(b) && 1 <= b.nextId == r.id < TWO_32 - 1
    ensures Ordered(Book([r] + b.rules, b.nextId + 1))
  {
  }

  lemma RemoveKeepsOrder(b: Book, id: U32)
    requires Ordered(b)
    ensures Ordered(b.(rules := Removed(b.rules, id)))
  {
    var i := Position(b.rules, id);
    if id != 0 && i < |b.rules| { DropKeepsOrder(b.rules, i); }
  }

  lemma SwitchKeepsOrder(b: Book, id: U32, on: bool)
    requires Ordered(b)
    ensures Ordered(b.(rules := Switched(b.rules, id, on)))
  {
  }

  lemma ApplyKeepsOrder(b: Book, e: Edit)
    requires Ordered(b) && 1 <= b.nextId && (e.Add? ==> b.nextId < TWO_32 - 1)
    ensures Ordered(Apply(b, e))
    ensures b.nextId <= Apply(b, e).nextId <= b.nextId + (if e.Add? then 1 else 0)
  {
    match e
    case Add(process, hosts, ports, protocol, action, proxy) =>
      if process != "" {
        AddKeepsOrder(b, NewRule(b.nextId, process, hosts, ports, protocol, action, proxy));
      }
    case Remove(id) => RemoveKeepsOrder(b, id);
    case Enable(id, on) => SwitchKeepsOrder(b, id, on);
    case ClearAll =>
  }

  /** Over any history of fewer than 2^32 - 1 adds, ids are unique, nonzero, below the next id,
      and strictly decreasing along the list. */
  lemma {:induction false} IdsStayOrdered(es: seq<Edit>)
    requires Adds(es) < TWO_32 - 1
    ensures Ordered(Run(EMPTY_BOOK, es))
    ensures 1 <= Run(EMPTY_BOOK, es).nextId <= 1 + Adds(es)
  {
    if es != [] {
      var before := es[..|es| - 1];
      IdsStayOrdered(before);
      ApplyKeepsOrder(Run(EMPTY_BOOK, before), es[|es| - 1]);
    }
  }

  /** Disabling a rule is indistinguishable, for every packet, from removing it. */
  lemma DisableMatchesRemove(b: Book, id: U32, q: Query)
    ensures Verdict(Apply(b, Enable(id, false)).rules, q) == Verdict(Apply(b, Remove(id)).rules, q)
  {
    var i := Position(b.rules, id);
    if id != 0 && i < |b.rules| { DisabledIsAbsent(b.rules, i, q); }
  }

  /** While ids are in order, removing takes exactly the rule with this id away, and switching changes its
      flag alone. */
  lemma EditsReachOneRule(b: Book, id: U32, on: bool)
    requires Ordered(b)
    ensures forall r :: r in Apply(b, Remove(id)).rules <==> r in b.rules && r.id != id
    ensures var rules := Apply(b, Enable(id, on)).rules;
      |rules| == |b.rules| && forall i :: 0 <= i < |rules| ==>
        rules[i] == if b.rules[i].id == id then b.rules[i].(enabled := on) else b.rules[i]
  {
    var i := Position(b.rules, id);
    if id != 0 && i < |b.rules| { WithoutIsOthers(b.rules, i); }
    assert forall k :: 0 <= k < |b.rules| ==> b.rules[k] in b.rules;
    hide Position;
  }

  lemma WithoutIsOthers(rules: seq<Rule>, i: nat)
    requires Decreasing(rules) && i < |rules|
    ensures forall r {:trigger r in Without(rules, i)} :: r in Without(rules, i) <==> r in rules && r.id != rules[i].id
  {
    var rest := Without(rules, i);
    forall r ensures r in rest <==> r in rules && r.id != rules[i].id {
      if k :| 0 <= k < |rules| && rules[k] == r && r.id != rules[i].id {
        assert rest[if k < i then k else k - 1] == r;
      }
      if r in rest {
        var k :| 0 <= k < |rest| && rest[k] == r;
        assert r == rules[if k < i then k else k + 1];
      }
    }
  }

  lemma {:induction false} PositionKept(rules: seq<Rule>, id: U32, i: nat, on: bool)
    requires i < |rules|
    ensures Position(rules[i := rules[i].(enabled := on)], id) == Position(rules, id)
  {
    var t := rules[i := rules[i].(enabled := on)];
    if i > 0 {
      assert t[1..] == rules[1..][i - 1 := rules[1..][i - 1].(enabled := on)];
      PositionKept(rules[1..], id, i - 1, on);
    } else {
      assert t[1..] == rules[1..];
    }
  }

  /** Disabling and re-enabling a rule restores the list, and so every verdict. */
  lemma ReEnableRestores(b: Book, id: U32)
    requires Position(b.rules, id) < |b.rules| ==> b.rules[Position(b.rules, id)].enabled
    ensures Apply(Apply(b, Enable(id, false)), Enable(id, true)) == b
  {
    var i := Position(b.rules, id);
    if i < |b.rules| { PositionKept(b.rules, id, i, false); }
  }

  // ---- The list ----

  class RuleNode {
    const id: U32
    const process: CString
    const hosts: CString
    const ports: CString
    const protocol: RuleProtocol
    const action: RuleAction
    const proxy: ProxyInfo
    var enabled: bool
    var next: RuleNode?

    constructor (r: Rule, next: RuleNode?)
      ensures Stands(r, next)
    {
      id, process, hosts, ports, protocol := r.id, r.process, r.hosts, r.ports, r.protocol;
      action, proxy, enabled, this.next := r.action, r.proxy, r.enabled, next;
    }

    /** Whether the rule of this node decides at once, or only when no other rule does. */
    method Weigh(process: string, ip: U32, port: U16, isTcp: bool, ghost r: Rule) returns (hit: bool, last: bool)
      requires Stands(r, next)
      ensures hit <==> Applies(r, Query(process, ip, port, isTcp))
      ensures last <==> Fallback(r, Query(process, ip, port, isTcp))
    {
      StarMatchesAll(process);
      hide ProcessListMatches, IpListMatches, PortListMatches;
      if !enabled { return false, false; }
      if protocol != Both {
        if protocol == TcpOnly && !isTcp { return false, false; }
        if protocol == UdpOnly && isTcp { return false, false; }
      }
      if this.process == "*" && hosts == "*" && ports == "*" { return false, true; }
      hit, last := true, false;
      if this.process != "*" { hit := MatchProcessList(this.process, process); }
      if hit { hit := MatchIpList(hosts, ip); }
      if hit { hit := MatchPortList(ports, port); }
    }

    /** The node carries rule `r` and is followed by `next`. */
    ghost predicate Stands(r: Rule, next: RuleNode?)
      reads this
    {
      this.next == next && Rule(id, process, hosts, ports, protocol, action, proxy, enabled) == r
    }
  }

  ghost function Link(s: seq<RuleNode>, i: nat): RuleNode? {
    if i < |s| then s[i] else null
  }

  ghost predicate Distinct(s: seq<RuleNode>) {
    forall i, j :: 0 <= i < j < |s| ==> s[i] != s[j]
  }

  class Engine {
    var list: RuleNode?
    var nextId: U32
    var initialized: bool
    ghost var spine: seq<RuleNode>
    ghost var rules: seq<Rule>

    /** The nodes are pairwise distinct, linked in order, and spell out `rules`. */
    ghost predicate Valid()
      reads this, spine
    {
      && list == Link(spine, 0) && |spine| == |rules|
      && (forall i {:trigger spine[i]} :: 0 <= i < |spine| ==> spine[i].Stands(rules[i], Link(spine, i + 1)))
      && Distinct(spine)
      && (!initialized ==> rules == [])
    }

    constructor ()
      ensures Valid() && !initialized && Book(rules, nextId) == EMPTY_BOOK
    {
      list, nextId, initialized, spine, rules := null, 1, false, [], [];
    }

    method Init()
      requires Valid()
      modifies this
      ensures Valid() && initialized && spine == old(spine)
      ensures Book(rules, nextId) == if old(initialized) then Book(old(rules), old(nextId)) else EMPTY_BOOK
    {
      if initialized { return; }
      list, nextId, initialized := null, 1, true;
    }

    method Cleanup()
      requires Valid()
      modifies this
      ensures Valid() && !initialized && rules == [] && spine == []
    {
      if !initialized { return; }
      ClearRules();
      initialized := false;
    }

    /** A null `hosts` or `ports` behaves as the empty string, a null `proxy` as a zeroed one. */
    method AddRule(process: CString, hosts: CString, ports: CString, protocol: RuleProtocol,
                   action: RuleAction, proxy: Option<ProxyInfo>, memory: bool) returns (id: U32)
      requires Valid()
      modifies this
      ensures Valid() && initialized == old(initialized)
      ensures id == if initialized && memory && process != "" then old(nextId) else 0
      ensures if initialized && memory && process != ""
        then rules == [NewRule(id, process, hosts, ports, protocol, action,
             if proxy.Some? then proxy.value else NO_PROXY)] + old(rules)
          && nextId == (id + 1) % TWO_32
        else rules == old(rules) && nextId == old(nextId)
    {
      hide NewRule, Link, Distinct, RuleNode.Stands;
      if !initialized || process == "" { return 0; }
      if !memory { return 0; }
      id := nextId;
      nextId := (nextId + 1) % TWO_32;
      var r := NewRule(id, process, hosts, ports, protocol, action, if proxy.Some? then proxy.value else NO_PROXY);
      Prepend(r);
    }

    method Prepend(r: Rule)
      requires Valid() && initialized
      modifies this
      ensures Valid() && initialized && nextId == old(nextId) && rules == [r] + old(rules)
      ensures |spine| > 0 && fresh(spine[0]) && spine[1..] == old(spine)
    {
      hide RuleNode.Stands;
      ghost var before, was := spine, rules;
      var n := new RuleNode(r, list);
      list, spine, rules := n, [n] + before, [r] + was;
      forall i | 0 < i < |spine| ensures spine[i].Stands(rules[i], Link(spine, i + 1)) {
        assert spine[i] == before[i - 1] && rules[i] == was[i - 1];
        assert before[i - 1].Stands(was[i - 1], Link(before, i));
      }
    }

    method RemoveRule(id: U32) returns (removed: bool)
      requires Valid()
      modifies this, spine
      ensures Valid() && initialized == old(initialized)
      ensures var i := Position(old(rules), id); var found := id != 0 && i < |old(rules)|;
        removed == found && rules == if found then old(rules)[..i] + old(rules)[i + 1..] else old(rules)
      ensures nextId == old(nextId) && rules == Removed(old(rules), id)
    {
      if !initialized || id == 0 { return false; }
      var prev, n, at := Seek(id);
      if n == null { return false; }
      if prev == null { UnlinkHead(); } else { UnlinkAfter(prev, n, at); }
      return true;
    }

    /** The walk to the first node with an id, and the node before it. */
    method Seek(id: U32) returns (prev: RuleNode?, n: RuleNode?, ghost at: nat)
      requires Valid()
      ensures at == Position(rules, id) && n == Link(spine, at)
      ensures prev == if at == 0 then null else Link(spine, at - 1)
    {
      prev, n, at := null, list, 0;
      while n != null && n.id != id
        invariant at <= |spine| && n == Link(spine, at) && at <= Position(rules, id)
        invariant prev == if at == 0 then null else Link(spine, at - 1)
        decreases |spine| - at
      {
        assert spine[at].Stands(rules[at], Link(spine, at + 1));
        prev, n, at := n, n.next, at + 1;
      }
      if n != null { assert spine[at].Stands(rules[at], Link(spine, at + 1)); }
    }

    /** `*ptr = (*ptr)->next` at the head of the list. */
    method UnlinkHead()
      requires Valid() && initialized && list != null
      modifies this
      ensures Valid() && initialized && nextId == old(nextId)
      ensures spine == Without(old(spine), 0) && rules == Without(old(rules), 0)
    {
      ghost var before, was := spine, rules;
      list, spine, rules := list.next, Without(spine, 0), Without(rules, 0);
      forall i | 0 <= i < |spine| ensures spine[i].Stands(rules[i], Link(spine, i + 1)) {
        assert spine[i] == before[i + 1] && rules[i] == was[i + 1];
      }
    }

    /** `*ptr = (*ptr)->next` where `ptr` is the `next` field of `prev`. */
    method UnlinkAfter(prev: RuleNode, n: RuleNode, ghost at: nat)
      requires Valid() && initialized && 0 < at < |spine| && prev == spine[at - 1] && n == spine[at]
      modifies this, prev
      ensures Valid() && initialized && nextId == old(nextId)
      ensures spine == Without(old(spine), at)
      ensures rules == Without(old(rules), at)
    {
      hide RuleNode.Stands;
      PointPast(prev, n, at);
      ghost var before, was := spine, rules;
      spine, rules := Without(before, at), Without(was, at);
      Spliced(before, was, at);
    }

    method PointPast(prev: RuleNode, n: RuleNode, ghost at: nat)
      requires Valid() && 0 < at < |spine| && prev == spine[at - 1] && n == spine[at]
      modifies prev`next
      ensures forall o {:trigger spine[o]} :: 0 <= o < |spine| && o != at - 1 ==>
        spine[o].Stands(rules[o], Link(spine, o + 1))
      ensures prev.Stands(rules[at - 1], Link(spine, at + 1))
    {
      hide Link;
      assert n.Stands(rules[at], Link(spine, at + 1)) && prev.Stands(rules[at - 1], Link(spine, at));
      prev.next := n.next;
      forall o | 0 <= o < |spine| && o != at - 1 ensures spine[o].Stands(rules[o], Link(spine, o + 1)) {
        assert old(spine[o].Stands(rules[o], Link(spine, o + 1)));
        assert spine[o] != prev;
      }
    }

    /** The remaining nodes are linked once the one before position `at` points past it. */
    lemma Spliced(before: seq<RuleNode>, was: seq<Rule>, at: nat)
      requires 0 < at < |before| == |was| && spine == Without(before, at) && rules == Without(was, at)
      requires forall o {:trigger before[o]} :: 0 <= o < |before| && o != at - 1 ==>
        before[o].Stands(was[o], Link(before, o + 1))
      requires before[at - 1].Stands(was[at - 1], Link(before, at + 1))
      ensures forall i {:trigger spine[i]} :: 0 <= i < |spine| ==> spine[i].Stands(rules[i], Link(spine, i + 1))
    {
      hide RuleNode.Stands;
      forall i | 0 <= i < |spine| ensures spine[i].Stands(rules[i], Link(spine, i + 1)) {
        var o := if i < at then i else i + 1;
        assert before[o] == spine[i];
      }
    }

    method EnableRule(id: U32, enable: bool) returns (found: bool)
      requires Valid()
      modifies this, spine
      ensures Valid() && initialized == old(initialized) && spine == old(spine)
      ensures var i := Position(old(rules), id);
        && (found <==> id != 0 && i < |old(rules)|)
        && rules == if found then old(rules)[i := old(rules)[i].(enabled := enable)] else old(rules)
      ensures nextId == old(nextId) && rules == Switched(old(rules), id, enable)
    {
      if !initialized || id == 0 { return false; }
      var n := list;
      ghost var at := 0;
      while n != null
        invariant at <= |spine| && n == Link(spine, at) && at <= Position(rules, id)
        decreases |spine| - at
      {
        assert spine[at].Stands(rules[at], Link(spine, at + 1));
        if n.id == id {
          SetEnabled(n, at, enable);
          return true;
        }
        n, at := n.next, at + 1;
      }
      return false;
    }

    method SetEnabled(n: RuleNode, ghost at: nat, enable: bool)
      requires Valid() && initialized && at < |spine| && n == spine[at]
      modifies n`enabled, this`rules
      ensures Valid() && rules == old(rules)[at := old(rules)[at].(enabled := enable)]
    {
      ghost var was := rules;
      n.enabled := enable;
      rules := was[at := was[at].(enabled := enable)];
      forall i | 0 <= i < |spine| ensures spine[i].Stands(rules[i], Link(spine, i + 1)) {
        assert old(spine[i].Stands(was[i], Link(spine, i + 1)));
      }
    }

    method ClearRules()
      requires Valid()
      modifies this
      ensures Valid() && initialized == old(initialized)
      ensures rules == [] && spine == [] && nextId == old(nextId)
    {
      if !initialized { return; }
      while list != null
        invariant Valid() && initialized && nextId == old(nextId)
        decreases |spine|
      {
        UnlinkHead();
      }
    }

    method Match(process: string, ip: U32, port: U16, isTcp: bool) returns (action: RuleAction, proxy: ProxyInfo)
      requires Valid()
      ensures (action, proxy) == Verdict(rules, Query(process, ip, port, isTcp))
    {
      if !initialized { return Direct, NO_PROXY; }
      hide Applies, Fallback, Distinct;
      ghost var q := Query(process, ip, port, isTcp);
      var n, wildcard: RuleNode? := list, null;
      ghost var at: nat, saved: Option<Rule> := 0, None;
      while n != null
        invariant at <= |spine| && n == Link(spine, at)
        invariant if wildcard == null then saved == None
                  else saved.Some? && wildcard.action == saved.value.action && wildcard.proxy == saved.value.proxy
        invariant OnePass(rules, q) == OnePass(rules[at..], q, saved)
        decreases |spine| - at
      {
        ghost var r := rules[at];
        assert n.Stands(r, Link(spine, at + 1));
        assert rules[at..][0] == r && rules[at..][1..] == rules[at + 1..];
        var hit, last := n.Weigh(process, ip, port, isTcp, r);
        if hit { return n.action, n.proxy; }
        if last && wildcard == null { wildcard, saved := n, Some(r); }
        n, at := n.next, at + 1;
      }
      if wildcard != null { return wildcard.action, wildcard.proxy; }
      return Direct, NO_PROXY;
    }
  }
}
