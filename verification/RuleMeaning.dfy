/** What a rule list means, said of its text: names, addresses, ports, protocol and order. */
module RuleMeaning {
  import opened CTypes
  import opened CStrings
  import opened RulePatterns
  import opened RuleEngine

  /** A rule as a user writes it, with what its three texts list; `None` lists everything. */
  datatype Written = Written(process: CString, hosts: CString, ports: CString,
                             names: seq<string>, ips: Option<seq<IpItem>>, items: Option<seq<PortItem>>,
                             protocol: RuleProtocol, action: RuleAction, proxy: ProxyInfo)

  // ---- Texts ----

  /** Patterns with at most one star each, with blanks around them, between commas or semicolons. */
  ghost predicate SpellsNames(text: string, names: seq<string>) {
    exists pieces: seq<string>, sep {:trigger Join(pieces, sep)} ::
      && pieces != [] && |pieces| == |names| && sep in ",;" && text == Join(pieces, sep)
      && forall i {:trigger names[i]} :: 0 <= i < |names| ==> ListedPattern(names[i]) && Pads(pieces[i], names[i], true)
  }

  /** Octet patterns, with blanks before them, between semicolons. */
  ghost predicate SpellsIps(text: string, ips: seq<IpItem>) {
    exists pieces: seq<string> {:trigger Join(pieces, ';')} ::
      && pieces != [] && |pieces| == |ips| && text == Join(pieces, ';')
      && forall i {:trigger ips[i]} :: 0 <= i < |ips| ==> Pads(pieces[i], PrintIp(ips[i]), false)
  }

  /** Ports and ranges, with blanks before them, between commas or semicolons. */
  ghost predicate SpellsPorts(text: string, items: seq<PortItem>) {
    exists pieces: seq<string>, sep {:trigger Join(pieces, sep)} ::
      && pieces != [] && |pieces| == |items| && sep in ",;" && text == Join(pieces, sep)
      && forall i {:trigger items[i]} :: 0 <= i < |items| ==> Pads(pieces[i], PrintPort(items[i]), false)
  }

  /** The texts list what they should and fit their buffers. */
  ghost predicate Legible(w: Written) {
    && SpellsNames(w.process, w.names) && |w.process| <= 255
    && (if w.ips.None? then w.hosts in {"", "*"}
        else SpellsIps(w.hosts, w.ips.value) && w.hosts != "*" && |w.hosts| <= 1023)
    && (if w.items.None? then w.ports in {"", "*"}
        else SpellsPorts(w.ports, w.items.value) && w.ports != "*" && |w.ports| <= 255)
  }

  // ---- Meaning ----

  /** A pattern with a separator is a glob for the whole path, any other one for what follows the last
      separator. */
  ghost predicate NameMeets(pattern: string, path: string) {
    if '\\' in pattern || '/' in pattern then Glob(pattern, path)
    else exists at :: 0 <= at <= |path| && FileAt(path, at) && Glob(pattern, path[at..])
  }

  predicate FileAt(path: string, at: nat)
    requires at <= |path|
  {
    (at == 0 || path[at - 1] in "\\/") && forall k :: at <= k < |path| ==> path[k] !in "\\/"
  }

  ghost predicate Meets(w: Written, q: Query) {
    && (match w.protocol case TcpOnly => q.isTcp case UdpOnly => !q.isTcp case Both => true)
    && NameListed(w, q) && HostListed(w, q) && PortListed(w, q)
  }

  ghost predicate NameListed(w: Written, q: Query) {
    exists i :: 0 <= i < |w.names| && NameMeets(w.names[i], q.process)
  }

  predicate HostListed(w: Written, q: Query) {
    w.ips.Some? ==> exists p :: p in w.ips.value && IpIn(p, q.ip)
  }

  predicate PortListed(w: Written, q: Query) {
    w.items.Some? ==> exists p :: p in w.items.value && PortIn(p, q.port)
  }

  /** A rule for everything gives way to all others. */
  predicate CatchAll(w: Written) {
    w.process == "*" && w.ips.None? && w.items.None?
  }

  ghost predicate Chosen(ws: seq<Written>, q: Query, last: bool, i: nat) {
    i < |ws| && Meets(ws[i], q) && CatchAll(ws[i]) == last
  }

  /** Rule `i` is the latest one that meets the packet, among those for everything or among the others. */
  ghost predicate Latest(ws: seq<Written>, q: Query, last: bool, i: nat) {
    Chosen(ws, q, last, i) && forall k :: i < k < |ws| ==> !Chosen(ws, q, last, k)
  }

  /** The latest rule that meets the packet answers, a rule for everything only if no other does; DIRECT
      when none meets it. */
  ghost predicate IsAnswer(ws: seq<Written>, q: Query, answer: (RuleAction, ProxyInfo)) {
    if exists k :: 0 <= k < |ws| && Chosen(ws, q, false, k) then
      exists i :: 0 <= i < |ws| && Latest(ws, q, false, i) && answer == (ws[i].action, ws[i].proxy)
    else if exists k :: 0 <= k < |ws| && Chosen(ws, q, true, k) then
      exists i :: 0 <= i < |ws| && Latest(ws, q, true, i) && answer == (ws[i].action, ws[i].proxy)
    else answer == (Direct, NO_PROXY)
  }

  // ---- The engine computes the meaning ----

  function AddOf(w: Written): Edit { Add(w.process, w.hosts, w.ports, w.protocol, w.action, w.proxy) }

  lemma NameMeetsTarget(pattern: string, path: string)
    ensures NameMeets(pattern, path) <==> Glob(pattern, Target(pattern, path))
  {
    hide Glob;
    var at := FileBegins(path);
    forall o | 0 <= o <= |path| && FileAt(path, o) ensures o == at {
      FileBeginsOnce(path, o, at);
    }
    hide FileAt, Filename;
  }

  lemma FileBegins(path: string) returns (at: nat)
    ensures at <= |path| && FileAt(path, at) && path[at..] == Filename(path)
  {
    var backslash, slash := LastIndexOf(path, '\\'), LastIndexOf(path, '/');
    hide LastIndexOf;
    at := (if backslash > slash then backslash else slash) + 1;
  }

  lemma FileBeginsOnce(path: string, a: nat, b: nat)
    requires a <= |path| && b <= |path| && FileAt(path, a) && FileAt(path, b)
    ensures a == b
  {
    assert a > 0 ==> path[a - 1] in "\\/";
    assert b > 0 ==> path[b - 1] in "\\/";
  }

  lemma NamesMatch(w: Written, q: Query)
    requires SpellsNames(w.process, w.names)
    ensures w.process != ""
    ensures ProcessListMatches(w.process, q.process) <==> NameListed(w, q)
  {
    hide Join, ListedPattern, Pads, ProcessListMatches, Glob, Target, NameMeets;
    var pieces: seq<string>, sep :| pieces != [] && |pieces| == |w.names| && sep in ",;"
      && w.process == Join(pieces, sep)
      && forall i {:trigger w.names[i]} :: 0 <= i < |w.names| ==>
           ListedPattern(w.names[i]) && Pads(pieces[i], w.names[i], true);
    ProcessListIsGlobUnion(pieces, w.names, sep, q.process);
    forall i | 0 <= i < |pieces| ensures Token(pieces[i], ",;") {
      ListedPatternIsGlob(pieces[i], w.names[i], "");
    }
    NotWild(pieces, sep, ",;");
    forall i | 0 <= i < |w.names|
      ensures NameMeets(w.names[i], q.process) <==> Glob(w.names[i], Target(w.names[i], q.process))
    {
      NameMeetsTarget(w.names[i], q.process);
    }
  }

  lemma HostsMatch(w: Written, q: Query)
    requires if w.ips.None? then w.hosts in {"", "*"} else SpellsIps(w.hosts, w.ips.value) && w.hosts != "*"
    ensures w.hosts in {"", "*"} <==> w.ips.None?
    ensures IpListMatches(OrStar(w.hosts, |w.hosts|), q.ip) <==> HostListed(w, q)
  {
    hide Join, Pads, IpIn, Tokens;
    if w.ips.Some? {
      var pieces: seq<string> :| pieces != [] && |pieces| == |w.ips.value| && w.hosts == Join(pieces, ';')
        && forall i {:trigger w.ips.value[i]} :: 0 <= i < |w.ips.value| ==>
             Pads(pieces[i], PrintIp(w.ips.value[i]), false);
      PrintedIpsDecideUnion(pieces, w.ips.value, q.ip);
      hide IpListMatches;
    }
  }

  lemma PortsMatch(w: Written, q: Query)
    requires if w.items.None? then w.ports in {"", "*"} else SpellsPorts(w.ports, w.items.value) && w.ports != "*"
    ensures w.ports in {"", "*"} <==> w.items.None?
    ensures PortListMatches(OrStar(w.ports, |w.ports|), q.port) <==> PortListed(w, q)
  {
    hide Join, Pads, PortIn, Tokens;
    if w.items.Some? {
      var pieces: seq<string>, sep :| pieces != [] && |pieces| == |w.items.value| && sep in ",;"
        && w.ports == Join(pieces, sep)
        && forall i {:trigger w.items.value[i]} :: 0 <= i < |w.items.value| ==>
             Pads(pieces[i], PrintPort(w.items.value[i]), false);
      PrintedPortsDecideUnion(pieces, w.items.value, sep, q.port);
      hide PortListMatches;
    }
  }

  function Stored(w: Written, id: U32): Rule {
    NewRule(id, w.process, w.hosts, w.ports, w.protocol, w.action, w.proxy)
  }

  lemma StoredAsWritten(w: Written, id: U32)
    requires Legible(w)
    ensures Stored(w, id)
         == Rule(id, w.process, OrStar(w.hosts, |w.hosts|), OrStar(w.ports, |w.ports|),
                 w.protocol, w.action, w.proxy, true)
  {
    hide SpellsNames, SpellsIps, SpellsPorts;
  }

  lemma StoredListsMatch(w: Written, id: U32, q: Query)
    requires Legible(w)
    ensures ProcessListMatches(w.process, q.process) <==> NameListed(w, q)
    ensures IpListMatches(Stored(w, id).hosts, q.ip) <==> HostListed(w, q)
    ensures PortListMatches(Stored(w, id).ports, q.port) <==> PortListed(w, q)
    ensures FullWildcard(Stored(w, id)) <==> CatchAll(w)
    ensures FullWildcard(Stored(w, id)) ==> NameListed(w, q) && HostListed(w, q) && PortListed(w, q)
  {
    NamesMatch(w, q);
    HostsMatch(w, q);
    PortsMatch(w, q);
    StarMatchesAll(q.process);
    StoredAsWritten(w, id);
    hide Stored, ProcessListMatches, IpListMatches, PortListMatches, NameListed, SpellsNames, SpellsIps, SpellsPorts;
  }

  /** A written rule, once stored, decides the packets it meets. */
  lemma StoredRuleMeets(w: Written, id: U32, q: Query)
    requires Legible(w)
    ensures (Stored(w, id).action, Stored(w, id).proxy) == (w.action, w.proxy)
    ensures Applies(Stored(w, id), q) <==> Meets(w, q) && !CatchAll(w)
    ensures Fallback(Stored(w, id), q) <==> Meets(w, q) && CatchAll(w)
  {
    StoredAsWritten(w, id);
    StoredListsMatch(w, id, q);
    hide Legible, Stored, FullWildcard, CatchAll, ProcessListMatches, IpListMatches, PortListMatches;
    hide NameListed, HostListed, PortListed;
  }

  /** The list after adding rules one by one: the latest in front. */
  lemma {:induction false} AddsPrepend(ws: seq<Written>) returns (ids: seq<U32>)
    requires forall i :: 0 <= i < |ws| ==> ws[i].process != ""
    ensures |ids| == |ws|
    ensures var rules := Run(EMPTY_BOOK, seq(|ws|, i requires 0 <= i < |ws| => AddOf(ws[i]))).rules;
      |rules| == |ws| && forall k :: 0 <= k < |ws| ==>
        rules[k] == Stored(ws[|ws| - 1 - k], ids[k])
  {
    hide NewRule;
    var es := seq(|ws|, i requires 0 <= i < |ws| => AddOf(ws[i]));
    if ws == [] {
      ids := [];
    } else {
      var init := ws[..|ws| - 1];
      var rest := AddsPrepend(init);
      var es' := seq(|init|, i requires 0 <= i < |init| => AddOf(init[i]));
      assert es[..|es| - 1] == es';
      var b := Run(EMPTY_BOOK, es');
      ids := [b.nextId] + rest;
      var rules := Run(EMPTY_BOOK, es).rules;
      assert rules[1..] == b.rules;
      forall k | 0 <= k < |ws| ensures rules[k] == Stored(ws[|ws| - 1 - k], ids[k])
      {
        if k > 0 { assert rules[k] == b.rules[k - 1] && ws[|ws| - 1 - k] == init[|init| - 1 - (k - 1)]; }
      }
    }
  }

  /** Rules added as texts decide every packet as their texts say: the engine's verdict is the answer of
      the latest rule that meets the packet, a rule for everything coming last. */
  lemma RulesMeanWhatTheySay(ws: seq<Written>, q: Query, answer: (RuleAction, ProxyInfo))
    requires forall i {:trigger ws[i]} :: 0 <= i < |ws| ==> Legible(ws[i])
    ensures IsAnswer(ws, q, answer)
       <==> answer == Verdict(Run(EMPTY_BOOK, seq(|ws|, i requires 0 <= i < |ws| => AddOf(ws[i]))).rules, q)
  {
    forall i | 0 <= i < |ws| ensures ws[i].process != "" {
      NamesMatch(ws[i], q);
    }
    hide Legible, Meets, CatchAll, Stored;
    var ids := AddsPrepend(ws);
    var rules := Run(EMPTY_BOOK, seq(|ws|, i requires 0 <= i < |ws| => AddOf(ws[i]))).rules;
    forall k | 0 <= k < |ws|
      ensures (rules[k].action, rules[k].proxy) == (ws[|ws| - 1 - k].action, ws[|ws| - 1 - k].proxy)
      ensures Eligible(rules[k], q, false) <==> Chosen(ws, q, false, |ws| - 1 - k)
      ensures Eligible(rules[k], q, true) <==> Chosen(ws, q, true, |ws| - 1 - k)
    {
      StoredRuleMeets(ws[|ws| - 1 - k], ids[k], q);
    }
    hide Run, Eligible, Chosen;
    ChoiceIsAnswer(rules, ws, q, answer);
  }

  /** `rules` are the stored forms of `ws`, in reverse. */
  ghost predicate Mirrors(rules: seq<Rule>, ws: seq<Written>, q: Query) {
    && |rules| == |ws|
    && forall k {:trigger rules[k]} :: 0 <= k < |ws| ==>
         && (rules[k].action, rules[k].proxy) == (ws[|ws| - 1 - k].action, ws[|ws| - 1 - k].proxy)
         && (Eligible(rules[k], q, false) <==> Chosen(ws, q, false, |ws| - 1 - k))
         && (Eligible(rules[k], q, true) <==> Chosen(ws, q, true, |ws| - 1 - k))
  }

  lemma SomeIsAny(rules: seq<Rule>, ws: seq<Written>, q: Query, last: bool)
    requires Mirrors(rules, ws, q)
    ensures RuleEngine.Any(rules, q, last) <==> exists k :: 0 <= k < |ws| && Chosen(ws, q, last, k)
  {
    hide Eligible, Chosen;
    if k :| 0 <= k < |ws| && Chosen(ws, q, last, k) {
      assert Eligible(rules[|ws| - 1 - k], q, last);
    }
    if RuleEngine.Any(rules, q, last) {
      var k :| 0 <= k < |rules| && Eligible(rules[k], q, last);
      assert Chosen(ws, q, last, |ws| - 1 - k);
    }
  }

  lemma NewestIsLatest(rules: seq<Rule>, ws: seq<Written>, q: Query, last: bool, r: Rule) returns (i: nat)
    requires Mirrors(rules, ws, q) && Newest(rules, q, last, r)
    ensures i < |ws| && Latest(ws, q, last, i) && (r.action, r.proxy) == (ws[i].action, ws[i].proxy)
  {
    hide Eligible, Chosen;
    var k :| 0 <= k < |rules| && NewestAt(rules, q, last, k) && rules[k] == r;
    i := |ws| - 1 - k;
    forall j | i < j < |ws| ensures !Chosen(ws, q, last, j) {
      assert !Eligible(rules[|ws| - 1 - j], q, last);
    }
    assert Chosen(ws, q, last, |ws| - 1 - k);
  }

  lemma LatestIsOne(ws: seq<Written>, q: Query, last: bool, i: nat, j: nat)
    requires Latest(ws, q, last, i) && Latest(ws, q, last, j)
    ensures i == j
  {
    hide Meets, CatchAll;
    assert Chosen(ws, q, last, i) && Chosen(ws, q, last, j);
    assert i < j ==> !Chosen(ws, q, last, j);
  }

  lemma ChoiceIsAnswer(rules: seq<Rule>, ws: seq<Written>, q: Query, answer: (RuleAction, ProxyInfo))
    requires Mirrors(rules, ws, q)
    ensures IsAnswer(ws, q, answer) <==> answer == Verdict(rules, q)
  {
    var c := OnePass(rules, q);
    VerdictIsDocumentedChoice(rules, q, c);
    SomeIsAny(rules, ws, q, false);
    SomeIsAny(rules, ws, q, true);
    hide Mirrors, RuleEngine.Any, Newest, Chosen, Latest, OnePass;
    if c.Some? {
      var last := !RuleEngine.Any(rules, q, false);
      var i := NewestIsLatest(rules, ws, q, last, c.value);
      if IsAnswer(ws, q, answer) {
        var j :| 0 <= j < |ws| && Latest(ws, q, last, j) && answer == (ws[j].action, ws[j].proxy);
        LatestIsOne(ws, q, last, i, j);
      }
    }
  }

  /** A rule that blocks a program by name over TCP blocks its TCP packets, whatever its directory, and leaves its
      datagrams alone. */
  lemma TcpRuleSparesDatagrams(name: CString, dir: string, ip: U32, port: U16, isTcp: bool)
    requires ListedPattern(name) && |name| <= 255 && '*' !in name && '\\' !in name && '/' !in name
    requires dir == "" || dir[|dir| - 1] in "\\/"
    ensures var w := Written(name, "", "*", [name], None, None, TcpOnly, Block, NO_PROXY);
      Verdict(Run(EMPTY_BOOK, [AddOf(w)]).rules, Query(dir + name, ip, port, isTcp))
      == (if isTcp then Block else Direct, NO_PROXY)
  {
    var w := Written(name, "", "*", [name], None, None, TcpOnly, Block, NO_PROXY);
    var q := Query(dir + name, ip, port, isTcp);
    NameIsLegible(w, name);
    NameMeetsItself(name, dir);
    assert w.names[0] == name && NameListed(w, q) && !CatchAll(w) && HostListed(w, q) && PortListed(w, q);
    hide Run, Legible, NameListed, HostListed, PortListed, CatchAll;
    LoneRuleAnswers(w, q);
  }

  lemma LoneRuleAnswers(w: Written, q: Query)
    requires Legible(w) && !CatchAll(w)
    ensures Verdict(Run(EMPTY_BOOK, [AddOf(w)]).rules, q)
         == if Meets(w, q) then (w.action, w.proxy) else (Direct, NO_PROXY)
  {
    hide Run, Legible, Meets, CatchAll;
    var ws := [w];
    assert ws[0] == w && seq(1, i requires 0 <= i < 1 => AddOf(ws[i])) == [AddOf(w)];
    assert Chosen(ws, q, false, 0) <==> Meets(w, q);
    assert !Chosen(ws, q, true, 0);
    if Meets(w, q) { assert Latest(ws, q, false, 0); }
    RulesMeanWhatTheySay(ws, q, if Meets(w, q) then (w.action, w.proxy) else (Direct, NO_PROXY));
  }

  lemma NameIsLegible(w: Written, name: CString)
    requires ListedPattern(name) && |name| <= 255
    requires w == Written(name, "", "*", [name], None, None, TcpOnly, Block, NO_PROXY)
    ensures Legible(w)
  {
    hide ListedPattern;
    assert Join([name], ';') == name && name[0..|name|] == name && name[..0] == name[|name|..] == "";
    assert Pads([name][0], name, true);
    assert w.names[0] == name;
  }

  lemma NameMeetsItself(name: string, dir: string)
    requires '*' !in name && '\\' !in name && '/' !in name
    requires dir == "" || dir[|dir| - 1] in "\\/"
    ensures NameMeets(name, dir + name)
  {
    hide Glob;
    var path := dir + name;
    assert path[|dir|..] == name;
    forall k | |dir| <= k < |path| ensures path[k] !in "\\/" {
      assert path[k] == name[k - |dir|] && path[k] in name;
    }
    assert FileAt(path, |dir|);
    GlobLiteral(name, name);
  }
}
