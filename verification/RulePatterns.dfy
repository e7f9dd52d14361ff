/** The pattern languages of a rule: process globs, IPv4 octet patterns, ports and port ranges. */
module RulePatterns {
  import opened CTypes
  import opened CStrings

  // ---- Process names ----

  function Filename(path: string): string {
    var backslash, slash := LastIndexOf(path, '\\'), LastIndexOf(path, '/');
    var last := if backslash > slash then backslash else slash;
    if last >= 0 then path[last + 1..] else path
  }

  /** What a pattern is compared with: a pattern with a separator is matched against the full path. */
  function Target(pattern: string, path: string): string {
    if '\\' in pattern || '/' in pattern then path else Filename(path)
  }

  predicate MatchProcessPattern(pattern: string, path: string) {
    var target, n := Target(pattern, path), |pattern|;
    if pattern == "*" then true
    else if n > 0 && pattern[n - 1] == '*' then PrefixNoCase(pattern, target, n - 1)
    else if n > 1 && pattern[0] == '*' then
      |target| >= n - 1 && EqNoCase(target[|target| - (n - 1)..], pattern[1..])
    else
      var star := IndexOf(pattern, '*');
      if star < n then
        var suffix := pattern[star + 1..];
        && PrefixNoCase(pattern, target, star)
        && |target| >= star + |suffix|
        && EqNoCase(target[|target| - |suffix|..], suffix)
      else EqNoCase(pattern, target)
  }

  /** Glob matching: a star stands for any text, other characters for themselves up to case. */
  ghost predicate Glob(pattern: string, target: string) {
    if pattern == "" then target == ""
    else if pattern[0] == '*' then exists k :: 0 <= k <= |target| && Glob(pattern[1..], target[k..])
    else target != "" && SameLetter(pattern[0], target[0]) && Glob(pattern[1..], target[1..])
  }

  lemma {:induction false} GlobLiteral(pattern: string, target: string)
    requires '*' !in pattern
    ensures Glob(pattern, target) <==> EqNoCase(pattern, target)
  {
    if pattern != "" {
      assert pattern[0] in pattern && forall c :: c in pattern[1..] ==> c in pattern;
      if target != "" {
        GlobLiteral(pattern[1..], target[1..]);
        Uncons(pattern, target);
        LowerFolds(pattern[0], target[0]);
      }
    }
  }

  lemma Uncons(a: string, b: string)
    requires a != "" && b != ""
    ensures EqNoCase(a, b) <==> Lower(a[0]) == Lower(b[0]) && EqNoCase(a[1..], b[1..])
  {
    if Lower(a[0]) == Lower(b[0]) && EqNoCase(a[1..], b[1..]) {
      forall i | 0 <= i < |a| ensures Lower(a[i]) == Lower(b[i]) {
        if i > 0 { assert a[i] == a[1..][i - 1] && b[i] == b[1..][i - 1]; }
      }
    }
  }

  /** One literal step of a glob. */
  lemma GlobCons(c: char, rest: string, target: string)
    requires c != '*'
    ensures Glob([c] + rest, target) <==> target != "" && SameLetter(c, target[0]) && Glob(rest, target[1..])
  {
    assert ([c] + rest)[1..] == rest;
  }

  /** A star and then literal text. */
  lemma GlobAnyThen(suffix: string, target: string)
    requires '*' !in suffix
    ensures Glob("*" + suffix, target) <==>
      |target| >= |suffix| && EqNoCase(target[|target| - |suffix|..], suffix)
  {
    var p := "*" + suffix;
    assert p[0] == '*' && p[1..] == suffix;
    if Glob(p, target) {
      var k :| 0 <= k <= |target| && Glob(suffix, target[k..]);
      GlobLiteral(suffix, target[k..]);
    }
    if |target| >= |suffix| {
      GlobLiteral(suffix, target[|target| - |suffix|..]);
    }
  }

  /** With one star, a glob is a prefix, anything, and a suffix. */
  lemma {:induction false} GlobOneStar(prefix: string, suffix: string, target: string)
    requires '*' !in prefix && '*' !in suffix
    ensures Glob(prefix + "*" + suffix, target) <==>
      && |target| >= |prefix| + |suffix|
      && EqNoCase(prefix, target[..|prefix|])
      && EqNoCase(target[|target| - |suffix|..], suffix)
  {
    hide Glob, EqNoCase;
    if prefix == "" {
      NothingMatches(target);
      assert prefix + "*" + suffix == "*" + suffix;
      GlobAnyThen(suffix, target);
    } else {
      assert prefix[0] in prefix && forall c :: c in prefix[1..] ==> c in prefix;
      var rest := prefix[1..] + "*" + suffix;
      assert prefix + "*" + suffix == [prefix[0]] + rest;
      GlobCons(prefix[0], rest, target);
      if target != "" {
        LowerFolds(prefix[0], target[0]);
        GlobOneStar(prefix[1..], suffix, target[1..]);
        if |target| >= |prefix| + |suffix| {
          Uncons(prefix, target[..|prefix|]);
          assert target[..|prefix|][1..] == target[1..][..|prefix| - 1];
          assert target[|target| - |suffix|..] == target[1..][|target| - 1 - |suffix|..];
        }
      }
    }
  }

  lemma NothingMatches(target: string)
    ensures EqNoCase("", target[..0])
  {
  }

  /** Pattern `p` has its only star at `k`. */
  predicate OneStar(p: string, k: nat) {
    k < |p| && p[k] == '*' && '*' !in p[..k] && '*' !in p[k + 1..]
  }

  lemma LiteralPatternIsGlob(pattern: string, path: string)
    requires '*' !in pattern
    ensures MatchProcessPattern(pattern, path) <==> Glob(pattern, Target(pattern, path))
  {
    GlobLiteral(pattern, Target(pattern, path));
    assert pattern != "" ==> pattern[0] in pattern && pattern[|pattern| - 1] in pattern;
  }

  /** For every pattern with exactly one star, the branch-by-branch matcher is glob matching. */
  lemma OneStarPatternIsGlob(pattern: string, path: string, k: nat)
    requires OneStar(pattern, k)
    ensures MatchProcessPattern(pattern, path) <==> Glob(pattern, Target(pattern, path))
  {
    assert pattern == pattern[..k] + "*" + pattern[k + 1..];
    GlobOneStar(pattern[..k], pattern[k + 1..], Target(pattern, path));
    StarAt(pattern, k);
  }

  lemma StarAt(pattern: string, k: nat)
    requires OneStar(pattern, k)
    ensures IndexOf(pattern, '*') == k
    ensures pattern[0] == '*' <==> k == 0
    ensures pattern[|pattern| - 1] == '*' <==> k == |pattern| - 1
  {
    hide IndexOf;
    var a, b := pattern[..k], pattern[k + 1..];
    assert pattern == a + ['*'] + b;
    IndexOfSplit(a, '*', b);
    if k > 0 { assert pattern[0] == a[0]; }
    if b != "" { assert pattern[|pattern| - 1] == b[|b| - 1]; }
  }

  predicate ProcessListMatches(list: string, path: string) {
    || list == "" || list == "*"
    || var ts := Tokens(list, ",;");
       exists i :: 0 <= i < |ts| && MatchProcessPattern(TrimEnd(SkipBlanks(ts[i])), path)
  }

  /** A pattern that can stand in a list as it is: at most one star, no separator inside, no blank
      at either end. */
  predicate ListedPattern(p: string) {
    && Token(p, ",;") && p[0] !in " \t" && p[|p| - 1] !in " \t"
    && ('*' !in p || OneStar(p, IndexOf(p, '*')))
  }

  lemma ListedPatternIsGlob(piece: string, p: string, path: string)
    requires ListedPattern(p) && Pads(piece, p, true)
    ensures Token(piece, ",;") && TrimEnd(SkipBlanks(piece)) == p && (piece == "*" ==> p == "*")
    ensures MatchProcessPattern(p, path) <==> Glob(p, Target(p, path))
  {
    PaddedToken(piece, p, true, ",;");
    TrimmedPads(piece, p, true);
    if '*' in p {
      OneStarPatternIsGlob(p, path, IndexOf(p, '*'));
    } else {
      LiteralPatternIsGlob(p, path);
    }
    hide MatchProcessPattern, Glob, Target;
  }

  lemma StarMatches(path: string)
    ensures MatchProcessPattern("*", path)
  {
  }

  /** A list of patterns with at most one star each, padded with blanks on both sides and separated by
      commas or semicolons, matches exactly the union of their globs. */
  lemma ProcessListIsGlobUnion(pieces: seq<string>, names: seq<string>, sep: char, path: string)
    requires pieces != [] && |names| == |pieces| && sep in ",;"
    requires forall i {:trigger names[i]} :: 0 <= i < |names| ==>
      ListedPattern(names[i]) && Pads(pieces[i], names[i], true)
    ensures ProcessListMatches(Join(pieces, sep), path) <==>
      exists i :: 0 <= i < |names| && Glob(names[i], Target(names[i], path))
  {
    hide ListedPattern, Token, TrimEnd, SkipBlanks, MatchProcessPattern, Glob, Target, Join, Pads;
    forall i | 0 <= i < |pieces|
      ensures Token(pieces[i], ",;") && TrimEnd(SkipBlanks(pieces[i])) == names[i]
      ensures pieces[i] == "*" ==> names[i] == "*"
      ensures MatchProcessPattern(names[i], path) <==> Glob(names[i], Target(names[i], path))
    {
      ListedPatternIsGlob(pieces[i], names[i], path);
    }
    StarMatches(path);
    TokensOfJoin(pieces, sep, ",;");
    NotWild(pieces, sep, ",;");
    assert pieces[0] == "*" ==> MatchProcessPattern(names[0], path);
    if i :| 0 <= i < |names| && Glob(names[i], Target(names[i], path)) {
      assert MatchProcessPattern(TrimEnd(SkipBlanks(pieces[i])), path);
    }
  }

  /** A plain name, alone in its list, matches the files of that name up to case. */
  lemma PlainNameMatches(name: string, path: string)
    requires ListedPattern(name) && '*' !in name && '\\' !in name && '/' !in name
    ensures ProcessListMatches(name, path) <==> EqNoCase(name, Filename(path))
  {
    LiteralPatternIsGlob(name, path);
    GlobLiteral(name, Filename(path));
    hide ListedPattern, ProcessListMatches, Filename, Glob, EqNoCase;
    assert name[0..|name|] == name && name[..0] == name[|name|..] == "";
    assert Join([name], ';') == name && Pads([name][0], name, true);
    assert [name][0] == name;
    ProcessListIsGlobUnion([name], [name], ';', path);
  }

  method MatchProcessList(list: CString, path: string) returns (matched: bool)
    ensures matched <==> ProcessListMatches(list, path)
  {
    hide Tokens, CStringAt, MatchProcessPattern, MatchIpPattern, MatchPortPattern, SkipBlanks, TrimEnd, IndexOf;
    if list == "" || list == "*" { return true; }
    var st := new StrTok(list);
    ghost var ts, done := Tokens(list, ",;"), 0;
    var start := st.Next(",;");
    while start >= 0
      invariant st.Valid() && fresh(st) && fresh(st.buf) && done <= |ts|
      invariant if start < 0 then done == |ts| else
        && start < st.buf.Length && start + |CStringAt(st.buf[..], start)| <= st.next
        && ts[done..] == [CStringAt(st.buf[..], start)] + Tokens(st.Rest(), ",;")
      invariant forall i :: 0 <= i < done ==> !MatchProcessPattern(TrimEnd(SkipBlanks(ts[i])), path)
      decreases |ts| - done
    {
      assert ts[done] == ts[done..][0] && ts[done + 1..] == ts[done..][1..];
      var token := st.SkipLeading(start);
      st.TrimTrailing(token);
      if MatchProcessPattern(CStringAt(st.buf[..], token), path) { return true; }
      start := st.Next(",;");
      done := done + 1;
    }
    return false;
  }

  // ---- Addresses ----

  predicate OctetMatches(field: string, octet: U8) {
    field == "*" || Atoi(field) == octet
  }

  /** The first four dotted fields, each cut to 15 characters, decide; a fifth one is ignored. */
  predicate MatchIpPattern(pattern: string, ip: U32) {
    || pattern == "*"
    || var f := Split(Clip(pattern, 255), '.');
       |f| >= 4 && forall i :: 0 <= i < 4 ==> OctetMatches(Clip(f[i], 15), Octet(ip, i))
  }

  method MatchIp(pattern: string, ip: U32) returns (matched: bool)
    ensures matched <==> MatchIpPattern(pattern, ip)
  {
    if pattern == "*" { return true; }
    hide Atoi, Octet, Split;
    var octets := CollectOctets(Clip(pattern, 255));
    if |octets| != 4 { return false; }
    matched := true;
    for k := 0 to 4
      invariant matched && forall m :: 0 <= m < k ==> OctetMatches(octets[m], Octet(ip, m))
    {
      if octets[k] == "*" { continue; }
      if Atoi(octets[k]) != Octet(ip, k) {
        assert !OctetMatches(octets[k], Octet(ip, k));
        return false;
      }
    }
  }

  /** The first four dotted fields of a text, each cut to 15 characters. */
  method CollectOctets(copy: string) returns (octets: seq<string>)
    ensures var f := Split(copy, '.');
      |octets| == (if |f| < 4 then |f| else 4) && forall k :: 0 <= k < |octets| ==> octets[k] == Clip(f[k], 15)
  {
    hide Split;
    octets := [];
    var cur := "";
    ghost var f, whole := Split(copy, '.'), "";
    var i := 0;
    FieldStart(copy);
    while i <= |copy| && |octets| < 4
      invariant i <= |copy| + 1 && |octets| <= |f| && |octets| <= 4
      invariant forall k :: 0 <= k < |octets| ==> octets[k] == Clip(f[k], 15)
      invariant i == |copy| + 1 ==> |octets| == |f|
      invariant cur == Clip(whole, 15)
      invariant i <= |copy| ==> Pending(f[|octets|..], whole, copy[i..])
    {
      ghost var tail, rest := f[|octets|..], copy[i..];
      FieldStep(tail, whole, rest);
      assert i < |copy| ==> rest[1..] == copy[i + 1..];
      assert tail[1..] == f[|octets| + 1..] && tail[0] == f[|octets|];
      if i == |copy| || copy[i] == '.' {
        octets, cur, whole := octets + [cur], "", "";
      } else {
        if |cur| < 15 {
          cur := cur + [copy[i]];
        }
        whole := whole + [copy[i]];
      }
      i := i + 1;
    }
  }

  /** `tail` are the fields of the text whose unread part is `rest`, with `whole` of the first one read. */
  ghost predicate Pending(tail: seq<string>, whole: string, rest: string) {
    var r := Split(rest, '.');
    tail == [whole + r[0]] + r[1..]
  }

  lemma FieldStart(copy: string)
    ensures copy[0..] == copy && Pending(Split(copy, '.')[0..], "", copy)
  {
    var r := Split(copy, '.');
    assert "" + r[0] == r[0] && [r[0]] + r[1..] == r;
  }

  lemma FieldStep(tail: seq<string>, whole: string, rest: string)
    requires Pending(tail, whole, rest)
    ensures tail != []
    ensures rest == "" ==> |tail| == 1 && tail[0] == whole
    ensures rest != "" && rest[0] == '.' ==> tail[0] == whole && |tail| > 1 && Pending(tail[1..], "", rest[1..])
    ensures rest != "" && rest[0] != '.' ==> Pending(tail, whole + [rest[0]], rest[1..])
  {
    assert whole + "" == whole;
    if rest != "" {
      var r := Split(rest[1..], '.');
      assert "" + r[0] == r[0] && [r[0]] + r[1..] == r;
      assert (whole + [rest[0]]) + r[0] == whole + ([rest[0]] + r[0]);
    }
  }

  predicate IpListMatches(list: string, ip: U32) {
    || list == "" || list == "*"
    || var ts := Tokens(list, ";");
       exists i :: 0 <= i < |ts| && MatchIpPattern(SkipBlanks(ts[i]), ip)
  }

  method MatchIpList(list: CString, ip: U32) returns (matched: bool)
    ensures matched <==> IpListMatches(list, ip)
  {
    hide Tokens, CStringAt, MatchProcessPattern, MatchIpPattern, MatchPortPattern, SkipBlanks, TrimEnd, IndexOf;
    if list == "" || list == "*" { return true; }
    var st := new StrTok(list);
    ghost var ts, done := Tokens(list, ";"), 0;
    var start := st.Next(";");
    while start >= 0
      invariant st.Valid() && fresh(st) && fresh(st.buf) && done <= |ts|
      invariant if start < 0 then done == |ts| else
        && start < st.buf.Length && start + |CStringAt(st.buf[..], start)| <= st.next
        && ts[done..] == [CStringAt(st.buf[..], start)] + Tokens(st.Rest(), ";")
      invariant forall i :: 0 <= i < done ==> !MatchIpPattern(SkipBlanks(ts[i]), ip)
      decreases |ts| - done
    {
      assert ts[done] == ts[done..][0] && ts[done + 1..] == ts[done..][1..];
      var token := st.SkipLeading(start);
      var hit := MatchIp(CStringAt(st.buf[..], token), ip);
      if hit { return true; }
      start := st.Next(";");
      done := done + 1;
    }
    return false;
  }

  // ---- Ports ----

  predicate MatchPortPattern(pattern: string, port: U16) {
    if pattern == "*" then true
    else if '-' in pattern then
      Atoi(pattern) <= port <= Atoi(pattern[IndexOf(pattern, '-') + 1..])
    else port == Atoi(pattern)
  }

  predicate PortListMatches(list: string, port: U16) {
    || list == "" || list == "*"
    || var ts := Tokens(list, ",;");
       exists i :: 0 <= i < |ts| && MatchPortPattern(SkipBlanks(ts[i]), port)
  }

  method MatchPortList(list: CString, port: U16) returns (matched: bool)
    ensures matched <==> PortListMatches(list, port)
  {
    hide Tokens, CStringAt, MatchProcessPattern, MatchIpPattern, MatchPortPattern, SkipBlanks, TrimEnd, IndexOf;
    if list == "" || list == "*" { return true; }
    var st := new StrTok(list);
    ghost var ts, done := Tokens(list, ",;"), 0;
    var start := st.Next(",;");
    while start >= 0
      invariant st.Valid() && fresh(st) && fresh(st.buf) && done <= |ts|
      invariant if start < 0 then done == |ts| else
        && start < st.buf.Length && start + |CStringAt(st.buf[..], start)| <= st.next
        && ts[done..] == [CStringAt(st.buf[..], start)] + Tokens(st.Rest(), ",;")
      invariant forall i :: 0 <= i < done ==> !MatchPortPattern(SkipBlanks(ts[i]), port)
      decreases |ts| - done
    {
      assert ts[done] == ts[done..][0] && ts[done + 1..] == ts[done..][1..];
      var token := st.SkipLeading(start);
      if MatchPortPattern(CStringAt(st.buf[..], token), port) { return true; }
      start := st.Next(",;");
      done := done + 1;
    }
    return false;
  }

  // ---- Printing lists in rule notation ----

  datatype PortItem = AllPorts | Single(port: nat) | Range(lo: nat, hi: nat)

  function PrintPort(p: PortItem): string {
    match p
    case AllPorts => "*"
    case Single(n) => Dec(n)
    case Range(lo, hi) => Dec(lo) + "-" + Dec(hi)
  }

  predicate PortIn(p: PortItem, port: nat) {
    match p
    case AllPorts => true
    case Single(n) => port == n
    case Range(lo, hi) => lo <= port <= hi
  }

  lemma PrintedSingleMatches(n: nat, port: U16)
    ensures MatchPortPattern(Dec(n), port) <==> port == n
    ensures Token(Dec(n), ",;") && IsDigit(Dec(n)[0]) && IsDigit(Dec(n)[|Dec(n)| - 1])
  {
    var s := Dec(n);
    AtoiDec(n, "");
    assert s + "" == s && s[0] in s && s[|s| - 1] in s;
    assert forall i :: 0 <= i < |s| ==> s[i] in s;
    hide Dec, Atoi;
  }

  lemma PrintedRangeMatches(lo: nat, hi: nat, port: U16)
    ensures MatchPortPattern(Dec(lo) + "-" + Dec(hi), port) <==> lo <= port <= hi
    ensures var s := Dec(lo) + "-" + Dec(hi); Token(s, ",;") && IsDigit(s[0]) && IsDigit(s[|s| - 1])
  {
    hide Dec, Atoi, Token;
    var a, b := Dec(lo), Dec(hi);
    RangeIsToken(a, b);
    var s := a + "-" + b;
    assert s == a + ("-" + b);
    AtoiDec(lo, "-" + b);
    AtoiDec(hi, "");
    IndexOfSplit(a, '-', b);
    assert s[|a|] == '-' && s[|a| + 1..] == b + "";
  }

  lemma RangeIsToken(a: string, b: string)
    requires a != "" && b != "" && (forall c :: c in a ==> IsDigit(c)) && (forall c :: c in b ==> IsDigit(c))
    ensures var s := a + "-" + b; Token(s, ",;") && IsDigit(s[0]) && IsDigit(s[|s| - 1])
  {
    var s := a + "-" + b;
    assert a[0] in a && s[0] == a[0] && b[|b| - 1] in b && s[|s| - 1] == b[|b| - 1];
    forall i | 0 <= i < |s| ensures s[i] !in ",;" {
      assert s[i] == '-' || s[i] in a || s[i] in b;
    }
  }

  lemma PrintedPortMatches(p: PortItem, port: U16)
    ensures MatchPortPattern(PrintPort(p), port) <==> PortIn(p, port)
    ensures var s := PrintPort(p);
      Token(s, ",;") && s[0] !in " \t" && s[|s| - 1] !in " \t" && (s == "*" ==> p.AllPorts?)
  {
    hide Dec;
    match p
    case AllPorts =>
    case Single(n) => PrintedSingleMatches(n, port);
    case Range(lo, hi) => PrintedRangeMatches(lo, hi, port);
  }

  /** Printing a nonempty list of ports and ranges, with blanks before each and commas or semicolons
      between them, and running the tokenising matcher on it decides membership in the union, for every
      port. */
  lemma PrintedPortsDecideUnion(pieces: seq<string>, ps: seq<PortItem>, sep: char, port: U16)
    requires pieces != [] && |pieces| == |ps| && sep in ",;"
    requires forall i {:trigger ps[i]} :: 0 <= i < |ps| ==> Pads(pieces[i], PrintPort(ps[i]), false)
    ensures Join(pieces, sep) != ""
    ensures PortListMatches(Join(pieces, sep), port) <==> exists p :: p in ps && PortIn(p, port)
  {
    hide Pads, Token, PrintPort, MatchPortPattern, SkipBlanks, PortIn, Join;
    forall i | 0 <= i < |ps| ensures Token(pieces[i], ",;") && (pieces[i] == "*" ==> PortIn(ps[i], port))
      && (MatchPortPattern(SkipBlanks(pieces[i]), port) <==> PortIn(ps[i], port)) {
      PaddedPort(pieces[i], ps[i], port);
    }
    TokensOfJoin(pieces, sep, ",;");
    NotWild(pieces, sep, ",;");
    assert pieces[0] == "*" ==> ps[0] in ps && PortIn(ps[0], port);
    if p :| p in ps && PortIn(p, port) {
      var i :| 0 <= i < |ps| && ps[i] == p;
      assert MatchPortPattern(SkipBlanks(pieces[i]), port);
    }
  }

  lemma PaddedPort(piece: string, p: PortItem, port: U16)
    requires Pads(piece, PrintPort(p), false)
    ensures Token(piece, ",;") && (piece == "*" ==> PortIn(p, port))
    ensures MatchPortPattern(SkipBlanks(piece), port) <==> PortIn(p, port)
  {
    PrintedPortMatches(p, port);
    hide Pads;
    PaddedToken(piece, PrintPort(p), false, ",;");
    TrimmedPads(piece, PrintPort(p), false);
  }

  /** A printed list is not mistaken for one of the two match-all spellings. */
  lemma NotWild(pieces: seq<string>, sep: char, seps: string)
    requires pieces != [] && sep in seps && '*' !in seps
    requires forall i :: 0 <= i < |pieces| ==> Token(pieces[i], seps)
    ensures Join(pieces, sep) != ""
    ensures Join(pieces, sep) == "*" ==> pieces[0] == "*"
  {
    assert Token(pieces[0], seps);
    if |pieces| > 1 { assert Join(pieces, sep)[|pieces[0]|] == sep; }
  }

  datatype OctetItem = Any | Exactly(n: U8)
  datatype IpItem = AllIps | IpItem(a: OctetItem, b: OctetItem, c: OctetItem, d: OctetItem)

  function PrintOctet(o: OctetItem): (s: string)
    ensures s != "" && forall c :: c in s ==> IsDigit(c) || c == '*'
  {
    if o.Any? then "*" else Dec(o.n)
  }

  function PrintIp(p: IpItem): string {
    if p.AllIps? then "*"
    else PrintOctet(p.a) + ['.'] + (PrintOctet(p.b) + ['.'] + (PrintOctet(p.c) + ['.'] + PrintOctet(p.d)))
  }

  predicate OctetIn(o: OctetItem, octet: U8) { o.Any? || o.n == octet }

  predicate IpIn(p: IpItem, ip: U32) {
    p.AllIps? || (OctetIn(p.a, Octet(ip, 0)) && OctetIn(p.b, Octet(ip, 1))
                  && OctetIn(p.c, Octet(ip, 2)) && OctetIn(p.d, Octet(ip, 3)))
  }

  lemma PrintedOctetMatches(o: OctetItem, octet: U8)
    ensures |PrintOctet(o)| <= 3 && '.' !in PrintOctet(o)
    ensures OctetMatches(PrintOctet(o), octet) <==> OctetIn(o, octet)
  {
    if o.Exactly? {
      DecLength(o.n, 3);
      AtoiDec(o.n, "");
      assert Dec(o.n) + "" == Dec(o.n);
      assert Dec(o.n)[0] in Dec(o.n);
    }
  }

  lemma PrintedIpChars(p: IpItem)
    ensures PrintIp(p) != "" && (p.AllIps? || |PrintIp(p)| >= 7) && forall i :: 0 <= i < |PrintIp(p)| ==>
      IsDigit(PrintIp(p)[i]) || PrintIp(p)[i] == '*' || PrintIp(p)[i] == '.'
  {
    if p.AllIps? { return; }
    var s := PrintIp(p);
    var a, b, c, d := PrintOctet(p.a), PrintOctet(p.b), PrintOctet(p.c), PrintOctet(p.d);
    assert forall x :: x in s ==> x in a || x in b || x in c || x in d || x == '.';
  }

  lemma PrintedIpFields(p: IpItem)
    requires p.IpItem?
    ensures Split(PrintIp(p), '.') == [PrintOctet(p.a), PrintOctet(p.b), PrintOctet(p.c), PrintOctet(p.d)]
  {
    var a, b, c, d := PrintOctet(p.a), PrintOctet(p.b), PrintOctet(p.c), PrintOctet(p.d);
    PrintedOctetMatches(p.a, 0);
    PrintedOctetMatches(p.b, 0);
    PrintedOctetMatches(p.c, 0);
    PrintedOctetMatches(p.d, 0);
    hide OctetMatches, OctetIn, PrintOctet, Split;
    SplitField(c, '.', d);
    SplitField(b, '.', c + ['.'] + d);
    SplitField(a, '.', b + ['.'] + (c + ['.'] + d));
    SplitField(d, '.', "");
  }

  lemma PrintedIpMatches(p: IpItem, ip: U32)
    ensures MatchIpPattern(PrintIp(p), ip) <==> IpIn(p, ip)
  {
    if p.AllIps? { return; }
    PrintedOctetMatches(p.a, Octet(ip, 0));
    PrintedOctetMatches(p.b, Octet(ip, 1));
    PrintedOctetMatches(p.c, Octet(ip, 2));
    PrintedOctetMatches(p.d, Octet(ip, 3));
    PrintedIpChars(p);
    PrintedIpFields(p);
    hide OctetMatches, OctetIn, PrintOctet, PrintIp, Octet, Split;
  }

  /** Printing a nonempty list of octet patterns, with blanks before each, and running the tokenising
      matcher on it decides membership in the union, for every address. */
  lemma PrintedIpsDecideUnion(pieces: seq<string>, ps: seq<IpItem>, ip: U32)
    requires pieces != [] && |pieces| == |ps|
    requires forall i {:trigger ps[i]} :: 0 <= i < |ps| ==> Pads(pieces[i], PrintIp(ps[i]), false)
    ensures Join(pieces, ';') != ""
    ensures IpListMatches(Join(pieces, ';'), ip) <==> exists p :: p in ps && IpIn(p, ip)
  {
    hide Pads, Token, PrintIp, MatchIpPattern, SkipBlanks, IpIn, Join;
    forall i | 0 <= i < |ps| ensures Token(pieces[i], ";") && (pieces[i] == "*" ==> IpIn(ps[i], ip))
      && (MatchIpPattern(SkipBlanks(pieces[i]), ip) <==> IpIn(ps[i], ip)) {
      PaddedIp(pieces[i], ps[i], ip);
    }
    TokensOfJoin(pieces, ';', ";");
    NotWild(pieces, ';', ";");
    assert pieces[0] == "*" ==> ps[0] in ps && IpIn(ps[0], ip);
    if p :| p in ps && IpIn(p, ip) {
      var i :| 0 <= i < |ps| && ps[i] == p;
      assert MatchIpPattern(SkipBlanks(pieces[i]), ip);
    }
  }

  lemma PaddedIp(piece: string, p: IpItem, ip: U32)
    requires Pads(piece, PrintIp(p), false)
    ensures Token(piece, ";") && (piece == "*" ==> IpIn(p, ip))
    ensures MatchIpPattern(SkipBlanks(piece), ip) <==> IpIn(p, ip)
  {
    PrintedIpChars(p);
    PrintedIpMatches(p, ip);
    hide Pads, PrintIp, IpIn;
    var s := PrintIp(p);
    assert IsDigit(s[0]) || s[0] == '*' || s[0] == '.';
    assert IsDigit(s[|s| - 1]) || s[|s| - 1] == '*' || s[|s| - 1] == '.';
    PaddedToken(piece, PrintIp(p), false, ";");
    TrimmedPads(piece, PrintIp(p), false);
  }

  // ---- The limits of an address pattern ----

  /** Only the first 255 characters of a pattern count. */
  lemma LongPatternIsCut(a: string, b: string, ip: U32)
    requires |a| == 255
    ensures MatchIpPattern(a + b, ip) <==> MatchIpPattern(a, ip)
  {
    assert (a + b)[..255] == a && (b == "" ==> a + b == a);
    hide Split, OctetMatches;
  }

  function Zeros(k: nat): (s: string)
    ensures |s| == k && forall c :: c in s ==> c == '0'
  {
    seq(k, _ => '0')
  }

  lemma {:induction false} ZerosRead(k: nat, rest: string)
    ensures ReadNat(Zeros(k) + rest) == ReadNat(rest)
  {
    if k == 0 {
      assert Zeros(0) + rest == rest;
    } else {
      assert (Zeros(k) + rest)[1..] == Zeros(k - 1) + rest;
      ZerosRead(k - 1, rest);
    }
  }

  lemma AtoiZeros(k: nat, n: nat)
    ensures Atoi(Zeros(k) + Dec(n)) == n && Atoi(Zeros(k)) == 0 && Atoi("") == 0
  {
    ZerosRead(k, Dec(n));
    ZerosRead(k, "");
    AtoiDec(n, "");
    assert Dec(n) + "" == Dec(n) && Zeros(k) + "" == Zeros(k) && Dec(n)[0] in Dec(n);
    assert ReadNat("") == (0, "");
    hide Dec, ReadNat;
  }

  /** The first field, the last one, and stars between them. */
  lemma FirstAndLast(first: string, last: string, ip: U32)
    requires '.' !in first && '.' !in last && |first| + |last| <= 250 && first != "*"
    ensures MatchIpPattern(first + ".*.*." + last, ip)
       <==> OctetMatches(Clip(first, 15), Octet(ip, 0)) && OctetMatches(Clip(last, 15), Octet(ip, 3))
  {
    hide Atoi, Octet;
    var p := first + ".*.*." + last;
    assert p == first + ['.'] + ("*" + ['.'] + ("*" + ['.'] + last));
    SplitField(first, '.', "*" + ['.'] + ("*" + ['.'] + last));
    SplitField("*", '.', "*" + ['.'] + last);
    SplitField("*", '.', last);
    SplitField(last, '.', "");
    hide Split;
    assert Split(p, '.') == [first, "*", "*", last];
    assert Clip("*", 15) == "*";
    hide Clip, OctetMatches;
  }

  /** Only the first 15 characters of an octet count: leading zeros are harmless up to there. */
  lemma LongOctetIsCut(k: nat, n: U8, ip: U32)
    requires k <= 200
    ensures k + |Dec(n)| <= 15 ==> (MatchIpPattern(Zeros(k) + Dec(n) + ".*.*.*", ip) <==> Octet(ip, 0) == n)
    ensures k >= 15 ==> (MatchIpPattern(Zeros(k) + Dec(n) + ".*.*.*", ip) <==> Octet(ip, 0) == 0)
  {
    var field := Zeros(k) + Dec(n);
    assert |Dec(n)| <= 3 by {
      assert Pow10(1) == 10 && Pow10(2) == 100 && Pow10(3) == 1000;
      DecLength(n, 3);
    }
    AtoiZeros(k, n);
    AtoiZeros(15, n);
    assert forall c :: c in field ==> c in Zeros(k) || c in Dec(n);
    assert field[0] in field;
    FirstAndLast(field, "*", ip);
    assert field + ".*.*." + "*" == Zeros(k) + Dec(n) + ".*.*.*";
    assert k >= 15 ==> field[..15] == Zeros(15) && Zeros(15)[0] == '0';
    hide Dec, Atoi, MatchIpPattern, Octet, Zeros;
    assert OctetMatches(Clip("*", 15), Octet(ip, 3));
    assert k + |Dec(n)| <= 15 ==> Clip(field, 15) == field;
  }

  /** The last octet counts as long as the pattern has 255 characters, and is cut off, and so 0, beyond. */
  lemma FourthOctetIsCut(k: nat, n: nat, ip: U32)
    requires 0 < k && n < 10
    ensures k <= 249 ==> (MatchIpPattern(Zeros(k) + ".*.*." + Dec(n), ip) <==> Octet(ip, 0) == 0 && Octet(ip, 3) == n)
    ensures k == 250 ==> (MatchIpPattern(Zeros(k) + ".*.*." + Dec(n), ip) <==> Octet(ip, 0) == 0 && Octet(ip, 3) == 0)
  {
    var c := if k <= 15 then k else 15;
    AtoiZeros(c, n);
    AtoiZeros(0, n);
    assert Zeros(0) + Dec(n) == Dec(n) && |Dec(n)| == 1 && Dec(n)[0] in Dec(n);
    assert Clip(Zeros(k), 15) == Zeros(c) && Zeros(k)[0] == '0' && Zeros(c)[0] == '0';
    if k <= 249 {
      FirstAndLast(Zeros(k), Dec(n), ip);
    } else if k == 250 {
      FirstAndLast(Zeros(k), "", ip);
      assert Zeros(k) + ".*.*." + "" == Zeros(k) + ".*.*.";
      LongPatternIsCut(Zeros(k) + ".*.*.", Dec(n), ip);
    }
    hide Dec, Atoi, MatchIpPattern, Octet, Zeros;
  }
}
