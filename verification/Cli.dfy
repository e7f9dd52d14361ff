/** The command line's rule and proxy notation: the parsers, each cutting its own copy of the text in place,
    and the printers they invert. The program reads proxy URLs in two places, written separately; so does
    this model. */
module Cli {
  import opened CTypes
  import opened CStrings
  import RE = RuleEngine

  datatype ProxyUrl = ProxyUrl(kind: ProxyKind, host: string, port: U16, username: string, password: string)

  // ---- Proxy URLs ----

  /** The two sides of the first `@`; no credentials without one. */
  function AtSign(buffer: string): (string, string) {
    var at := IndexOf(buffer, '@');
    if at < |buffer| then (buffer[..at], buffer[at + 1..]) else ("", buffer)
  }

  /** User and password around the first colon. */
  function UserPass(credentials: string): (string, string) {
    var colon := IndexOf(credentials, ':');
    (credentials[..colon], if colon < |credentials| then credentials[colon + 1..] else "")
  }

  /** Host and port around the last colon; port 0 is refused. */
  function HostPort(text: string): Option<(string, U16)> {
    var last := LastIndexOf(text, ':');
    if last < 0 then None
    else
      var port := Atoi(text[last + 1..]) % 0x1_0000;
      if port == 0 then None else Some((text[..last], port))
  }

  /** `user:pass@host:port` or `host:port`, every part cut to its buffer. */
  function ParseAddress(kind: ProxyKind, text: string): Option<ProxyUrl> {
    var (credentials, hostPart) := AtSign(Clip(text, 511));
    var (user, pass) := UserPass(credentials);
    match HostPort(hostPart)
    case None => None
    case Some((host, port)) => Some(ProxyUrl(kind, Clip(host, 255), port, Clip(user, 63), Clip(pass, 63)))
  }

  const SOCKS5_SCHEME := "socks5://"
  const HTTP_SCHEME := "http://"

  /** The `--proxy` argument; SOCKS5 when no scheme is given. */
  function ParseProxy(text: string): Option<ProxyUrl> {
    if SOCKS5_SCHEME <= text then ParseAddress(ProxyKind.Socks5, text[9..])
    else if HTTP_SCHEME <= text then ParseAddress(ProxyKind.Http, text[7..])
    else ParseAddress(ProxyKind.Socks5, text)
  }

  /** `parse_proxy`: cuts a 512-byte copy of the text at the `@` and the colons. */
  method ReadProxy(text: CString) returns (r: Option<ProxyUrl>)
    ensures r == ParseProxy(text)
  {
    hide CStringAt, AtSign, UserPass, HostPort;
    var kind, skip := ProxyKind.Socks5, 0;
    if SOCKS5_SCHEME <= text {
      skip := 9;
    } else if HTTP_SCHEME <= text {
      kind, skip := ProxyKind.Http, 7;
    }
    var buffer := CopyOf(text[skip..], 512);
    var hostPart, user, pass := CutCredentials(buffer);
    var address := CutHostPort(buffer, hostPart);
    if address.None? { return None; }
    return Some(ProxyUrl(kind, Clip(address.value.0, 255), address.value.1, user, pass));
  }

  /** Cuts `user:pass@` off the front of the buffer. */
  method CutCredentials(buffer: array<char>) returns (hostPart: nat, user: string, pass: string)
    requires buffer.Length > 0 && buffer[buffer.Length - 1] == '\0'
    modifies buffer
    ensures hostPart < buffer.Length && buffer[buffer.Length - 1] == '\0'
    ensures var (credentials, rest) := AtSign(old(CStringAt(buffer[..], 0)));
      && CStringAt(buffer[..], hostPart) == rest
      && user == Clip(UserPass(credentials).0, 63) && pass == Clip(UserPass(credentials).1, 63)
  {
    hide CStringAt, IndexOf;
    hostPart, user, pass := 0, "", "";
    NoCredentials();
    var at := StrChr(buffer, 0, '@');
    if buffer[at] != '\0' {
      CutAt(buffer[..], 0, at);
      Terminate(buffer, at);
      hostPart := at + 1;
      var colon := StrChr(buffer, 0, ':');
      if buffer[colon] != '\0' {
        CutAt(buffer[..], 0, colon);
        CutSpares(buffer[..], hostPart, colon);
        Terminate(buffer, colon);
        pass := Clip(CStringAt(buffer[..], colon + 1), 63);
      }
      user := Clip(CStringAt(buffer[..], 0), 63);
    }
  }

  lemma NoCredentials()
    ensures UserPass("") == ("", "")
  {
  }

  /** Cuts the host off at its last colon and reads the port behind it. */
  method CutHostPort(buffer: array<char>, hostPart: nat) returns (r: Option<(string, U16)>)
    requires hostPart < buffer.Length && buffer[buffer.Length - 1] == '\0'
    modifies buffer
    ensures r == HostPort(old(CStringAt(buffer[..], hostPart)))
  {
    hide CStringAt, LastIndexOf, Atoi;
    var colon := StrRChr(buffer, hostPart, ':');
    if colon < 0 { return None; }
    CutAt(buffer[..], hostPart, colon);
    Terminate(buffer, colon);
    var port := Atoi(CStringAt(buffer[..], colon + 1)) % 0x1_0000;
    if port == 0 { return None; }
    return Some((CStringAt(buffer[..], hostPart), port));
  }

  function Scheme(kind: ProxyKind): string {
    if kind == ProxyKind.Socks5 then SOCKS5_SCHEME else HTTP_SCHEME
  }

  function PrintUrl(u: ProxyUrl): string {
    Scheme(u.kind) + PrintAddress(u)
  }

  function PrintAddress(u: ProxyUrl): string {
    (if u.username != "" then u.username + [':'] + u.password + ['@'] else "") + (u.host + [':'] + Dec(u.port))
  }

  /** URLs the notation can carry: no `@` anywhere, no colon in the user name, no password without a
      user, and every part within its buffer. */
  predicate Printable(u: ProxyUrl) {
    && u.port != 0 && '@' !in u.username && '@' !in u.password && '@' !in u.host && ':' !in u.username
    && (u.username == "" ==> u.password == "")
    && |u.host| <= 255 && |u.username| <= 63 && |u.password| <= 63
  }

  lemma LastColon(host: string, digits: string)
    requires ':' !in digits
    ensures LastIndexOf(host + [':'] + digits, ':') == |host|
  {
    hide LastIndexOf;
    var s := host + [':'] + digits;
    assert s[|host|] == ':';
    assert s[|host| + 1..] == digits;
    forall k | |host| < k < |s| ensures s[k] != ':' {
      assert s[|host| + 1..][k - |host| - 1] in digits;
    }
  }

  lemma PortReads(port: U16)
    ensures Atoi(Dec(port)) == port && |Dec(port)| <= 5 && ':' !in Dec(port) && '@' !in Dec(port)
  {
    AtoiDec(port, "");
    assert Dec(port) + "" == Dec(port);
    assert Pow10(1) == 10 && Pow10(2) == 100 && Pow10(3) == 1000 && Pow10(4) == 10000 && Pow10(5) == 100000;
    DecLength(port, 5);
  }

  lemma HostPortReads(host: string, port: U16)
    requires port != 0
    ensures HostPort(host + [':'] + Dec(port)) == Some((host, port))
  {
    PortReads(port);
    hide Dec, Atoi, LastIndexOf;
    var text := host + [':'] + Dec(port);
    LastColon(host, Dec(port));
    assert text[..|host|] == host && text[|host| + 1..] == Dec(port);
  }

  lemma CredentialsRead(user: string, pass: string, rest: string)
    requires '@' !in user && '@' !in pass && ':' !in user
    ensures AtSign(user + [':'] + pass + ['@'] + rest) == (user + [':'] + pass, rest)
    ensures UserPass(user + [':'] + pass) == (user, pass)
  {
    var credentials := user + [':'] + pass;
    var text := credentials + ['@'] + rest;
    IndexOfSplit(credentials, '@', rest);
    IndexOfSplit(user, ':', pass);
    assert text[..|credentials|] == credentials && text[|credentials| + 1..] == rest;
    assert credentials[..|user|] == user && credentials[|user| + 1..] == pass;
  }

  lemma AddressRoundTrip(u: ProxyUrl)
    requires Printable(u)
    ensures ParseAddress(u.kind, PrintAddress(u)) == Some(u)
  {
    PortReads(u.port);
    HostPortReads(u.host, u.port);
    var hostPart, text := u.host + [':'] + Dec(u.port), PrintAddress(u);
    assert Clip(text, 511) == text;
    if u.username == "" {
      assert text == hostPart && '@' !in text;
      assert AtSign(text) == ("", text) && UserPass("") == ("", "");
    } else {
      CredentialsRead(u.username, u.password, hostPart);
      assert text == u.username + [':'] + u.password + ['@'] + hostPart;
    }
    hide AtSign, UserPass, HostPort, Dec;
  }

  /** The proxy argument parser inverts the printer on every URL the notation can carry. */
  lemma ProxyRoundTrip(u: ProxyUrl)
    requires Printable(u)
    ensures ParseProxy(PrintUrl(u)) == Some(u)
  {
    AddressRoundTrip(u);
    hide ParseAddress, PrintAddress;
    var text := PrintUrl(u);
    if u.kind == ProxyKind.Socks5 {
      assert text[..9] == SOCKS5_SCHEME && text[9..] == PrintAddress(u);
    } else {
      assert text[..7] == HTTP_SCHEME && text[7..] == PrintAddress(u) && text[0] == 'h';
    }
  }

  /** An address without a scheme is one of a SOCKS5 proxy. */
  lemma NoSchemeMeansSocks5(text: string)
    requires !("socks5://" <= text) && !("http://" <= text)
    ensures ParseProxy(text) == ParseProxy("socks5://" + text)
  {
    var full := "socks5://" + text;
    assert full[..9] == SOCKS5_SCHEME && full[9..] == text;
    hide ParseAddress;
  }

  /** What the parser accepts is spelled out: an optional login closed by the first `@`, a host, the last colon,
      and a number that is not 0 modulo 2^16; the parts, and before them the text, are cut to their buffers. */
  lemma AcceptedAddressIsSpelled(kind: ProxyKind, text: string)
    returns (user: string, pass: string, login: string, host: string, digits: string)
    requires ParseAddress(kind, text).Some?
    ensures Clip(text, 511) == login + (host + [':'] + digits) && ':' !in digits
    ensures if '@' !in Clip(text, 511) then login == user == pass == ""
            else ':' !in user && '@' !in user && (login == user + ['@'] || login == user + [':'] + pass + ['@'])
    ensures '@' !in pass && (login == user + ['@'] ==> pass == "")
    ensures Atoi(digits) % 0x1_0000 != 0
    ensures ParseAddress(kind, text)
         == Some(ProxyUrl(kind, Clip(host, 255), Atoi(digits) % 0x1_0000, Clip(user, 63), Clip(pass, 63)))
  {
    var whole := Clip(text, 511);
    LoginIsSpelled(whole);
    HostPortIsSpelled(AtSign(whole).1);
    var hostPart := AtSign(whole).1;
    user, pass := UserPass(AtSign(whole).0).0, UserPass(AtSign(whole).0).1;
    login := whole[..|whole| - |hostPart|];
    var last := LastIndexOf(hostPart, ':');
    host, digits := hostPart[..last], hostPart[last + 1..];
    hide Atoi, Clip, LastIndexOf, AtSign, UserPass, HostPort;
  }

  lemma HostPortIsSpelled(hostPart: string)
    ensures var last := LastIndexOf(hostPart, ':');
      HostPort(hostPart).Some? ==>
        && last >= 0 && hostPart == hostPart[..last] + [':'] + hostPart[last + 1..] && ':' !in hostPart[last + 1..]
        && HostPort(hostPart) == Some((hostPart[..last], Atoi(hostPart[last + 1..]) % 0x1_0000))
        && Atoi(hostPart[last + 1..]) % 0x1_0000 != 0
  {
    hide LastIndexOf, Atoi;
  }

  /** What stands before the host part. */
  lemma LoginIsSpelled(text: string)
    ensures var (credentials, hostPart) := AtSign(text);
      var (user, pass) := UserPass(credentials);
      |hostPart| <= |text| &&
      var login := text[..|text| - |hostPart|];
      && text == login + hostPart
      && (if '@' !in text then login == user == pass == ""
          else ':' !in user && '@' !in user && (login == user + ['@'] || login == user + [':'] + pass + ['@']))
      && '@' !in pass && (login == user + ['@'] ==> pass == "")
  {
    hide IndexOf;
    var credentials := AtSign(text).0;
    var colon := IndexOf(credentials, ':');
    if '@' in text {
      assert text == credentials + ['@'] + AtSign(text).1;
      assert forall x :: x in credentials[..colon] ==> x in credentials;
      if colon < |credentials| {
        assert credentials == credentials[..colon] + [':'] + credentials[colon + 1..];
      } else {
        assert credentials[..colon] == credentials;
      }
    } else {
      assert credentials == "" && text[..0] == "";
    }
  }

  // ---- Rules ----

  datatype RuleSpec = RuleSpec(process: string, hosts: string, ports: string, protocol: RE.RuleProtocol,
                               action: RE.RuleAction, proxy: Option<ProxyUrl>)

  function ParseProtocol(s: string): Option<RE.RuleProtocol> {
    if EqNoCase(s, "TCP") then Some(RE.TcpOnly)
    else if EqNoCase(s, "UDP") then Some(RE.UdpOnly)
    else if EqNoCase(s, "BOTH") then Some(RE.Both)
    else None
  }

  predicate HasScheme(url: string) {
    SOCKS5_SCHEME <= url || HTTP_SCHEME <= url
  }

  /** User name, password and host part of the text behind a scheme, as the rule parser reads them. */
  function SplitLogin(buf: string): (string, string, string) {
    var at := IndexOf(buf, '@');
    if at == |buf| then ("", "", buf)
    else
      var login, hostPart := buf[..at], buf[at + 1..];
      var colon := IndexOf(login, ':');
      if colon == |login| then (Clip(login, 63), "", hostPart)
      else (Clip(login[..colon], 63), Clip(login[colon + 1..], 63), hostPart)
  }

  /** A proxy URL as the rule parser reads it. */
  function ParseRuleUrl(url: string): Option<ProxyUrl>
    requires HasScheme(url)
  {
    var isHttp := HTTP_SCHEME <= url;
    var (user, pass, hostPart) := SplitLogin(Clip(url[if isHttp then 7 else 9..], 511));
    var hostColon := LastIndexOf(hostPart, ':');
    if hostColon < 0 then None
    else
      var port := Atoi(hostPart[hostColon + 1..]) % 0x1_0000;
      if port == 0 then None
      else Some(ProxyUrl(if isHttp then ProxyKind.Http else ProxyKind.Socks5, Clip(hostPart[..hostColon], 255),
                         port, user, pass))
  }

  /** The URL branch of `parse_rule`, with a 512-byte buffer of its own. */
  method ReadRuleUrl(url: CString) returns (r: Option<ProxyUrl>)
    requires HasScheme(url)
    ensures r == ParseRuleUrl(url)
  {
    hide CStringAt, LastIndexOf, Atoi, SplitLogin;
    var isHttp := HTTP_SCHEME <= url;
    var buf := CopyOf(url[if isHttp then 7 else 9..], 512);
    var user, pass, hostPart := CutLogin(buf);
    var hostColon := StrRChr(buf, hostPart, ':');
    if hostColon < 0 { return None; }
    CutAt(buf[..], hostPart, hostColon);
    Terminate(buf, hostColon);
    var host := Clip(CStringAt(buf[..], hostPart), 255);
    var port := Atoi(CStringAt(buf[..], hostColon + 1)) % 0x1_0000;
    if port == 0 { return None; }
    return Some(ProxyUrl(if isHttp then ProxyKind.Http else ProxyKind.Socks5, host, port, user, pass));
  }

  method CutLogin(buf: array<char>) returns (user: string, pass: string, hostPart: nat)
    requires buf.Length > 0 && buf[buf.Length - 1] == '\0'
    modifies buf
    ensures hostPart < buf.Length && buf[buf.Length - 1] == '\0'
    ensures (user, pass, CStringAt(buf[..], hostPart)) == SplitLogin(old(CStringAt(buf[..], 0)))
  {
    hide CStringAt, IndexOf;
    user, pass, hostPart := "", "", 0;
    var atSign := StrChr(buf, 0, '@');
    if buf[atSign] == '\0' { return; }
    CutAt(buf[..], 0, atSign);
    Terminate(buf, atSign);
    hostPart := atSign + 1;
    var colon := StrChr(buf, 0, ':');
    if buf[colon] != '\0' {
      CutAt(buf[..], 0, colon);
      CutSpares(buf[..], hostPart, colon);
      Terminate(buf, colon);
      user := Clip(CStringAt(buf[..], 0), 63);
      pass := Clip(CStringAt(buf[..], colon + 1), 63);
    } else {
      user := Clip(CStringAt(buf[..], 0), 63);
    }
  }

  /** The action field: a keyword, or a proxy URL with a scheme. */
  function ParseAction(s: string): Option<(RE.RuleAction, Option<ProxyUrl>)> {
    if EqNoCase(s, "PROXY") then Some((RE.Proxy, None))
    else if EqNoCase(s, "DIRECT") then Some((RE.Direct, None))
    else if EqNoCase(s, "BLOCK") then Some((RE.Block, None))
    else if HasScheme(s) then
      match ParseRuleUrl(s) case None => None case Some(u) => Some((RE.Proxy, Some(u)))
    else None
  }

  type Pieces = Option<(seq<string>, string)>

  function Prepend(fields: seq<string>, r: Pieces): Pieces {
    match r case None => None case Some((f, rest)) => Some((fields + f, rest))
  }

  /** Cuts at the first `n` colons. When only the last colon is missing, the last field is also the
      remainder; when more is missing, or the remainder is empty, there is no result. */
  function Cut(s: string, n: nat): Pieces {
    if s == "" then None
    else if n == 0 then Some(([], s))
    else
      var c := IndexOf(s, ':');
      if c == |s| then if n == 1 then Some(([s], s)) else None
      else Prepend([s[..c]], Cut(s[c + 1..], n - 1))
  }

  function ParseRule(text: string): Option<RuleSpec> {
    match Cut(Clip(text, 1023), 4)
    case None => None
    case Some((f, action)) =>
      if |f| != 4 then None
      else
        match (ParseProtocol(f[3]), ParseAction(action))
        case (Some(protocol), Some((a, proxy))) => Some(RuleSpec(f[0], f[1], f[2], protocol, a, proxy))
        case _ => None
  }

  lemma PrependSteps(fields: seq<string>, x: string, r: Pieces)
    ensures Prepend([], r) == r
    ensures Prepend(fields, Prepend([x], r)) == Prepend(fields + [x], r)
    ensures Prepend(fields, Some(([], x))) == Some((fields, x))
  {
    if r.Some? {
      assert [] + r.value.0 == r.value.0;
      assert fields + ([x] + r.value.0) == fields + [x] + r.value.0;
    }
    assert fields + [] == fields;
  }

  /** The strings that begin at the given places of a buffer. */
  ghost predicate Spells(buf: seq<char>, starts: seq<nat>, fields: seq<string>, end: nat) {
    && |starts| == |fields|
    && forall k :: 0 <= k < |starts| ==>
         starts[k] < |buf| && CStringAt(buf, starts[k]) == fields[k] && starts[k] + |fields[k]| < end
  }

  /** Ending the field at `p` with a terminator at `colon` adds it to the fields and keeps the others. */
  lemma FieldEnds(buf: seq<char>, starts: seq<nat>, fields: seq<string>, p: nat, colon: nat)
    requires p < |buf| && buf[|buf| - 1] == '\0' && Spells(buf, starts, fields, p)
    requires p <= colon < p + |CStringAt(buf, p)|
    ensures var field := CStringAt(buf, p)[..colon - p];
      Spells(buf[colon := '\0'], starts + [p], fields + [field], colon + 1)
  {
    StringEnds(buf, p);
    hide CStringAt;
    CutAt(buf, p, colon);
    forall k | 0 <= k < |starts| ensures CStringAt(buf[colon := '\0'], starts[k]) == fields[k] {
      CutSpares(buf, starts[k], colon);
    }
  }

  /** The field splitter: each pass ends a field at a colon and moves past it. It answers where the fields
      begin and where the remainder does. */
  method SplitRule(copy: array<char>) returns (starts: seq<nat>, p: nat, ghost fields: seq<string>)
    requires copy.Length > 0 && copy[copy.Length - 1] == '\0'
    modifies copy
    ensures p < copy.Length && copy[copy.Length - 1] == '\0' && |starts| <= 4
    ensures Spells(copy[..], starts, fields, copy.Length)
    ensures Cut(old(CStringAt(copy[..], 0)), 4)
         == if |starts| == 4 && copy[p] != '\0' then Some((fields, CStringAt(copy[..], p))) else None
  {
    hide Prepend, CStringAt, IndexOf, Spells;
    ghost var whole := CStringAt(copy[..], 0);
    starts, p, fields := [], 0, [];
    PrependSteps([], "", Cut(whole, 4));
    SpellsNothing(copy[..]);
    var i := 0;
    while i < 4 && copy[p] != '\0'
      invariant 0 <= i <= 4 && |starts| == i && p < copy.Length && copy[copy.Length - 1] == '\0'
      invariant Spells(copy[..], starts, fields, p)
      invariant Cut(whole, 4) == Prepend(fields, Cut(CStringAt(copy[..], p), 4 - i))
    {
      ghost var rest := CStringAt(copy[..], p);
      var colon := StrChr(copy, p, ':');
      if copy[colon] == '\0' {
        LastField(copy[..], starts, fields, p);
        PrependNone(fields);
        PrependLast(fields, rest);
        starts, fields := starts + [p], fields + [rest];
        return;
      }
      FieldEnds(copy[..], starts, fields, p, colon);
      CutAt(copy[..], p, colon);
      PrependSteps(fields, rest[..colon - p], Cut(rest[colon - p + 1..], 3 - i));
      Terminate(copy, colon);
      starts, fields := starts + [p], fields + [rest[..colon - p]];
      p := colon + 1;
      i := i + 1;
    }
    StringEnds(copy[..], p);
    SpellsLonger(copy[..], starts, fields, p);
    PrependNone(fields);
    PrependSteps(fields, CStringAt(copy[..], p), None);
  }

  lemma SpellsNothing(buf: seq<char>)
    ensures Spells(buf, [], [], 0)
  {
  }

  lemma SpellsLonger(buf: seq<char>, starts: seq<nat>, fields: seq<string>, p: nat)
    requires p < |buf| && Spells(buf, starts, fields, p)
    ensures Spells(buf, starts, fields, |buf|) && |starts| == |fields|
  {
    hide CStringAt;
  }

  /** The last field ends with the text. */
  lemma LastField(buf: seq<char>, starts: seq<nat>, fields: seq<string>, p: nat)
    requires p < |buf| && buf[|buf| - 1] == '\0' && Spells(buf, starts, fields, p)
    ensures Spells(buf, starts + [p], fields + [CStringAt(buf, p)], |buf|)
  {
    StringEnds(buf, p);
    hide CStringAt;
  }

  /** `parse_rule`, up to handing the rule to the engine. */
  method ReadRule(text: CString) returns (r: Option<RuleSpec>)
    ensures r == ParseRule(text)
  {
    hide CStringAt, Cut, ParseRuleUrl, ParseProtocol;
    var copy := CopyOf(text, 1024);
    var starts, p, fields := SplitRule(copy);
    if |starts| != 4 || copy[p] == '\0' { return None; }
    var protocol := ParseProtocol(CStringAt(copy[..], starts[3]));
    if protocol.None? { return None; }
    var action := ReadAction(CStringAt(copy[..], p));
    if action.None? { return None; }
    return Some(RuleSpec(CStringAt(copy[..], starts[0]), CStringAt(copy[..], starts[1]), CStringAt(copy[..], starts[2]),
                         protocol.value, action.value.0, action.value.1));
  }

  method ReadAction(s: CString) returns (r: Option<(RE.RuleAction, Option<ProxyUrl>)>)
    ensures r == ParseAction(s)
  {
    hide ParseRuleUrl, EqNoCase;
    if EqNoCase(s, "PROXY") { return Some((RE.Proxy, None)); }
    if EqNoCase(s, "DIRECT") { return Some((RE.Direct, None)); }
    if EqNoCase(s, "BLOCK") { return Some((RE.Block, None)); }
    if HasScheme(s) {
      var url := ReadRuleUrl(s);
      if url.None? { return None; }
      return Some((RE.Proxy, url));
    }
    return None;
  }

  lemma PrependNone(fields: seq<string>)
    ensures Prepend(fields, None) == None
  {
  }

  lemma PrependLast(fields: seq<string>, p: string)
    ensures Prepend(fields, Some(([p], p))) == Some((fields + [p], p))
  {
  }

  function PrintProtocol(p: RE.RuleProtocol): string {
    match p case TcpOnly => "TCP" case UdpOnly => "UDP" case Both => "BOTH"
  }

  function PrintAction(action: RE.RuleAction, proxy: Option<ProxyUrl>): string {
    if proxy.Some? then PrintUrl(proxy.value)
    else match action case Proxy => "PROXY" case Direct => "DIRECT" case Block => "BLOCK"
  }

  function PrintRule(r: RuleSpec): string {
    r.process + [':'] + (r.hosts + [':'] + (r.ports + [':'] +
      (PrintProtocol(r.protocol) + [':'] + PrintAction(r.action, r.proxy))))
  }

  /** The two ways of taking the login apart agree. */
  lemma LoginsAgree(buf: string)
    ensures var (user, pass, hostPart) := SplitLogin(buf);
      && hostPart == AtSign(buf).1
      && user == Clip(UserPass(AtSign(buf).0).0, 63) && pass == Clip(UserPass(AtSign(buf).0).1, 63)
  {
    hide IndexOf;
    NoCredentials();
    var login := AtSign(buf).0;
    assert login[..|login|] == login;
  }

  /** The two readings of a URL agree. */
  lemma UrlsAgree(url: string)
    requires HasScheme(url)
    ensures ParseRuleUrl(url) == ParseProxy(url)
  {
    SchemesDiffer(url);
    LoginsAgree(Clip(url[if HTTP_SCHEME <= url then 7 else 9..], 511));
    hide LastIndexOf, Atoi, SplitLogin, AtSign, UserPass, SOCKS5_SCHEME, HTTP_SCHEME;
  }

  lemma SchemesDiffer(url: string)
    requires HasScheme(url)
    ensures !(SOCKS5_SCHEME <= url && HTTP_SCHEME <= url)
    ensures |url| >= if HTTP_SCHEME <= url then 7 else 9
  {
    assert SOCKS5_SCHEME <= url ==> url[0] == SOCKS5_SCHEME[0];
    assert HTTP_SCHEME <= url ==> url[0] == HTTP_SCHEME[0];
  }

  /** The rule parser takes a text for a proxy exactly when it has a scheme and the proxy parser reads it,
      and then for the same proxy. */
  lemma ParsersAgree(text: string)
    ensures HasScheme(text) ==>
      ParseAction(text) == match ParseProxy(text) case None => None case Some(u) => Some((RE.Proxy, Some(u)))
    ensures !HasScheme(text) && ParseAction(text).Some? ==> ParseAction(text).value.1 == None
  {
    if HasScheme(text) { UrlsAgree(text); }
    hide ParseProxy, ParseRuleUrl;
    if HasScheme(text) {
      assert text[0] == 's' || text[0] == 'h';
    }
    assert Lower("PROXY"[0]) == 'p' && Lower("DIRECT"[0]) == 'd' && Lower("BLOCK"[0]) == 'b';
  }

  lemma CutField(field: string, rest: string, n: nat)
    requires ':' !in field && n > 0
    ensures Cut(field + [':'] + rest, n) == Prepend([field], Cut(rest, n - 1))
  {
    var s := field + [':'] + rest;
    IndexOfSplit(field, ':', rest);
    assert s[..|field|] == field && s[|field| + 1..] == rest;
  }

  lemma ProtocolRoundTrip(p: RE.RuleProtocol)
    ensures ParseProtocol(PrintProtocol(p)) == Some(p) && ':' !in PrintProtocol(p)
  {
    assert |"TCP"| == 3 && Lower("TCP"[0]) == 't' && Lower("UDP"[0]) == 'u';
  }

  lemma ActionRoundTrip(action: RE.RuleAction, proxy: Option<ProxyUrl>)
    requires proxy.Some? ==> action == RE.Proxy && Printable(proxy.value)
    ensures ParseAction(PrintAction(action, proxy)) == Some((action, proxy)) && PrintAction(action, proxy) != ""
  {
    if proxy.Some? {
      var url := PrintUrl(proxy.value);
      ProxyRoundTrip(proxy.value);
      hide ParseProxy, ParseAddress, ParseRuleUrl, PrintAddress;
      assert Scheme(proxy.value.kind) <= url;
      ParsersAgree(url);
    } else {
      assert Lower("PROXY"[0]) == 'p' && Lower("DIRECT"[0]) == 'd' && Lower("BLOCK"[0]) == 'b';
    }
  }

  /** The rule parser inverts the printer when no field but the action holds a colon and the text fits. */
  lemma RuleRoundTrip(r: RuleSpec)
    requires ':' !in r.process && ':' !in r.hosts && ':' !in r.ports && |PrintRule(r)| <= 1023
    requires r.proxy.Some? ==> r.action == RE.Proxy && Printable(r.proxy.value)
    ensures ParseRule(PrintRule(r)) == Some(r)
  {
    ProtocolRoundTrip(r.protocol);
    ActionRoundTrip(r.action, r.proxy);
    hide PrintProtocol, PrintAction, ParseAction, ParseProtocol, Cut;
    FieldsRoundTrip(r.process, r.hosts, r.ports, PrintProtocol(r.protocol), PrintAction(r.action, r.proxy));
  }

  lemma FieldsRoundTrip(f0: string, f1: string, f2: string, f3: string, action: string)
    requires ':' !in f0 && ':' !in f1 && ':' !in f2 && ':' !in f3 && action != ""
    ensures Cut(f0 + [':'] + (f1 + [':'] + (f2 + [':'] + (f3 + [':'] + action))), 4) == Some(([f0, f1, f2, f3], action))
  {
    assert Cut(action, 0) == Some(([], action));
    hide Cut;
    Conses(f0, f1, f2, f3);
    var s3 := f3 + [':'] + action;
    var s2 := f2 + [':'] + s3;
    CutStep(f3, action, 1, [], action);
    CutStep(f2, s3, 2, [f3], action);
    CutStep(f1, s2, 3, [f2, f3], action);
    CutStep(f0, f1 + [':'] + s2, 4, [f1, f2, f3], action);
  }

  lemma Conses<T>(a: T, b: T, c: T, d: T)
    ensures [d] + [] == [d] && [c] + [d] == [c, d] && [b] + [c, d] == [b, c, d] && [a] + [b, c, d] == [a, b, c, d]
  {
  }

  lemma CutStep(field: string, rest: string, n: nat, fields: seq<string>, action: string)
    requires ':' !in field && n > 0 && Cut(rest, n - 1) == Some((fields, action))
    ensures Cut(field + [':'] + rest, n) == Some(([field] + fields, action))
  {
    CutField(field, rest, n);
  }

  // ---- What the rule parser accepts ----

  /** `s` is the fields in order, none of them with a colon, each followed by one, and then `rest`. */
  predicate SpelledBy(s: string, fields: seq<string>, rest: string) {
    if fields == [] then s == rest
    else
      var n := |fields[0]|;
      ':' !in fields[0] && n < |s| && s[..n] == fields[0] && s[n] == ':' && SpelledBy(s[n + 1..], fields[1..], rest)
  }

  lemma CutTakesField(s: string, n: nat)
    requires n > 0 && Cut(s, n).Some? && |Cut(s, n).value.0| == n
    ensures var (f, rest) := Cut(s, n).value;
      var c := IndexOf(s, ':');
      if c < |s| then Cut(s[c + 1..], n - 1).Some? && Cut(s[c + 1..], n - 1).value == (f[1..], rest) && f[0] == s[..c]
      else f == [s] && rest == s
  {
    hide IndexOf;
    var c := IndexOf(s, ':');
    if c < |s| {
      var (f, _) := Cut(s[c + 1..], n - 1).value;
      assert ([s[..c]] + f)[1..] == f;
    }
  }

  lemma SpelledOnce(s: string, f: seq<string>, rest: string)
    requires var c := IndexOf(s, ':'); c < |s| && f != [] && f[0] == s[..c] && SpelledBy(s[c + 1..], f[1..], rest)
    ensures SpelledBy(s, f, rest)
  {
    hide IndexOf;
  }

  /** The cutter either finds all its colons, or takes a last field without one for the remainder too. */
  lemma {:induction false} CutSpells(s: string, n: nat)
    requires Cut(s, n).Some? && |Cut(s, n).value.0| == n
    ensures var (f, rest) := Cut(s, n).value; SpelledBy(s, f, rest) || (n > 0 && f[n - 1] == rest)
  {
    hide IndexOf;
    if n == 0 {
      hide Cut;
      assert Cut(s, n).value.0 == [];
      CutNothing(s);
    } else {
      CutTakesField(s, n);
      hide Cut, SpelledBy;
      var c := IndexOf(s, ':');
      var (f, rest) := Cut(s, n).value;
      if c < |s| {
        CutSpells(s[c + 1..], n - 1);
        if SpelledBy(s[c + 1..], f[1..], rest) { SpelledOnce(s, f, rest); }
      }
    }
  }

  lemma CutNothing(s: string)
    requires Cut(s, 0).Some?
    ensures var (f, rest) := Cut(s, 0).value; SpelledBy(s, f, rest)
  {
  }

  lemma ProtocolIsSpelled(s: string)
    ensures ParseProtocol(s).Some? ==> EqNoCase(s, PrintProtocol(ParseProtocol(s).value))
  {
    hide EqNoCase;
  }

  lemma ActionIsSpelled(s: string)
    ensures ParseAction(s).Some? ==>
      var (action, proxy) := ParseAction(s).value;
      && (proxy.None? ==> EqNoCase(s, PrintAction(action, None)))
      && (proxy.Some? ==> action == RE.Proxy && HasScheme(s) && ParseProxy(s) == proxy)
  {
    if HasScheme(s) { UrlsAgree(s); }
    hide EqNoCase, ParseProxy, ParseRuleUrl, HasScheme;
  }

  lemma ProtocolIsNoAction(s: string)
    ensures ParseProtocol(s).None? || ParseAction(s).None?
  {
    assert |"TCP"| == |"UDP"| == 3 && |"BOTH"| == 4 && |"PROXY"| == |"BLOCK"| == 5 && |"DIRECT"| == 6;
    hide ParseRuleUrl;
    if s != "" {
      assert Lower("TCP"[0]) == 't' && Lower("UDP"[0]) == 'u' && Lower("BOTH"[0]) == 'b';
    }
    assert HasScheme(s) ==> |s| >= 7;
  }

  /** Every text the rule parser accepts, cut to its buffer, has four colons, no field before the action holds
      one, and the five parts are what the rule says: in particular nothing with fewer colons is accepted. */
  lemma AcceptedRuleIsSpelled(text: string) returns (f: seq<string>, action: string)
    requires ParseRule(text).Some?
    ensures |f| == 4 && SpelledBy(Clip(text, 1023), f, action)
    ensures var r := ParseRule(text).value;
      && r.process == f[0] && r.hosts == f[1] && r.ports == f[2] && EqNoCase(f[3], PrintProtocol(r.protocol))
      && (r.proxy.None? ==> EqNoCase(action, PrintAction(r.action, None)))
      && (r.proxy.Some? ==> r.action == RE.Proxy && HasScheme(action) && ParseProxy(action) == r.proxy)
  {
    var whole := Clip(text, 1023);
    f, action := Cut(whole, 4).value.0, Cut(whole, 4).value.1;
    CutSpells(whole, 4);
    ProtocolIsNoAction(action);
    ProtocolIsSpelled(f[3]);
    ActionIsSpelled(action);
    hide Cut, ParseProxy, ParseRuleUrl, SpelledBy, EqNoCase, ParseProtocol, ParseAction, PrintAction, PrintProtocol;
  }
}
