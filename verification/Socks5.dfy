/** The core SOCKS5 client, the protocol it must follow, and the second client of the hook library. */
module Socks5 {
  import opened CTypes
  import opened Sockets

  // ---- Messages ----

  function Greeting(auth: bool): seq<U8> {
    if auth then [5, 2, 0, 2] else [5, 1, 0]
  }

  function Credentials(user: seq<U8>, pass: seq<U8>): seq<U8>
    requires |user| <= 255 && |pass| <= 255
  {
    [1, |user| as U8] + user + [|pass| as U8] + pass
  }

  function PortBytes(port: U16): seq<U8> {
    [port / 0x100, port % 0x100]
  }

  function Request4(ip: U32, port: U16): seq<U8> {
    [5, 1, 0, 1] + [Octet(ip, 0), Octet(ip, 1), Octet(ip, 2), Octet(ip, 3)] + PortBytes(port)
  }

  function Request6(ip: seq<U8>, port: U16): seq<U8> {
    [5, 1, 0, 4] + ip + PortBytes(port)
  }

  /** A server's reading of an IPv4 CONNECT request. */
  function DecodeRequest4(m: seq<U8>): Option<(U32, U16)> {
    if |m| == 10 && m[..4] == [5, 1, 0, 1]
    then Some((FromOctets(m[4], m[5], m[6], m[7]), m[8] as int * 0x100 + m[9] as int)) else None
  }

  lemma RequestNamesDestination(ip: U32, port: U16)
    ensures DecodeRequest4(Request4(ip, port)) == Some((ip, port))
  {
    OctetsRebuild(ip);
  }

  /** A server's reading of an IPv6 CONNECT request. */
  function DecodeRequest6(m: seq<U8>): Option<(seq<U8>, U16)> {
    if |m| == 22 && m[..4] == [5, 1, 0, 4] then Some((m[4..20], m[20] as int * 0x100 + m[21] as int)) else None
  }

  lemma Request6NamesDestination(ip: seq<U8>, port: U16)
    requires |ip| == 16
    ensures DecodeRequest6(Request6(ip, port)) == Some((ip, port))
  {
    var m := Request6(ip, port);
    assert m[..4] == [5, 1, 0, 4] && m[4..20] == ip;
  }

  /** A server's reading of the username/password message. */
  function DecodeCredentials(m: seq<U8>): Option<(seq<U8>, seq<U8>)> {
    if |m| < 3 || m[0] != 1 || |m| < 3 + m[1] as int then None
    else
      var u, p := m[1] as int, m[2 + m[1] as int] as int;
      if |m| != 3 + u + p then None else Some((m[2..2 + u], m[3 + u..]))
  }

  lemma CredentialsRoundTrip(user: seq<U8>, pass: seq<U8>)
    requires |user| <= 255 && |pass| <= 255
    ensures DecodeCredentials(Credentials(user, pass)) == Some((user, pass))
  {
    var m := Credentials(user, pass);
    assert m[2 + |user|] == |pass| && m[2..2 + |user|] == user && m[3 + |user|..] == pass;
  }

  /** The 512-byte buffer holds every credentials message except the one for two 255-byte credentials. */
  lemma BufferSuffices(user: seq<U8>, pass: seq<U8>)
    requires |user| <= 255 && |pass| <= 255
    ensures |Credentials(user, pass)| <= 512 <==> !Overflow(user, pass)
  {
    assert |Credentials(user, pass)| == 3 + |user| + |pass|;
  }

  lemma LongestCredentialsOverflow()
    ensures var longest: seq<U8> := seq(255, _ => 97); |Credentials(longest, longest)| == 513
  {
    var longest: seq<U8> := seq(255, _ => 97);
    assert |Credentials(longest, longest)| == 3 + |longest| + |longest|;
  }

  // ---- The core client ----

  /** The end of both conversations: send the request, judge the reply. */
  function CoreFinish(l: Line, request: seq<U8>): (Line, bool) {
    var (l1, n) := SendOn(l, request);
    if n != |request| then (l1, false)
    else
      var (l2, len, d) := RecvOn(l1, |request|);
      (l2, len >= 4 && d[0] == 5 && d[1] == 0)
  }

  /** The username/password exchange. */
  function CoreAuth(l: Line, user: seq<U8>, pass: seq<U8>): (Line, bool) {
    if user == [] || |user| > 255 || |pass| > 255 then (l, false)
    else
      var (l1, n) := SendOn(l, Credentials(user, pass));
      if n != |Credentials(user, pass)| then (l1, false)
      else
        var (l2, len, d) := RecvOn(l1, 2);
        (l2, len == 2 && d[0] == 1 && d[1] == 0)
  }

  /** Greeting, method selection, and the authentication it may call for. */
  function CoreNegotiate(l: Line, user: seq<U8>, pass: seq<U8>): (Line, bool) {
    var greeting := Greeting(user != []);
    var (l1, n) := SendOn(l, greeting);
    if n != |greeting| then (l1, false)
    else
      var (l2, len, d) := RecvOn(l1, 2);
      if len != 2 || d[0] != 5 then (l2, false)
      else if d[1] == 2 then CoreAuth(l2, user, pass)
      else (l2, d[1] == 0)
  }

  /** `Socks5_Connect` and `Socks5_ConnectIPv6`, which differ in the request they send. */
  function CoreRun(l: Line, request: seq<U8>, user: seq<U8>, pass: seq<U8>): (Line, bool) {
    var (l1, ok) := CoreNegotiate(l, user, pass);
    if !ok then (l1, false) else CoreFinish(l1, request)
  }

  /** The credentials message of two 255-byte credentials does not fit the 512-byte buffer. */
  predicate Overflow(user: seq<U8>, pass: seq<U8>) {
    |user| == 255 && |pass| == 255
  }

  /** The server accepts the greeting and assigns username/password authentication. */
  predicate AsksForCredentials(l: Line, user: seq<U8>) {
    var (l1, n) := SendOn(l, Greeting(user != []));
    n == |Greeting(user != [])| &&
    var (_, len, d) := RecvOn(l1, 2);
    len == 2 && d[0] == 5 && d[1] == 2
  }

  /** The one case in which the C code writes past its buffer, after which nothing is promised. */
  predicate Undefined(l: Line, user: seq<U8>, pass: seq<U8>) {
    Overflow(user, pass) && AsksForCredentials(l, user)
  }

  /** It takes two 255-byte credentials and a server that has taken the offer of username/password whole and
      answered with that method. */
  lemma UndefinedMeans(l: Line, user: seq<U8>, pass: seq<U8>)
    ensures var (t, n) := (CoreNegotiate(l, user, pass).0.trace, |l.trace|);
      Undefined(l, user, pass)
      <==> |user| == 255 && |pass| == 255 && |t| > n + 1 && t[n].Wrote? && t[n].taken == 4
           && t[n + 1].Read? && t[n + 1].data == [5, 2]
  {
    var (l1, n) := SendOn(l, Greeting(user != []));
    var (l2, len, d) := RecvOn(l1, 2);
    hide SendOn, RecvOn, Credentials;
  }

  /** The handshake both core entry points open with. */
  method Negotiate(s: Socket, buf: array<U8>, user: seq<U8>, pass: seq<U8>) returns (ok: bool)
    requires buf.Length == 512
    modifies s`line, buf
    ensures Undefined(old(s.line), user, pass) || (s.line, ok) == CoreNegotiate(old(s.line), user, pass)
  {
    var useAuth := user != [];
    buf[0] := 5;
    var n: int;
    if useAuth {
      buf[1], buf[2], buf[3] := 2, 0, 2;
      assert buf[..4] == Greeting(true);
      n := s.Send(buf, 4);
      if n != 4 { return false; }
    } else {
      buf[1], buf[2] := 1, 0;
      assert buf[..3] == Greeting(false);
      n := s.Send(buf, 3);
      if n != 3 { return false; }
    }
    var len := s.Recv(buf, 2);
    if len != 2 { return false; }
    assert buf[..2][0] == buf[0] && buf[..2][1] == buf[1];
    if buf[0] != 5 { return false; }
    if buf[1] == 2 {
      if !useAuth {
        NoCredentials(s.line, user, pass);
        return false;
      }
      ok := Authenticate(s, buf, user, pass);
      return;
    }
    if buf[1] == 0xFF { return false; }
    return buf[1] == 0;
  }

  /** Username and password, written into the shared buffer. */
  method Authenticate(s: Socket, buf: array<U8>, user: seq<U8>, pass: seq<U8>) returns (ok: bool)
    requires buf.Length == 512 && user != []
    modifies s`line, buf
    ensures Overflow(user, pass) || (s.line, ok) == CoreAuth(old(s.line), user, pass)
  {
    if |user| > 255 || |pass| > 255 { return false; }
    if 3 + |user| + |pass| > buf.Length {
      // The C code writes past its buffer: any outcome is possible.
      s.line, ok := *, *;
      return;
    }
    buf[0], buf[1] := 1, |user|;
    CopyInto(buf, 2, user);
    buf[2 + |user|] := |pass|;
    CopyInto(buf, 3 + |user|, pass);
    var total := 3 + |user| + |pass|;
    assert buf[..total] == Credentials(user, pass);
    var n := s.Send(buf, total);
    if n != total { return false; }
    var len := s.Recv(buf, 2);
    if len != 2 { return false; }
    assert buf[..2][0] == buf[0] && buf[..2][1] == buf[1];
    return buf[0] == 1 && buf[1] == 0;
  }

  /** `memcpy(&buf[at], bytes, |bytes|)` */
  method CopyInto(buf: array<U8>, at: nat, bytes: seq<U8>)
    requires at + |bytes| <= buf.Length
    modifies buf
    ensures buf[..] == old(buf[..at]) + bytes + old(buf[at + |bytes|..])
  {
    for i := 0 to |bytes|
      invariant forall k :: 0 <= k < i ==> buf[at + k] == bytes[k]
      invariant forall k :: 0 <= k < buf.Length && !(at <= k < at + i) ==> buf[k] == old(buf[k])
    {
      buf[at + i] := bytes[i];
    }
    assert buf[at..at + |bytes|] == bytes;
  }

  /** Sends the request in the first bytes of the buffer and judges the reply. */
  method Finish(s: Socket, buf: array<U8>, count: nat) returns (ok: bool)
    requires 4 <= count <= buf.Length
    modifies s`line, buf
    ensures (s.line, ok) == CoreFinish(old(s.line), old(buf[..count]))
  {
    var n := s.Send(buf, count);
    if n != count { return false; }
    var len := s.Recv(buf, count);
    if len < 4 { return false; }
    assert buf[..len][0] == buf[0] && buf[..len][1] == buf[1];
    return buf[0] == 5 && buf[1] == 0;
  }

  method Connect(s: Socket, ip: U32, port: U16, user: seq<U8>, pass: seq<U8>) returns (ok: bool)
    modifies s`line
    ensures Undefined(old(s.line), user, pass) || (s.line, ok) == CoreRun(old(s.line), Request4(ip, port), user, pass)
  {
    hide CoreNegotiate, CoreFinish, Request4;
    var buf := new U8[512](_ => 0);
    ok := Negotiate(s, buf, user, pass);
    if !ok { return; }
    WriteRequest4(buf, ip, port);
    ok := Finish(s, buf, 10);
  }

  method WriteRequest4(buf: array<U8>, ip: U32, port: U16)
    requires buf.Length == 512
    modifies buf
    ensures buf[..10] == Request4(ip, port)
  {
    hide Octet;
    buf[0], buf[1], buf[2], buf[3] := 5, 1, 0, 1;
    buf[4], buf[5], buf[6], buf[7] := Octet(ip, 0), Octet(ip, 1), Octet(ip, 2), Octet(ip, 3);
    buf[8], buf[9] := port / 0x100, port % 0x100;
  }

  method ConnectIPv6(s: Socket, ip: seq<U8>, port: U16, user: seq<U8>, pass: seq<U8>) returns (ok: bool)
    requires |ip| == 16
    modifies s`line
    ensures Undefined(old(s.line), user, pass) || (s.line, ok) == CoreRun(old(s.line), Request6(ip, port), user, pass)
  {
    hide CoreNegotiate, CoreFinish, Request6;
    var buf := new U8[512](_ => 0);
    ok := Negotiate(s, buf, user, pass);
    if !ok { return; }
    WriteRequest6(buf, ip, port);
    ok := Finish(s, buf, 22);
  }

  method WriteRequest6(buf: array<U8>, ip: seq<U8>, port: U16)
    requires buf.Length == 512 && |ip| == 16
    modifies buf
    ensures buf[..22] == Request6(ip, port)
  {
    buf[0], buf[1], buf[2], buf[3] := 5, 1, 0, 4;
    CopyInto(buf, 4, ip);
    buf[20], buf[21] := port / 0x100, port % 0x100;
    assert buf[..20] == [5, 1, 0, 4] + ip;
  }

  /** The credentials of every `ProxyInfo` fit. */
  lemma ProxyCredentialsFit(p: ProxyInfo)
    ensures !Overflow(p.username, p.password)
    ensures |Credentials(p.username, p.password)| <= 129
  {
  }

  // ---- The protocol (sections 3, 4 and 6 of RFC 1928, section 2 of RFC 1929) ----

  /** Where a conversation stands, from what has gone over the line. */
  datatype Phase =
    | Opening
    | Offered(methods: seq<U8>)
    | MustAuthenticate
    | AwaitStatus
    | MayRequest
    | AwaitReply
    | Granted
    | Closed   // the client may send nothing more
    | Illegal

  predicate IsGreeting(m: seq<U8>) {
    |m| >= 3 && m[0] == 5 && m[1] == |m| - 2
  }

  /** An empty password is sent with length 0, which the standard does not foresee. */
  predicate IsCredentials(m: seq<U8>) {
    |m| >= 4 && m[0] == 1 && m[1] >= 1 && |m| >= 3 + m[1] as int && |m| == 3 + m[1] as int + m[2 + m[1] as int] as int
  }

  predicate IsConnect(m: seq<U8>) {
    |m| >= 4 && m[0] == 5 && m[1] == 1 && m[2] == 0 && ((m[3] == 1 && |m| == 10) || (m[3] == 4 && |m| == 22))
  }

  function Watch(p: Phase, io: IO): Phase {
    match (p, io)
    case (Opening, Wrote(m, n)) => if !IsGreeting(m) then Illegal else if n == |m| then Offered(m[2..]) else Closed
    case (Offered(methods), Read(want, len, d)) =>
      if want != 2 then Illegal
      else if len == 2 && |d| == 2 && d[0] == 5 && d[1] in methods then
        if d[1] == 0 then MayRequest else if d[1] == 2 then MustAuthenticate else Closed
      else Closed
    case (MustAuthenticate, Wrote(m, n)) =>
      if !IsCredentials(m) then Illegal else if n == |m| then AwaitStatus else Closed
    case (AwaitStatus, Read(want, len, d)) =>
      if want != 2 then Illegal else if len == 2 && d == [1, 0] then MayRequest else Closed
    case (MayRequest, Wrote(m, n)) => if !IsConnect(m) then Illegal else if n == |m| then AwaitReply else Closed
    case (AwaitReply, Read(_, len, d)) => if len >= 4 && |d| >= 4 && d[0] == 5 && d[1] == 0 then Granted else Closed
    case _ => Illegal
  }

  function Judge(trace: seq<IO>): Phase {
    if trace == [] then Opening else Watch(Judge(trace[..|trace| - 1]), trace[|trace| - 1])
  }

  lemma JudgeStep(trace: seq<IO>, io: IO)
    ensures Judge(trace + [io]) == Watch(Judge(trace), io)
  {
    assert (trace + [io])[..|trace|] == trace;
  }

  lemma SendJudged(l: Line, msg: seq<U8>)
    ensures Judge(SendOn(l, msg).0.trace) == Watch(Judge(l.trace), Wrote(msg, SendOn(l, msg).1))
  {
    JudgeStep(l.trace, Wrote(msg, SendOn(l, msg).1));
  }

  lemma RecvJudged(l: Line, want: nat)
    ensures var r := RecvOn(l, want); Judge(r.0.trace) == Watch(Judge(l.trace), Read(want, r.1, r.2))
  {
    var r := RecvOn(l, want);
    JudgeStep(l.trace, Read(want, r.1, r.2));
  }

  lemma FinishIsLegal(l: Line, request: seq<U8>)
    requires Judge(l.trace) == MayRequest && IsConnect(request)
    ensures var (l', ok) := CoreFinish(l, request); Judge(l'.trace) != Illegal && (ok <==> Judge(l'.trace) == Granted)
  {
    hide Judge, SendOn, RecvOn;
    SendJudged(l, request);
    RecvJudged(SendOn(l, request).0, |request|);
  }

  lemma CredentialsAreLegal(user: seq<U8>, pass: seq<U8>)
    requires 1 <= |user| <= 255 && |pass| <= 255
    ensures IsCredentials(Credentials(user, pass))
  {
    assert Credentials(user, pass)[2 + |user|] == |pass|;
  }

  lemma AuthIsLegal(l: Line, user: seq<U8>, pass: seq<U8>)
    requires Judge(l.trace) == MustAuthenticate
    ensures var (l', ok) := CoreAuth(l, user, pass);
      Judge(l'.trace) != Illegal && Judge(l'.trace) != Granted && (ok <==> Judge(l'.trace) == MayRequest)
  {
    hide Judge, SendOn, RecvOn, Credentials, IsCredentials;
    if user != [] && |user| <= 255 && |pass| <= 255 {
      CredentialsAreLegal(user, pass);
      SendJudged(l, Credentials(user, pass));
      var (l1, _) := SendOn(l, Credentials(user, pass));
      RecvJudged(l1, 2);
      var (_, len, d) := RecvOn(l1, 2);
      if len == 2 && d[0] == 1 && d[1] == 0 { assert d == [1, 0]; }
    }
  }

  /** What a greeting offers. */
  function Offer(auth: bool): seq<U8> { if auth then [0, 2] else [0] }

  lemma GreetingIsLegal(l: Line, auth: bool)
    requires l.trace == []
    ensures var (l1, n) := SendOn(l, Greeting(auth));
      Judge(l1.trace) == if n == |Greeting(auth)| then Offered(Offer(auth)) else Closed
  {
    assert Judge([]) == Opening;
    SendJudged(l, Greeting(auth));
    assert Greeting(auth)[2..] == Offer(auth);
    hide Judge, SendOn;
  }

  lemma ChoiceIsLegal(l: Line, methods: seq<U8>)
    requires Judge(l.trace) == Offered(methods)
    ensures var (l1, len, d) := RecvOn(l, 2);
      Judge(l1.trace) == if len == 2 && d[0] == 5 && d[1] in methods && d[1] in [0, 2]
                         then if d[1] == 0 then MayRequest else MustAuthenticate else Closed
  {
    RecvJudged(l, 2);
    hide Judge, RecvOn;
  }

  lemma NegotiationIsLegal(l: Line, user: seq<U8>, pass: seq<U8>)
    requires l.trace == []
    ensures var (l', ok) := CoreNegotiate(l, user, pass);
      Judge(l'.trace) != Illegal && Judge(l'.trace) != Granted && (ok <==> Judge(l'.trace) == MayRequest)
  {
    hide Judge, SendOn, RecvOn, CoreAuth, Greeting;
    var auth := user != [];
    GreetingIsLegal(l, auth);
    var (l1, n1) := SendOn(l, Greeting(auth));
    if n1 == |Greeting(auth)| {
      ChoiceIsLegal(l1, Offer(auth));
      var (l2, len, d) := RecvOn(l1, 2);
      if len == 2 && d[0] == 5 && d[1] == 2 {
        if auth { AuthIsLegal(l2, user, pass); } else { NoCredentials(l2, user, pass); }
      }
    }
  }

  lemma NoCredentials(l: Line, user: seq<U8>, pass: seq<U8>)
    requires user == []
    ensures CoreAuth(l, user, pass) == (l, false)
  {
  }

  /** Against any server and any receive lengths, the core client never leaves the protocol, and it
      reports success exactly when the server accepted a method, the authentication if that method
      asks for one, and the request. (The C code holds this conversation unless `Undefined`.) */
  lemma CoreFollowsProtocol(l: Line, request: seq<U8>, user: seq<U8>, pass: seq<U8>)
    requires l.trace == [] && IsConnect(request)
    ensures var (l', ok) := CoreRun(l, request, user, pass);
      Judge(l'.trace) != Illegal && (ok <==> Judge(l'.trace) == Granted)
  {
    hide Judge, CoreNegotiate, CoreFinish;
    NegotiationIsLegal(l, user, pass);
    var (l1, ok) := CoreNegotiate(l, user, pass);
    if ok { FinishIsLegal(l1, request); }
  }

  /** A server that takes every message whole, assigns no method to clients without a username and
      username/password to the others, accepts the credentials, and answers `reply`. */
  function Willing(user: seq<U8>, pass: seq<U8>, reply: seq<U8>): Peer {
    if user == [] then Peer([5, 0] + reply, [2, |reply|], [3, |reply|])
    else Peer([5, 2] + ([1, 0] + reply), [2, 2, |reply|], [4, 3 + |user| + |pass|, |reply|])
  }

  /** The client uses what a willing server grants: it offers username/password exactly if it has a username,
      shows both credentials, asks once, and succeeds. */
  lemma WillingServerIsUsed(request: seq<U8>, user: seq<U8>, pass: seq<U8>, reply: seq<U8>)
    requires |user| <= 255 && |pass| <= 255 && IsConnect(request)
    requires |reply| == |request| && reply[..2] == [5, 0]
    ensures var (l, ok) := CoreRun(Line(Willing(user, pass, reply), 0, 0, 0, []), request, user, pass);
      ok && l.trace ==
        (if user == [] then [Wrote([5, 1, 0], 3), Read(2, 2, [5, 0])]
         else [Wrote([5, 2, 0, 2], 4), Read(2, 2, [5, 2]),
               Wrote([1, |user|] + user + [|pass|] + pass, 3 + |user| + |pass|), Read(2, 2, [1, 0])])
        + [Wrote(request, |request|), Read(|request|, |request|, reply)]
  {
    assert reply[0] == reply[..2][0] && reply[1] == reply[..2][1];
    hide CoreNegotiate, CoreFinish;
    if user == [] { WillingOpens(pass, reply); } else { WillingAuthenticates(user, pass, reply); }
    var (l, _) := CoreNegotiate(Line(Willing(user, pass, reply), 0, 0, 0, []), user, pass);
    hide Willing;
    FinishWithReply(l, request, reply);
  }

  /** What is left of a willing server's script: the request and its reply. */
  predicate ReadyFor(l: Line, reply: seq<U8>) {
    && l.sends < |l.peer.accepts| && l.peer.accepts[l.sends] == |reply|
    && l.recvs < |l.peer.arrivals| && l.peer.arrivals[l.recvs] == |reply|
    && l.pos <= |l.peer.stream| && l.peer.stream[l.pos..] == reply
  }

  lemma WillingOpens(pass: seq<U8>, reply: seq<U8>)
    ensures var (l, ok) := CoreNegotiate(Line(Willing([], pass, reply), 0, 0, 0, []), [], pass);
      ok && ReadyFor(l, reply) && l.trace == [Wrote([5, 1, 0], 3), Read(2, 2, [5, 0])]
  {
    var l0 := Line(Willing([], pass, reply), 0, 0, 0, []);
    var (l1, n) := SendOn(l0, [5, 1, 0]);
    var (l2, len, d) := RecvOn(l1, 2);
    assert n == 3 && len == 2 && d == [5, 0];
    assert ReadyFor(l2, reply);
    hide SendOn, RecvOn, ReadyFor;
  }

  lemma WillingAuthenticates(user: seq<U8>, pass: seq<U8>, reply: seq<U8>)
    requires 1 <= |user| <= 255 && |pass| <= 255
    ensures var (l, ok) := CoreNegotiate(Line(Willing(user, pass, reply), 0, 0, 0, []), user, pass);
      ok && ReadyFor(l, reply)
      && l.trace == [Wrote([5, 2, 0, 2], 4), Read(2, 2, [5, 2]),
                     Wrote([1, |user|] + user + [|pass|] + pass, 3 + |user| + |pass|), Read(2, 2, [1, 0])]
  {
    var l0 := Line(Willing(user, pass, reply), 0, 0, 0, []);
    var (l1, n) := SendOn(l0, [5, 2, 0, 2]);
    var (l2, len, d) := RecvOn(l1, 2);
    assert n == 4 && len == 2 && d == [5, 2];
    var m := Credentials(user, pass);
    var (l3, n3) := SendOn(l2, m);
    var (l4, len4, d4) := RecvOn(l3, 2);
    assert n3 == |m| == 3 + |user| + |pass| && len4 == 2 && d4 == [1, 0];
    assert ReadyFor(l4, reply);
    assert CoreAuth(l2, user, pass) == (l4, true) by { hide Credentials, SendOn, RecvOn; }
    hide SendOn, RecvOn, CoreAuth, ReadyFor;
  }

  lemma FinishWithReply(l: Line, request: seq<U8>, reply: seq<U8>)
    requires |reply| == |request| >= 4 && reply[0] == 5 && reply[1] == 0
    requires ReadyFor(l, reply)
    ensures var (l', ok) := CoreFinish(l, request);
      ok && l'.trace == l.trace + [Wrote(request, |request|), Read(|request|, |request|, reply)]
  {
    var (l1, n) := SendOn(l, request);
    var (l2, len, d) := RecvOn(l1, |request|);
    assert n == |request| && len == |reply| && d == reply;
  }

  /** Leaving the protocol cannot be undone, so every prefix of a legal trace is legal. */
  lemma {:induction false} PrefixesAreLegal(trace: seq<IO>, k: nat)
    requires k <= |trace| && Judge(trace) != Illegal
    ensures Judge(trace[..k]) != Illegal
  {
    if k < |trace| {
      assert trace[..|trace| - 1][..k] == trace[..k];
      PrefixesAreLegal(trace[..|trace| - 1], k);
    } else {
      assert trace[..k] == trace;
    }
  }

  lemma JudgeNext(trace: seq<IO>, k: nat)
    requires k < |trace|
    ensures Judge(trace[..k + 1]) == Watch(Judge(trace[..k]), trace[k])
  {
    assert trace[..k + 1][..k] == trace[..k];
  }

  /** The step back from a credentials message, from the assignment of method 2, and from an offer. */
  lemma WatchBack(p: Phase, io: IO)
    ensures Watch(p, io) != Illegal && io.Wrote? && |io.msg| > 0 && io.msg[0] == 1 ==> p == MustAuthenticate
    ensures Watch(p, io) == MustAuthenticate ==> p.Offered? && 2 in p.methods && io.Read? && io.data == [5, 2]
    ensures Watch(p, io).Offered? ==>
      p == Opening && io.Wrote? && IsGreeting(io.msg) && Watch(p, io).methods == io.msg[2..]
  {
  }

  /** In a legal trace, credentials go out only after method 2 was offered and assigned. */
  lemma CredentialsOnlyWhenAssigned(trace: seq<IO>, k: nat)
    requires Judge(trace) != Illegal && k < |trace| && trace[k].Wrote? && |trace[k].msg| > 0 && trace[k].msg[0] == 1
    ensures k == 2 && trace[0].Wrote? && IsGreeting(trace[0].msg) && 2 in trace[0].msg[2..]
    ensures trace[1].Read? && trace[1].data == [5, 2]
  {
    hide Judge, IsGreeting;
    PrefixesAreLegal(trace, k + 1);
    AssignedBefore(trace, k);
    OfferedBefore(trace, k);
    GreetedBefore(trace, k - 1);
  }

  lemma AssignedBefore(trace: seq<IO>, k: nat)
    requires k < |trace| && Judge(trace[..k + 1]) != Illegal
    requires trace[k].Wrote? && |trace[k].msg| > 0 && trace[k].msg[0] == 1
    ensures Judge(trace[..k]) == MustAuthenticate
  {
    hide Judge, Watch;
    JudgeNext(trace, k);
    WatchBack(Judge(trace[..k]), trace[k]);
  }

  lemma OfferedBefore(trace: seq<IO>, k: nat)
    requires k <= |trace| && Judge(trace[..k]) == MustAuthenticate
    ensures k > 0 && trace[k - 1].Read? && trace[k - 1].data == [5, 2]
    ensures Judge(trace[..k - 1]).Offered? && 2 in Judge(trace[..k - 1]).methods
  {
    EmptyIsOpening(trace);
    hide Judge, Watch;
    if k > 0 {
      JudgeNext(trace, k - 1);
      WatchBack(Judge(trace[..k - 1]), trace[k - 1]);
    }
  }

  lemma GreetedBefore(trace: seq<IO>, k: nat)
    requires k <= |trace| && Judge(trace[..k]).Offered?
    ensures k == 1 && trace[0].Wrote? && IsGreeting(trace[0].msg) && Judge(trace[..k]).methods == trace[0].msg[2..]
  {
    EmptyIsOpening(trace);
    hide Judge, Watch, IsGreeting;
    if k > 0 {
      JudgeNext(trace, k - 1);
      WatchBack(Judge(trace[..k - 1]), trace[k - 1]);
      OnlyEmptyIsOpening(trace[..k - 1]);
    }
  }

  lemma EmptyIsOpening(trace: seq<IO>)
    ensures Judge(trace[..0]) == Opening
  {
  }

  lemma OnlyEmptyIsOpening(trace: seq<IO>)
    requires Judge(trace) == Opening
    ensures trace == []
  {
  }

  // ---- The client of the hook library ----

  datatype HookProxy = HookProxy(authRequired: bool, username: seq<U8>, password: seq<U8>)

  function Htons(port: U16): U16 { port % 0x100 * 0x100 + port / 0x100 }

  /** The bytes of a 16-bit value as they lie in memory on a little-endian machine. */
  function InMemory16(v: U16): seq<U8> { [v % 0x100, v / 0x100] }

  function HookAuthRun(l: Line, p: HookProxy): (Line, bool) {
    if p.username == [] || |p.username| > 255 || |p.password| > 255 then (l, false)
    else
      var req := [1, |p.username| as U8] + p.username + [|p.password| as U8] + p.password;
      var (l1, n) := SendOn(l, req);
      if n != |req| then (l1, false)
      else
        var (l2, len, d) := RecvOn(l1, 2);
        (l2, len == 2 && d[0] == 1 && d[1] == 0)
  }

  function HookHandshakeRun(l: Line, p: HookProxy): (Line, bool) {
    var greeting := if p.authRequired && p.username != [] then [5, 2, 0, 2] else [5, 1, 0];
    var (l1, n) := SendOn(l, greeting);
    if n != |greeting| then (l1, false)
    else
      var (l2, len, d) := RecvOn(l1, 2);
      if len != 2 || d[0] != 5 then (l2, false)
      else if d[1] == 0 then (l2, true)
      else if d[1] == 2 then HookAuthRun(l2, p)
      else (l2, false)
  }

  /** `DoConnect` insists on a full 10-byte reply, `DoConnectV6` on 4 of 22 bytes. */
  function HookConnectRun(l: Line, request: seq<U8>, least: nat): (Line, bool)
    requires least >= 2
  {
    var (l1, n) := SendOn(l, request);
    if n != |request| then (l1, false)
    else
      var (l2, len, d) := RecvOn(l1, |request|);
      (l2, len >= least && d[0] == 5 && d[1] == 0)
  }

  function HookRun(l: Line, request: seq<U8>, least: nat, p: HookProxy): (Line, bool)
    requires least >= 2
  {
    var (l1, ok) := HookHandshakeRun(l, p);
    if !ok then (l1, false) else HookConnectRun(l1, request, least)
  }

  class HookClient {
    var proxy: HookProxy

    constructor (proxy: HookProxy)
      ensures this.proxy == proxy
    {
      this.proxy := proxy;
    }

    method DoHandshake(s: Socket) returns (ok: bool)
      modifies s`line
      ensures (s.line, ok) == HookHandshakeRun(old(s.line), proxy)
    {
      var greeting := new U8[4](_ => 0);
      var count := 3;
      greeting[0] := 5;
      if proxy.authRequired && proxy.username != [] {
        greeting[1], greeting[2], greeting[3] := 2, 0, 2;
        count := 4;
        assert greeting[..4] == [5, 2, 0, 2];
      } else {
        greeting[1], greeting[2] := 1, 0;
        assert greeting[..3] == [5, 1, 0];
      }
      var sent := s.Send(greeting, count);
      if sent != count { return false; }
      var response := new U8[2](_ => 0);
      var received := s.Recv(response, 2);
      if received != 2 { return false; }
      assert response[..2][0] == response[0] && response[..2][1] == response[1];
      if response[0] != 5 { return false; }
      if response[1] == 0 { return true; }
      if response[1] == 2 {
        ok := DoAuthentication(s);
        return;
      }
      return false;
    }

    method DoAuthentication(s: Socket) returns (ok: bool)
      modifies s`line
      ensures (s.line, ok) == HookAuthRun(old(s.line), proxy)
    {
      if proxy.username == [] { return false; }
      var ulen, plen := |proxy.username|, |proxy.password|;
      if ulen > 255 || plen > 255 { return false; }
      var authReq: seq<U8> := [1, ulen] + proxy.username + [plen] + proxy.password;
      var data := new U8[|authReq|](i requires 0 <= i < |authReq| => authReq[i]);
      assert data[..|authReq|] == authReq;
      var sent := s.Send(data, |authReq|);
      if sent != |authReq| { return false; }
      var response := new U8[2](_ => 0);
      var received := s.Recv(response, 2);
      if received != 2 { return false; }
      assert response[..2][0] == response[0] && response[..2][1] == response[1];
      if response[0] != 1 { return false; }
      return response[1] == 0;
    }

    /** Address and port arrive in network byte order and are copied as they lie in memory. */
    method DoConnect(s: Socket, ip: U32, netPort: U16) returns (ok: bool)
      modifies s`line
      ensures (s.line, ok) == HookConnectRun(old(s.line),
        [5, 1, 0, 1, Octet(ip, 0), Octet(ip, 1), Octet(ip, 2), Octet(ip, 3)] + InMemory16(netPort), 10)
    {
      var request := new U8[10](_ => 0);
      request[0], request[1], request[2], request[3] := 5, 1, 0, 1;
      CopyInto(request, 4, [Octet(ip, 0), Octet(ip, 1), Octet(ip, 2), Octet(ip, 3)]);
      CopyInto(request, 8, InMemory16(netPort));
      assert request[..10] == [5, 1, 0, 1, Octet(ip, 0), Octet(ip, 1), Octet(ip, 2), Octet(ip, 3)]
        + InMemory16(netPort);
      var sent := s.Send(request, 10);
      if sent != 10 { return false; }
      var response := new U8[10](_ => 0);
      var received := s.Recv(response, 10);
      if received < 10 { return false; }
      assert response[..10][0] == response[0] && response[..10][1] == response[1];
      if response[0] != 5 { return false; }
      return response[1] == 0;
    }

    method DoConnectV6(s: Socket, ip: seq<U8>, netPort: U16) returns (ok: bool)
      requires |ip| == 16
      modifies s`line
      ensures (s.line, ok) == HookConnectRun(old(s.line), [5, 1, 0, 4] + ip + InMemory16(netPort), 4)
    {
      var request := new U8[22](_ => 0);
      request[0], request[1], request[2], request[3] := 5, 1, 0, 4;
      CopyInto(request, 4, ip);
      CopyInto(request, 20, InMemory16(netPort));
      assert request[..22] == [5, 1, 0, 4] + ip + InMemory16(netPort);
      var sent := s.Send(request, 22);
      if sent != 22 { return false; }
      var response := new U8[22](_ => 0);
      var received := s.Recv(response, 22);
      if received < 4 { return false; }
      assert response[..received][0] == response[0] && response[..received][1] == response[1];
      if response[0] != 5 { return false; }
      return response[1] == 0;
    }
  }

  // ---- The two clients agree ----

  /** Equal credentials, with authentication required exactly when there is a username. */
  predicate SameProxy(p: HookProxy, user: seq<U8>, pass: seq<U8>) {
    p.username == user && p.password == pass && (p.authRequired <==> user != [])
  }

  lemma PortBytesAgree(port: U16)
    ensures InMemory16(Htons(port)) == PortBytes(port)
  {
  }

  lemma HookMatchesCore(l: Line, request: seq<U8>, least: nat, p: HookProxy, user: seq<U8>, pass: seq<U8>)
    requires SameProxy(p, user, pass) && least >= 4 && |request| >= least
    ensures HookRun(l, request, least, p).0 == CoreRun(l, request, user, pass).0
    ensures HookRun(l, request, least, p).1 ==> CoreRun(l, request, user, pass).1
    ensures CoreRun(l, request, user, pass).1 ==>
      var t := CoreRun(l, request, user, pass).0.trace;
      |t| > 0 && t[|t| - 1].Read? && (HookRun(l, request, least, p).1 <==> t[|t| - 1].len >= least)
  {
    hide SendOn, RecvOn;
  }

  /** On IPv6 the two clients send identical bytes and return the same verdict. (The core client's C code
      holds this conversation unless `Undefined`.) */
  lemma ClientsAgreeOnIPv6(l: Line, ip: seq<U8>, port: U16, p: HookProxy, user: seq<U8>, pass: seq<U8>)
    requires SameProxy(p, user, pass) && |ip| == 16
    ensures HookRun(l, [5, 1, 0, 4] + ip + InMemory16(Htons(port)), 4, p) == CoreRun(l, Request6(ip, port), user, pass)
  {
    PortBytesAgree(port);
    HookMatchesCore(l, Request6(ip, port), 4, p, user, pass);
  }

  /** On IPv4 they send identical bytes; the hook accepts exactly when the core accepts on a reply
      that arrived in one piece of 10 bytes. (The core client's C code holds this conversation unless
      `Undefined`.) */
  lemma ClientsAgreeOnIPv4(l: Line, ip: U32, port: U16, p: HookProxy, user: seq<U8>, pass: seq<U8>)
    requires SameProxy(p, user, pass)
    ensures var request := [5, 1, 0, 1, Octet(ip, 0), Octet(ip, 1), Octet(ip, 2), Octet(ip, 3)]
      + InMemory16(Htons(port));
      var (hook, core) := (HookRun(l, request, 10, p), CoreRun(l, Request4(ip, port), user, pass));
      var t := core.0.trace;
      hook.0 == core.0 && (hook.1 <==> core.1 && |t| > 0 && t[|t| - 1].Read? && t[|t| - 1].len == 10)
  {
    PortBytesAgree(port);
    var request := [5, 1, 0, 1, Octet(ip, 0), Octet(ip, 1), Octet(ip, 2), Octet(ip, 3)] + InMemory16(Htons(port));
    assert request == Request4(ip, port);
    HookMatchesCore(l, request, 10, p, user, pass);
    if CoreRun(l, request, user, pass).1 { CoreReadsAtMost(l, request, user, pass); }
  }

  lemma CoreReadsAtMost(l: Line, request: seq<U8>, user: seq<U8>, pass: seq<U8>)
    requires CoreRun(l, request, user, pass).1
    ensures var t := CoreRun(l, request, user, pass).0.trace;
      |t| > 0 && t[|t| - 1].Read? && t[|t| - 1].len <= |request|
  {
    hide SendOn, RecvOn;
  }

  /** Accepts no authentication and grants a request in a reply that arrives as 4 of its bytes. */
  const TERSE_SERVER := Peer([5, 0, 5, 0, 0, 1], [2, 4], [3, 10])

  /** The clients disagree on a short IPv4 reply: the core accepts it, the hook refuses it. */
  lemma ShortReplyDivides(request: seq<U8>)
    requires |request| == 10
    ensures CoreRun(Line(TERSE_SERVER, 0, 0, 0, []), request, [], []).1
    ensures !HookRun(Line(TERSE_SERVER, 0, 0, 0, []), request, 10, HookProxy(false, [], [])).1
  {
    var l := Line(TERSE_SERVER, 0, 0, 0, []);
    var (l1, n1) := SendOn(l, [5, 1, 0]);
    var (l2, len2, d2) := RecvOn(l1, 2);
    assert n1 == 3 && len2 == 2 && d2 == [5, 0];
    var (l3, n3) := SendOn(l2, request);
    var (l4, len4, d4) := RecvOn(l3, 10);
    assert n3 == 10 && len4 == 4 && d4 == [5, 0, 0, 1];
    hide SendOn, RecvOn;
    assert CoreNegotiate(l, [], []) == (l2, true) && HookHandshakeRun(l, HookProxy(false, [], [])) == (l2, true);
  }

  // ---- When the second client keeps to the protocol ----

  lemma HookRunsLikeCore(l: Line, request: seq<U8>, least: nat, p: HookProxy)
    requires 4 <= least <= |request|
    requires p.authRequired || p.username == [] || |p.username| > 255 || |p.password| > 255
    ensures var (user, pass) := if p.authRequired then (p.username, p.password) else ([], []);
      HookRun(l, request, least, p).0 == CoreRun(l, request, user, pass).0
  {
    hide SendOn, RecvOn;
  }

  /** Assigns username/password without having been offered it. */
  const PUSHY_SERVER := Peer([5, 2], [2], [3])

  lemma PushyServerMisleads(request: seq<U8>, least: nat, p: HookProxy)
    requires least >= 2 && !p.authRequired && 1 <= |p.username| <= 255 && |p.password| <= 255
    ensures Judge(HookRun(Line(PUSHY_SERVER, 0, 0, 0, []), request, least, p).0.trace) == Illegal
  {
    var m := [1, |p.username| as U8] + p.username + [|p.password| as U8] + p.password;
    var l2 := PushyTalk();
    SendJudged(l2, m);
    assert l2.sends == 1 && |l2.peer.accepts| == 1;
    hide RecvOn, Judge, PUSHY_SERVER;
    assert HookAuthRun(l2, p) == (SendOn(l2, m).0, false);
    hide SendOn, HookAuthRun;
  }

  /** The offer of no authentication, and the answer to it. */
  lemma PushyTalk() returns (l: Line)
    ensures var (l1, n) := SendOn(Line(PUSHY_SERVER, 0, 0, 0, []), [5, 1, 0]);
      n == 3 && RecvOn(l1, 2) == (l, 2, [5, 2])
    ensures Judge(l.trace) == Closed && l.sends == 1 && l.peer == PUSHY_SERVER
  {
    var l0 := Line(PUSHY_SERVER, 0, 0, 0, []);
    GreetingIsLegal(l0, false);
    var (l1, n) := SendOn(l0, [5, 1, 0]);
    assert n == 3;
    ChoiceIsLegal(l1, [0]);
    var (l2, len, d) := RecvOn(l1, 2);
    assert len == 2 && d == [5, 2];
    hide Judge;
    l := l2;
  }

  /** The second client keeps to the protocol against every server exactly when it offers username/password
      wherever it would send them: otherwise a server can draw credentials that were never offered. */
  lemma HookKeepsToProtocol(request: seq<U8>, least: nat, p: HookProxy)
    requires IsConnect(request) && 4 <= least <= |request|
    ensures (forall l: Line :: l.trace == [] ==> Judge(HookRun(l, request, least, p).0.trace) != Illegal)
       <==> p.authRequired || p.username == [] || |p.username| > 255 || |p.password| > 255
  {
    hide HookRun, CoreRun, Judge, IsConnect;
    if p.authRequired || p.username == [] || |p.username| > 255 || |p.password| > 255 {
      forall l: Line | l.trace == [] ensures Judge(HookRun(l, request, least, p).0.trace) != Illegal {
        var (user, pass) := if p.authRequired then (p.username, p.password) else ([], []);
        HookRunsLikeCore(l, request, least, p);
        CoreFollowsProtocol(l, request, user, pass);
      }
    } else {
      PushyServerMisleads(request, least, p);
      assert Line(PUSHY_SERVER, 0, 0, 0, []).trace == [];
    }
  }
}
