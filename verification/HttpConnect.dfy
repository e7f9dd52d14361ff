/** The HTTP CONNECT client: Base64 credentials, the request text, and the status check. */
module HttpConnect {
  import opened CTypes
  import opened CStrings
  import opened Sockets

  // ---- Base64 (section 4 of RFC 4648) ----

  /** The alphabet: A-Z, a-z, 0-9, plus, slash. */
  function Symbol(v: nat): char
    requires v < 64
  {
    if v < 26 then 'A' + v as char
    else if v < 52 then 'a' + (v - 26) as char
    else if v < 62 then '0' + (v - 52) as char
    else if v == 62 then '+' else '/'
  }

  function SymbolValue(c: char): Option<nat> {
    if 'A' <= c <= 'Z' then Some((c - 'A') as nat)
    else if 'a' <= c <= 'z' then Some((c - 'a') as nat + 26)
    else if '0' <= c <= '9' then Some((c - '0') as nat + 52)
    else if c == '+' then Some(62) else if c == '/' then Some(63) else None
  }

  lemma SymbolsDecode(v: nat)
    requires v < 64
    ensures SymbolValue(Symbol(v)) == Some(v) && Symbol(v) != '='
  {
  }

  /** Four symbols for one to three bytes; a missing byte counts as zero and shows as padding. */
  function Group(b: seq<U8>): (s: string)
    requires 1 <= |b| <= 3
    ensures |s| == 4
  {
    var b1, b2, b3 := b[0], if |b| > 1 then b[1] else 0, if |b| > 2 then b[2] else 0;
    [Symbol(b1 / 4), Symbol(b1 % 4 * 16 + b2 / 16),
     if |b| > 1 then Symbol(b2 % 16 * 4 + b3 / 64) else '=',
     if |b| > 2 then Symbol(b3 % 64) else '=']
  }

  function Encode(b: seq<U8>): string {
    if b == [] then "" else if |b| <= 3 then Group(b) else Group(b[..3]) + Encode(b[3..])
  }

  lemma {:induction false} EncodeLength(b: seq<U8>)
    ensures |Encode(b)| == 4 * ((|b| + 2) / 3)
  {
    hide Group;
    if |b| > 3 { EncodeLength(b[3..]); }
  }

  /** A decoder for one group; padding only in the last one or two places. */
  function Ungroup(s: string): Option<seq<U8>>
    requires |s| == 4
  {
    match (SymbolValue(s[0]), SymbolValue(s[1]), SymbolValue(s[2]), SymbolValue(s[3]))
    case (Some(v0), Some(v1), Some(v2), Some(v3)) =>
      if v0 < 64 && v1 < 64 && v2 < 64 && v3 < 64
      then Some([(v0 * 4 + v1 / 16) as U8, (v1 % 16 * 16 + v2 / 4) as U8, (v2 % 4 * 64 + v3) as U8]) else None
    case (Some(v0), Some(v1), Some(v2), None) =>
      if s[3] == '=' && v0 < 64 && v1 < 64 && v2 < 64
      then Some([(v0 * 4 + v1 / 16) as U8, (v1 % 16 * 16 + v2 / 4) as U8]) else None
    case (Some(v0), Some(v1), None, None) =>
      if s[2] == '=' && s[3] == '=' && v0 < 64 && v1 < 64 then Some([(v0 * 4 + v1 / 16) as U8]) else None
    case _ => None
  }

  function Decode(s: string): Option<seq<U8>> {
    if s == "" then Some([])
    else if |s| < 4 then None
    else
      match (Ungroup(s[..4]), Decode(s[4..]))
      case (Some(a), Some(b)) => Some(a + b)
      case _ => None
  }

  /** The six-bit pieces put back together. */
  lemma PiecesRejoin(b1: U8, b2: U8, b3: U8)
    ensures var (v0, v1, v2, v3) := (b1 / 4, b1 % 4 * 16 + b2 / 16, b2 % 16 * 4 + b3 / 64, b3 % 64);
      v0 * 4 + v1 / 16 == b1 && v1 % 16 * 16 + v2 / 4 == b2 && v2 % 4 * 64 + v3 == b3
  {
  }

  lemma UngroupThree(b1: U8, b2: U8, b3: U8)
    ensures Ungroup(Group([b1, b2, b3])) == Some([b1, b2, b3])
  {
    var s, v0, v1 := Group([b1, b2, b3]), b1 / 4, b1 % 4 * 16 + b2 / 16;
    var v2, v3 := b2 % 16 * 4 + b3 / 64, b3 % 64;
    SymbolsDecode(v0);
    SymbolsDecode(v1);
    SymbolsDecode(v2);
    SymbolsDecode(v3);
    assert SymbolValue(s[0]) == Some(v0) && SymbolValue(s[1]) == Some(v1);
    assert SymbolValue(s[2]) == Some(v2) && SymbolValue(s[3]) == Some(v3);
    PiecesRejoin(b1, b2, b3);
    hide Symbol, SymbolValue, Group;
  }

  lemma UngroupTwo(b1: U8, b2: U8)
    ensures Ungroup(Group([b1, b2])) == Some([b1, b2])
  {
    var s, v0, v1, v2 := Group([b1, b2]), b1 / 4, b1 % 4 * 16 + b2 / 16, b2 % 16 * 4;
    SymbolsDecode(v0);
    SymbolsDecode(v1);
    SymbolsDecode(v2);
    assert SymbolValue(s[0]) == Some(v0) && SymbolValue(s[1]) == Some(v1) && SymbolValue(s[2]) == Some(v2);
    assert s[3] == '=' && SymbolValue(s[3]) == None;
    PiecesRejoin(b1, b2, 0);
    hide Symbol, SymbolValue, Group;
  }

  lemma UngroupOne(b1: U8)
    ensures Ungroup(Group([b1])) == Some([b1])
  {
    var s, v0, v1 := Group([b1]), b1 / 4, b1 % 4 * 16;
    SymbolsDecode(v0);
    SymbolsDecode(v1);
    assert SymbolValue(s[0]) == Some(v0) && SymbolValue(s[1]) == Some(v1);
    assert s[2] == s[3] == '=' && SymbolValue('=') == None;
    PiecesRejoin(b1, 0, 0);
    hide Symbol, SymbolValue, Group;
  }

  lemma UngroupGroup(b: seq<U8>)
    requires 1 <= |b| <= 3
    ensures Ungroup(Group(b)) == Some(b)
  {
    hide Ungroup, Group;
    if |b| == 3 {
      UngroupThree(b[0], b[1], b[2]);
      assert b == [b[0], b[1], b[2]];
    } else if |b| == 2 {
      UngroupTwo(b[0], b[1]);
      assert b == [b[0], b[1]];
    } else {
      UngroupOne(b[0]);
      assert b == [b[0]];
    }
  }

  /** Encoding loses nothing. */
  lemma {:induction false} DecodeEncode(b: seq<U8>)
    ensures Decode(Encode(b)) == Some(b)
  {
    if b != [] {
      if |b| <= 3 {
        UngroupGroup(b);
        assert Encode(b)[..4] == Group(b) && Encode(b)[4..] == "";
        assert Decode("") == Some([]) && b + [] == b;
      } else {
        UngroupGroup(b[..3]);
        DecodeEncode(b[3..]);
        assert Encode(b)[..4] == Group(b[..3]) && Encode(b)[4..] == Encode(b[3..]);
        assert b[..3] + b[3..] == b;
      }
    }
  }

  /** Number of groups the encoder writes into a buffer of `size` characters. */
  function Groups(n: nat, size: nat): nat
    requires size >= 4
  {
    Min((n + 2) / 3, (size - 1) / 4) as nat
  }

  lemma EncodePrefix(b: seq<U8>, k: nat)
    requires 3 * k < |b|
    ensures Encode(Take(b, 3 * k + 3)) == Encode(b[..3 * k]) + Group(b[3 * k..Min(3 * k + 3, |b|)])
  {
    EncodeConcat(b[..3 * k], b[3 * k..Min(3 * k + 3, |b|)]);
    assert b[..3 * k] + b[3 * k..Min(3 * k + 3, |b|)] == Take(b, 3 * k + 3);
  }

  /** Whole groups encode independently of what follows them. */
  lemma {:induction false} EncodeConcat(a: seq<U8>, last: seq<U8>)
    requires |a| % 3 == 0 && 1 <= |last| <= 3
    ensures Encode(a + last) == Encode(a) + Group(last)
  {
    hide Encode, Group;
    if a == [] {
      assert a + last == last;
      EncodeLast(last);
    } else {
      HeadOfConcat(a, last);
      EncodeCons(a + last);
      FullGroup(a);
      EncodeConcat(a[3..], last);
      Associates(Group(a[..3]), Encode(a[3..]), Group(last));
    }
  }

  lemma EncodeLast(last: seq<U8>)
    requires 1 <= |last| <= 3
    ensures Encode(last) == Group(last) == Encode([]) + Group(last)
  {
  }

  lemma HeadOfConcat(a: seq<U8>, last: seq<U8>)
    requires |a| >= 3
    ensures (a + last)[..3] == a[..3] && (a + last)[3..] == a[3..] + last
  {
  }

  lemma Associates(x: string, y: string, z: string)
    ensures x + (y + z) == (x + y) + z
  {
  }

  lemma FullGroup(a: seq<U8>)
    requires |a| % 3 == 0 && a != []
    ensures Encode(a) == Group(a[..3]) + Encode(a[3..])
  {
    if |a| == 3 { assert a[..3] == a && a[3..] == []; }
  }

  lemma EncodeCons(b: seq<U8>)
    requires |b| > 3
    ensures Encode(b) == Group(b[..3]) + Encode(b[3..])
  {
  }

  function Take<T>(s: seq<T>, n: nat): seq<T> { if n <= |s| then s[..n] else s }

  /** `base64_encode`: writes whole groups while they and the terminator fit. */
  method Base64Encode(input: seq<U8>, output: array<char>) returns (len: nat)
    requires output.Length >= 4
    modifies output
    ensures len == 4 * Groups(|input|, output.Length) < output.Length
    ensures output[..len] == Encode(Take(input, 3 * Groups(|input|, output.Length))) && output[len] == '\0'
    ensures 4 * ((|input| + 2) / 3) < output.Length <==> Take(input, 3 * Groups(|input|, output.Length)) == input
  {
    hide Encode, Group, Groups;
    EncodeNothing();
    var i := 0;
    len := 0;
    ghost var k := 0;
    while i < |input| && len < output.Length - 4
      invariant i == 3 * k && len == 4 * k && i <= |input| + 2 && len < output.Length
      invariant output[..len] == Encode(Take(input, 3 * k))
      decreases |input| - i
    {
      EncodePrefix(input, k);
      WriteGroup(input, i, output, len);
      len := len + 4;
      i := i + 3;
      k := k + 1;
    }
    GroupsReached(|input|, output.Length, k);
    GroupsSuffice(input, output.Length);
    output[len] := '\0';
  }

  /** Where the encoder stops. */
  lemma GroupsReached(n: nat, size: nat, k: nat)
    requires size >= 4 && 3 * k <= n + 2 && 4 * k < size && (3 * k >= n || 4 * k >= size - 4)
    ensures Groups(n, size) == k
  {
  }

  /** The whole input is encoded exactly when its encoding and the terminator fit. */
  lemma GroupsSuffice(input: seq<U8>, size: nat)
    requires size >= 4
    ensures 4 * ((|input| + 2) / 3) < size <==> Take(input, 3 * Groups(|input|, size)) == input
  {
    assert Take(input, 3 * Groups(|input|, size)) == input <==> 3 * Groups(|input|, size) >= |input|;
  }

  lemma EncodeNothing()
    ensures Encode([]) == ""
  {
  }

  method WriteGroup(input: seq<U8>, i: nat, output: array<char>, len: nat)
    requires i < |input| && len + 4 <= output.Length
    modifies output
    ensures output[..len + 4] == old(output[..len]) + Group(input[i..Min(i + 3, |input|)])
  {
    var b1 := input[i];
    var b2 := if i + 1 < |input| then input[i + 1] else 0;
    var b3 := if i + 2 < |input| then input[i + 2] else 0;
    output[len] := Symbol(b1 / 4);
    output[len + 1] := Symbol(b1 % 4 * 16 + b2 / 16);
    output[len + 2] := if i + 1 < |input| then Symbol(b2 % 16 * 4 + b3 / 64) else '=';
    output[len + 3] := if i + 2 < |input| then Symbol(b3 % 64) else '=';
    ghost var piece := input[i..Min(i + 3, |input|)];
    assert piece[0] == b1 && (|piece| > 1 ==> piece[1] == b2) && (|piece| > 2 ==> piece[2] == b3);
    assert output[len..len + 4] == Group(piece);
    assert output[..len + 4] == output[..len] + output[len..len + 4];
  }

  // ---- The request ----

  function DottedQuad(ip: U32): string {
    Dec(Octet(ip, 0)) + "." + (Dec(Octet(ip, 1)) + "." + (Dec(Octet(ip, 2)) + "." + Dec(Octet(ip, 3))))
  }

  function Authority(ip: U32, port: U16): string {
    DottedQuad(ip) + ":" + Dec(port)
  }

  const CRLF := "\r\n"

  function RequestLine(ip: U32, port: U16): string {
    "CONNECT " + (Authority(ip, port) + " HTTP/1.1\r\n")
  }

  /** Username, colon and password, formatted into a 512-byte buffer, which cuts longer texts. */
  function UserPass(user: seq<U8>, pass: seq<U8>): (c: seq<U8>)
    ensures |c| <= 511 && c <= user + [58] + pass
    ensures c == user + [58] + pass <==> |user| + |pass| <= 510
    ensures |user| + |pass| >= 510 ==> |c| == 511
  {
    Clip(user + [58] + pass, 511)
  }

  function Headers(ip: U32, port: U16, user: seq<U8>, pass: seq<U8>): string {
    "Host: " + Authority(ip, port) + CRLF
    + (if user != [] then "Proxy-Authorization: Basic " + Encode(UserPass(user, pass)) + CRLF else "")
    + "Proxy-Connection: keep-alive\r\n" + CRLF
  }

  function RequestText(ip: U32, port: U16, user: seq<U8>, pass: seq<U8>): string {
    RequestLine(ip, port) + Headers(ip, port, user, pass)
  }

  /** A proxy's reading of the request line. */
  function ParseNumber(s: string, after: char): Option<(nat, string)> {
    var (n, rest) := ReadNat(s);
    if rest != "" && rest[0] == after then Some((n, rest[1..])) else None
  }

  function ParseTarget(text: string): Option<(seq<nat>, string)> {
    if |text| < 8 || text[..8] != "CONNECT " then None
    else
      match ParseNumber(text[8..], '.') case None => None case Some((a, s1)) =>
      match ParseNumber(s1, '.') case None => None case Some((b, s2)) =>
      match ParseNumber(s2, '.') case None => None case Some((c, s3)) =>
      match ParseNumber(s3, ':') case None => None case Some((d, s4)) =>
      match ParseNumber(s4, ' ') case None => None case Some((port, rest)) => Some(([a, b, c, d, port], rest))
  }

  lemma NumberParses(n: nat, after: char, rest: string)
    requires !IsDigit(after)
    ensures ParseNumber(Dec(n) + ([after] + rest), after) == Some((n, rest))
  {
    AtoiDec(n, [after] + rest);
    assert ([after] + rest)[1..] == rest;
  }

  /** The text of a request line read from the left. */
  lemma LineNests(a: string, b: string, c: string, d: string, port: string, headers: string)
    ensures var text := "CONNECT " + ((a + "." + (b + "." + (c + "." + d)) + ":" + port) + " HTTP/1.1\r\n") + headers;
      var tail := "HTTP/1.1\r\n" + headers;
      && |text| >= 8 && text[..8] == "CONNECT "
      && text[8..] == a + (['.'] + (b + (['.'] + (c + (['.'] + (d + ([':'] + (port + ([' '] + tail)))))))))
  {
    var authority := a + "." + (b + "." + (c + "." + d)) + ":" + port;
    var text := "CONNECT " + (authority + " HTTP/1.1\r\n") + headers;
    assert text[8..] == authority + (" HTTP/1.1\r\n" + headers);
    assert " HTTP/1.1\r\n" + headers == [' '] + ("HTTP/1.1\r\n" + headers);
    LeftNested(a, b, c, d, port, [' '] + ("HTTP/1.1\r\n" + headers));
  }

  lemma LeftNested(a: string, b: string, c: string, d: string, port: string, rest: string)
    ensures (a + "." + (b + "." + (c + "." + d)) + ":" + port) + rest
         == a + (['.'] + (b + (['.'] + (c + (['.'] + (d + ([':'] + (port + rest))))))))
  {
    assert (d + ":" + port) + rest == d + ([':'] + (port + rest));
    assert (c + "." + d + ":" + port) + rest == c + (['.'] + ((d + ":" + port) + rest));
    assert (b + "." + (c + "." + d) + ":" + port) + rest == b + (['.'] + ((c + "." + d + ":" + port) + rest));
    assert (a + "." + (b + "." + (c + "." + d)) + ":" + port) + rest
        == a + (['.'] + ((b + "." + (c + "." + d) + ":" + port) + rest));
  }

  /** The request line names exactly the destination address and port, whatever headers follow. */
  lemma RequestNamesTarget(ip: U32, port: U16, user: seq<U8>, pass: seq<U8>)
    ensures ParseTarget(RequestText(ip, port, user, pass)).Some?
    ensures ParseTarget(RequestText(ip, port, user, pass)).value.0
         == [Octet(ip, 0), Octet(ip, 1), Octet(ip, 2), Octet(ip, 3), port]
  {
    hide Dec, ParseNumber, Headers, Octet;
    var headers := Headers(ip, port, user, pass);
    LineNests(Dec(Octet(ip, 0)), Dec(Octet(ip, 1)), Dec(Octet(ip, 2)), Dec(Octet(ip, 3)), Dec(port), headers);
    var tail := "HTTP/1.1\r\n" + headers;
    var s4 := Dec(port) + ([' '] + tail);
    var s3 := Dec(Octet(ip, 3)) + ([':'] + s4);
    var s2 := Dec(Octet(ip, 2)) + (['.'] + s3);
    var s1 := Dec(Octet(ip, 1)) + (['.'] + s2);
    NumberParses(Octet(ip, 0), '.', s1);
    NumberParses(Octet(ip, 1), '.', s2);
    NumberParses(Octet(ip, 2), '.', s3);
    NumberParses(Octet(ip, 3), ':', s4);
    NumberParses(port, ' ', tail);
  }

  /** The credentials reach the proxy in the Authorization header, from which username, colon and password
      can be decoded, whole exactly when they fit 511 bytes. The header is all that credentials add. */
  lemma AuthorizationCarriesCredentials(ip: U32, port: U16, user: seq<U8>, pass: seq<U8>)
    returns (before: string, encoded: string, after: string)
    requires user != []
    ensures RequestText(ip, port, user, pass) == before + ("Proxy-Authorization: Basic " + encoded + CRLF) + after
    ensures RequestText(ip, port, [], pass) == before + after
    ensures Decode(encoded).Some? && Decode(encoded).value <= user + [58] + pass
    ensures Decode(encoded) == Some(user + [58] + pass) <==> |user| + |pass| <= 510
    ensures |user| + |pass| >= 510 ==> |Decode(encoded).value| == 511
  {
    encoded := Encode(UserPass(user, pass));
    DecodeEncode(UserPass(user, pass));
    before := RequestLine(ip, port) + ("Host: " + Authority(ip, port) + CRLF);
    after := "Proxy-Connection: keep-alive\r\n" + CRLF;
    hide Encode, Decode, RequestLine, Authority, UserPass, CRLF;
    var host := "Host: " + Authority(ip, port) + CRLF;
    var header := "Proxy-Authorization: Basic " + encoded + CRLF;
    Nested(RequestLine(ip, port), host, header, "Proxy-Connection: keep-alive\r\n", CRLF);
    Nested(RequestLine(ip, port), host, "", "Proxy-Connection: keep-alive\r\n", CRLF);
  }

  lemma Nested(line: string, host: string, header: string, keep: string, end: string)
    ensures line + (host + header + keep + end) == line + host + header + (keep + end)
    ensures line + host + "" == line + host
  {
  }

  /** A proxy's reading of a request head: the lines up to the blank one, and what follows it. */
  function ReadHead(s: string, line: string := ""): Option<(seq<string>, string)>
    decreases |s|
  {
    if |s| < 2 then None
    else if s[..2] != "\r\n" then ReadHead(s[1..], line + [s[0]])
    else if line == "" then Some(([], s[2..]))
    else match ReadHead(s[2..]) case None => None case Some((lines, rest)) => Some(([line] + lines, rest))
  }

  lemma {:induction false} LineIsRead(line: string, s: string, before: string)
    requires '\r' !in line && before + line != ""
    ensures var r := ReadHead(s);
      ReadHead(line + ("\r\n" + s), before)
      == match r case None => None case Some((lines, rest)) => Some(([before + line] + lines, rest))
  {
    var text := line + ("\r\n" + s);
    if line == "" {
      assert text[..2] == "\r\n" && text[2..] == s && before + line == before;
    } else {
      assert text[0] == line[0] && text[0] in line && text[..2][0] != "\r\n"[0];
      assert text[1..] == line[1..] + ("\r\n" + s);
      assert (before + [line[0]]) + line[1..] == before + line;
      LineIsRead(line[1..], s, before + [line[0]]);
    }
  }

  lemma NextLineIsRead(line: string, s: string, lines: seq<string>)
    requires '\r' !in line && line != "" && ReadHead(s) == Some((lines, ""))
    ensures ReadHead(line + ("\r\n" + s)) == Some(([line] + lines, ""))
  {
    LineIsRead(line, s, "");
    assert "" + line == line;
  }

  lemma DigitsAreInline(n: nat)
    ensures '\r' !in Dec(n)
  {
  }

  lemma {:induction false} EncodingIsInline(b: seq<U8>)
    ensures '\r' !in Encode(b)
  {
    if |b| > 3 { EncodingIsInline(b[3..]); }
  }

  lemma AuthorityIsInline(ip: U32, port: U16)
    ensures '\r' !in Authority(ip, port)
    ensures Authority(ip, port) == Dec(Octet(ip, 0)) + "." + (Dec(Octet(ip, 1)) + "." + (Dec(Octet(ip, 2)) + "."
                                   + Dec(Octet(ip, 3)))) + ":" + Dec(port)
  {
    DigitsAreInline(Octet(ip, 0));
    DigitsAreInline(Octet(ip, 1));
    DigitsAreInline(Octet(ip, 2));
    DigitsAreInline(Octet(ip, 3));
    DigitsAreInline(port);
    hide Dec, Octet;
  }

  /** The whole request is one head: the request line, the host, the credentials if there is a username, and
      the connection header, closed by one blank line with nothing after it. */
  lemma RequestIsOneHead(ip: U32, port: U16, user: seq<U8>, pass: seq<U8>)
    ensures var to := Dec(Octet(ip, 0)) + "." + (Dec(Octet(ip, 1)) + "." + (Dec(Octet(ip, 2)) + "."
                      + Dec(Octet(ip, 3)))) + ":" + Dec(port);
      ReadHead(RequestText(ip, port, user, pass))
      == Some((["CONNECT " + to + " HTTP/1.1", "Host: " + to]
               + (if user == [] then [] else ["Proxy-Authorization: Basic " + Encode(UserPass(user, pass))])
               + ["Proxy-Connection: keep-alive"], ""))
  {
    var to := Authority(ip, port);
    AuthorityIsInline(ip, port);
    EncodingIsInline(UserPass(user, pass));
    hide Dec, Octet, Encode, UserPass, Authority, ReadHead;
    var first, host, keep := "CONNECT " + to + " HTTP/1.1", "Host: " + to, "Proxy-Connection: keep-alive";
    var proof := "Proxy-Authorization: Basic " + Encode(UserPass(user, pass));
    HeadEnds();
    KeepIsInline(to, proof, Encode(UserPass(user, pass)));
    NextLineIsRead(keep, "\r\n", []);
    var tail := keep + ("\r\n" + "\r\n");
    var middle := if user == [] then tail else proof + ("\r\n" + tail);
    var lines := (if user == [] then [] else [proof]) + [keep];
    assert [keep] + [] == [keep];
    if user != [] { NextLineIsRead(proof, tail, [keep]); } else { assert lines == [keep]; }
    NextLineIsRead(host, middle, lines);
    NextLineIsRead(first, host + ("\r\n" + middle), [host] + lines);
    RequestNests(ip, port, user, pass, proof);
    assert [first] + ([host] + lines) == [first, host] + (if user == [] then [] else [proof]) + [keep];
  }

  lemma HeadEnds()
    ensures ReadHead("\r\n") == Some(([], ""))
  {
    assert "\r\n"[..2] == "\r\n" && "\r\n"[2..] == "";
  }

  lemma KeepIsInline(to: string, proof: string, encoded: string)
    requires '\r' !in to && '\r' !in encoded && proof == "Proxy-Authorization: Basic " + encoded
    ensures '\r' !in "CONNECT " + to + " HTTP/1.1" && '\r' !in "Host: " + to && '\r' !in proof
    ensures '\r' !in "Proxy-Connection: keep-alive"
  {
  }

  lemma RequestNests(ip: U32, port: U16, user: seq<U8>, pass: seq<U8>, proof: string)
    requires proof == "Proxy-Authorization: Basic " + Encode(UserPass(user, pass))
    ensures var to := Authority(ip, port);
      var tail := "Proxy-Connection: keep-alive" + ("\r\n" + "\r\n");
      var middle := if user == [] then tail else proof + ("\r\n" + tail);
      RequestText(ip, port, user, pass)
      == ("CONNECT " + to + " HTTP/1.1") + ("\r\n" + (("Host: " + to) + ("\r\n" + middle)))
  {
    hide Authority, Encode, UserPass;
  }

  /** With any credentials the text fits the 1024-byte request buffer with its terminator, and so does
      the Base64 text its own. */
  lemma RequestFits(ip: U32, port: U16, user: seq<U8>, pass: seq<U8>)
    ensures 4 * ((|UserPass(user, pass)| + 2) / 3) < 1024 && |Encode(UserPass(user, pass))| < 1024
    ensures |RequestText(ip, port, user, pass)| < 1024
  {
    assert Pow10(3) == 1000 && Pow10(5) == 100000 by {
      assert Pow10(1) == 10 && Pow10(2) == 100 && Pow10(3) == 1000 && Pow10(4) == 10000;
    }
    DecLength(Octet(ip, 0), 3);
    DecLength(Octet(ip, 1), 3);
    DecLength(Octet(ip, 2), 3);
    DecLength(Octet(ip, 3), 3);
    DecLength(port, 5);
    EncodeLength(UserPass(user, pass));
    hide Pow10, Dec, Encode, UserPass, Octet;
  }

  // ---- The conversation ----

  function Ascii(text: string): seq<U8> {
    seq(|text|, i requires 0 <= i < |text| => (text[i] as int) % 0x100)
  }

  /** Received bytes as a C string: cut at the first zero byte. */
  function AsCString(d: seq<U8>): string {
    TextOf(d)[..IndexOf(TextOf(d), '\0')]
  }

  /** Bytes read as text, one character each. */
  function TextOf(d: seq<U8>): string {
    seq(|d|, i requires 0 <= i < |d| => d[i] as char)
  }

  predicate Narrow(s: string) {
    forall i :: 0 <= i < |s| ==> s[i] as int < 0x100
  }

  lemma NarrowTextRoundTrip(s: string)
    requires Narrow(s)
    ensures TextOf(Ascii(s)) == s
  {
  }

  lemma {:induction false} EncodeIsNarrow(b: seq<U8>)
    ensures Narrow(Encode(b))
  {
    if |b| > 3 { EncodeIsNarrow(b[3..]); }
  }

  lemma DigitsAreNarrow(n: nat)
    ensures Narrow(Dec(n))
  {
    assert forall i :: 0 <= i < |Dec(n)| ==> Dec(n)[i] in Dec(n);
  }

  lemma RequestIsNarrow(ip: U32, port: U16, user: seq<U8>, pass: seq<U8>)
    ensures Narrow(RequestText(ip, port, user, pass))
  {
    LineIsNarrow(ip, port);
    HeadersAreNarrow(ip, port, user, pass);
    hide RequestLine, Headers, Narrow;
    NarrowConcat(RequestLine(ip, port), Headers(ip, port, user, pass));
  }

  lemma LineIsNarrow(ip: U32, port: U16)
    ensures Narrow(RequestLine(ip, port))
  {
    AuthorityIsNarrow(ip, port);
    assert Narrow("CONNECT ") && Narrow(" HTTP/1.1\r\n");
    hide Authority, Narrow;
    NarrowConcat(Authority(ip, port), " HTTP/1.1\r\n");
    NarrowConcat("CONNECT ", Authority(ip, port) + " HTTP/1.1\r\n");
  }

  lemma HeadersAreNarrow(ip: U32, port: U16, user: seq<U8>, pass: seq<U8>)
    ensures Narrow(Headers(ip, port, user, pass))
  {
    hide Authority, Encode, UserPass, Narrow, CRLF;
    var host := "Host: " + Authority(ip, port) + CRLF;
    var credentials := if user != [] then "Proxy-Authorization: Basic " + Encode(UserPass(user, pass)) + CRLF else "";
    var keep := "Proxy-Connection: keep-alive\r\n";
    AuthorityIsNarrow(ip, port);
    CredentialsAreNarrow(user, pass);
    LiteralsAreNarrow();
    NarrowConcat("Host: ", Authority(ip, port));
    NarrowConcat("Host: " + Authority(ip, port), CRLF);
    NarrowConcat(host, credentials);
    NarrowConcat(host + credentials, keep);
    NarrowConcat(host + credentials + keep, CRLF);
  }

  lemma LiteralsAreNarrow()
    ensures Narrow("Host: ") && Narrow(CRLF) && Narrow("")
    ensures Narrow("Proxy-Authorization: Basic ") && Narrow("Proxy-Connection: keep-alive\r\n")
  {
  }

  lemma CredentialsAreNarrow(user: seq<U8>, pass: seq<U8>)
    ensures Narrow(if user != [] then "Proxy-Authorization: Basic " + Encode(UserPass(user, pass)) + CRLF else "")
  {
    hide Encode, UserPass, Narrow, CRLF;
    var e := Encode(UserPass(user, pass));
    EncodeIsNarrow(UserPass(user, pass));
    LiteralsAreNarrow();
    NarrowConcat("Proxy-Authorization: Basic ", e);
    NarrowConcat("Proxy-Authorization: Basic " + e, CRLF);
  }

  lemma NarrowConcat(a: string, b: string)
    ensures Narrow(a) && Narrow(b) ==> Narrow(a + b)
  {
  }

  lemma AuthorityIsNarrow(ip: U32, port: U16)
    ensures Narrow(Authority(ip, port))
  {
    DigitsAreNarrow(Octet(ip, 0));
    DigitsAreNarrow(Octet(ip, 1));
    DigitsAreNarrow(Octet(ip, 2));
    DigitsAreNarrow(Octet(ip, 3));
    DigitsAreNarrow(port);
    hide Dec;
  }

  predicate IsSuccess(response: string) {
    && |response| >= 7 && response[..7] == "HTTP/1."
    && ' ' in response && Atoi(response[IndexOf(response, ' ') + 1..]) == 200
  }

  function HttpRun(l: Line, ip: U32, port: U16, user: seq<U8>, pass: seq<U8>): (Line, bool) {
    var request := Ascii(RequestText(ip, port, user, pass));
    var (l1, n) := SendOn(l, request);
    if n != |request| then (l1, false)
    else
      var (l2, len, d) := RecvOn(l1, 4095);
      (l2, len > 0 && IsSuccess(AsCString(d)))
  }

  /** A status line is accepted exactly when its code is 200, whatever follows. */
  lemma StatusDecides(minor: char, code: nat, rest: string)
    requires minor != ' ' && (rest == "" || !IsDigit(rest[0]))
    ensures IsSuccess("HTTP/1." + [minor] + [' '] + (Dec(code) + rest)) <==> code == 200
  {
    var response := "HTTP/1." + [minor] + [' '] + (Dec(code) + rest);
    IndexOfSplit("HTTP/1." + [minor], ' ', Dec(code) + rest);
    assert response[8] == ' ' && response[9..] == Dec(code) + rest;
    AtoiDec(code, rest);
  }

  // ---- When the conversation succeeds ----

  /** Reply `d` begins with `HTTP/1.`, has its first space or zero byte at `i`, a space; after it come blanks up to
      `j`, a plus sign or nothing up to `k`, zeros up to `m`, then 200 and no further digit. */
  predicate GrantsAt(d: seq<U8>, i: nat, j: nat, k: nat, m: nat) {
    && 7 <= i < j <= k <= m && m + 3 <= |d|
    && d[..7] == [72, 84, 84, 80, 47, 49, 46]
    && d[i] == 32 && (forall x :: 7 <= x < i ==> d[x] != 32 && d[x] != 0)
    && (forall x :: i < x < j ==> d[x] == 32 || 9 <= d[x] <= 13)
    && (k == j || (k == j + 1 && d[j] == 43))
    && (forall x :: k <= x < m ==> d[x] == 48)
    && d[m] == 50 && d[m + 1] == 48 && d[m + 2] == 48 && (m + 3 == |d| || !(48 <= d[m + 3] <= 57))
  }

  ghost predicate Grants(d: seq<U8>) {
    exists i: nat, j: nat, k: nat, m: nat :: GrantsAt(d, i, j, k, m)
  }

  /** Zeros up to `m`, then 200 and no further digit: all texts whose leading digits have the value 200. */
  predicate Counts200(s: string, m: nat) {
    && m + 3 <= |s| && (forall x :: 0 <= x < m ==> s[x] == '0')
    && s[m..m + 3] == "200" && (m + 3 == |s| || !IsDigit(s[m + 3]))
  }

  lemma {:induction false} ReadGrows(s: string, acc: nat)
    ensures ReadNat(s, acc).0 >= acc
  {
    if s != "" && IsDigit(s[0]) { ReadGrows(s[1..], acc * 10 + (s[0] - '0') as nat); }
  }

  lemma {:induction false} Reads200(s: string) returns (m: nat)
    ensures ReadNat(s).0 == 200 ==> Counts200(s, m)
  {
    m := 0;
    if s != "" && s[0] == '0' {
      m := Reads200(s[1..]);
      if ReadNat(s).0 == 200 {
        assert s[m + 1..m + 4] == s[1..][m..m + 3];
        assert forall x :: 0 < x < m + 1 ==> s[x] == s[1..][x - 1];
        m := m + 1;
      }
    } else {
      ThreeDigits(s);
    }
  }

  /** One step of reading digits at index `i`. */
  lemma ReadAt(s: string, i: nat, acc: nat)
    requires i <= |s|
    ensures if i < |s| && IsDigit(s[i]) then ReadNat(s[i..], acc) == ReadNat(s[i + 1..], acc * 10 + (s[i] - '0') as nat)
            else ReadNat(s[i..], acc).0 == acc
  {
    if i < |s| { assert s[i..][1..] == s[i + 1..]; }
  }

  /** Without a leading zero, only the digits 2, 0, 0 have the value 200. */
  lemma ThreeDigits(s: string)
    requires s == "" || s[0] != '0'
    ensures ReadNat(s).0 == 200 ==> Counts200(s, 0)
  {
    hide ReadNat;
    assert s[0..] == s;
    ReadAt(s, 0, 0);
    if s != "" && IsDigit(s[0]) {
      var a := (s[0] - '0') as nat;
      ReadAt(s, 1, a);
      if |s| > 1 && IsDigit(s[1]) {
        var b := a * 10 + (s[1] - '0') as nat;
        ReadAt(s, 2, b);
        if |s| > 2 && IsDigit(s[2]) {
          var c := b * 10 + (s[2] - '0') as nat;
          ReadAt(s, 3, c);
          if |s| > 3 && IsDigit(s[3]) { ReadGrows(s[4..], c * 10 + (s[3] - '0') as nat); }
          if c == 200 { assert s[0..3] == "200"; }
        }
      }
    }
  }

  lemma {:induction false} Counted200(s: string, m: nat)
    requires Counts200(s, m)
    ensures ReadNat(s).0 == 200
  {
    if m > 0 {
      assert s[1..][m - 1..m + 2] == s[m..m + 3];
      Counted200(s[1..], m - 1);
    } else {
      assert s[0..] == s && s[0] == s[0..3][0] && s[1] == s[0..3][1] && s[2] == s[0..3][2];
      ReadAt(s, 0, 0);
      ReadAt(s, 1, 2);
      ReadAt(s, 2, 20);
      ReadAt(s, 3, 200);
      hide ReadNat;
    }
  }

  /** The texts that `atoi` reads as 200: white space up to `j`, a plus sign or nothing up to `k`, and the rest. */
  predicate Spells200(s: string, j: nat, k: nat, m: nat) {
    && j <= k <= m && m + 3 <= |s| && (forall x :: 0 <= x < j ==> IsSpace(s[x]))
    && (k == j || (k == j + 1 && s[j] == '+')) && Counts200(s[k..], m - k)
  }

  lemma {:induction false} SpaceSkipped(s: string) returns (j: nat)
    ensures j <= |s| && SkipSpace(s) == s[j..] && (j < |s| ==> !IsSpace(s[j]))
    ensures forall x :: 0 <= x < j ==> IsSpace(s[x])
  {
    j := 0;
    if s != "" && IsSpace(s[0]) {
      j := SpaceSkipped(s[1..]);
      assert s[1..][j..] == s[j + 1..];
      assert forall x :: 0 < x < j + 1 ==> s[x] == s[1..][x - 1];
      j := j + 1;
    }
  }

  lemma AtoiIs200(s: string) returns (j: nat, k: nat, m: nat)
    requires Atoi(s) == 200
    ensures Spells200(s, j, k, m)
  {
    hide Counts200, ReadNat, SkipSpace, IsSpace;
    j := SpaceSkipped(s);
    var t := s[j..];
    k := if t != "" && t[0] == '+' then j + 1 else j;
    assert s[k..] == if k > j then t[1..] else t;
    m := Reads200(s[k..]);
    CountsFit(s[k..], m);
    m := m + k;
  }

  lemma CountsFit(s: string, m: nat)
    requires Counts200(s, m)
    ensures m + 3 <= |s| && (s[0] == '0' || s[0] == '2')
  {
    if m == 0 { assert s[0..3][0] == '2'; }
  }

  lemma SpelledIs200(s: string, j: nat, k: nat, m: nat)
    requires Spells200(s, j, k, m)
    ensures Atoi(s) == 200
  {
    CountsFit(s[k..], m - k);
    Counted200(s[k..], m - k);
    hide Counts200, ReadNat, SkipSpace;
    var b := SpaceSkipped(s);
    assert s[k] == s[k..][0];
    assert b == j;
    if k > j { assert s[j..][1..] == s[k..]; }
  }

  /** The status check on the reply as a C string is the reading of its bytes. */
  lemma SuccessIsGrant(d: seq<U8>)
    ensures IsSuccess(AsCString(d)) <==> Grants(d)
  {
    hide AsCString, Atoi, Spells200, SpellsAt, IndexOf, GrantsAt;
    var r := AsCString(d);
    if IsSuccess(r) {
      var i := IndexOf(r, ' ');
      var j, k, m := AtoiIs200(r[i + 1..]);
      SpellsShift(r, i + 1, j, k, m);
      GrantFromText(d, i, i + 1 + j, i + 1 + k, i + 1 + m);
    }
    if Grants(d) {
      var i: nat, j: nat, k: nat, m: nat :| GrantsAt(d, i, j, k, m);
      TextFromGrant(d, i, j, k, m);
      SpellsShift(r, i + 1, j - i - 1, k - i - 1, m - i - 1);
      SpelledIs200(r[i + 1..], j - i - 1, k - i - 1, m - i - 1);
    }
  }

  /** The same texts from index `b` of a longer one, by index. */
  predicate SpellsAt(s: string, b: nat, j: nat, k: nat, m: nat) {
    && b <= j <= k <= m && m + 3 <= |s| && (forall x :: b <= x < j ==> IsSpace(s[x]))
    && (k == j || (k == j + 1 && s[j] == '+')) && (forall x :: k <= x < m ==> s[x] == '0')
    && s[m] == '2' && s[m + 1] == '0' && s[m + 2] == '0' && (m + 3 == |s| || !IsDigit(s[m + 3]))
  }

  lemma SpellsShift(s: string, b: nat, j: nat, k: nat, m: nat)
    requires b <= |s|
    ensures Spells200(s[b..], j, k, m) <==> SpellsAt(s, b, b + j, b + k, b + m)
  {
    var t := s[b..];
    assert forall x :: 0 <= x < |t| ==> t[x] == s[b + x];
    if j <= k <= m && m + 3 <= |t| {
      CountsByIndex(t, k, m);
      hide Counts200, IsSpace;
      assert forall x :: b <= x < b + j ==> s[x] == t[x - b];
      assert forall x :: b + k <= x < b + m ==> s[x] == t[x - b];
    }
  }

  lemma CountsByIndex(s: string, k: nat, m: nat)
    requires k <= m && m + 3 <= |s|
    ensures Counts200(s[k..], m - k) <==>
      && (forall x :: k <= x < m ==> s[x] == '0')
      && s[m] == '2' && s[m + 1] == '0' && s[m + 2] == '0' && (m + 3 == |s| || !IsDigit(s[m + 3]))
  {
    var t := s[k..];
    assert forall x :: 0 <= x < |t| ==> t[x] == s[k + x];
    assert forall x :: k <= x < m ==> s[x] == t[x - k];
    var c := t[m - k..m - k + 3];
    assert c[0] == s[m] && c[1] == s[m + 1] && c[2] == s[m + 2];
    assert c == "200" <==> c[0] == '2' && c[1] == '0' && c[2] == '0';
  }

  lemma TextChars(d: seq<U8>)
    ensures var r := AsCString(d);
      && |r| <= |d| && (forall x :: 0 <= x < |r| ==> r[x] as int == d[x] && d[x] != 0)
      && (|r| < |d| ==> d[|r|] == 0)
  {
    hide IndexOf;
    var t, r := TextOf(d), AsCString(d);
    forall x | 0 <= x < |r| ensures r[x] as int == d[x] && d[x] != 0 {
      assert r[x] == t[x] && t[x] != '\0' && t[x] as int == d[x];
    }
    assert |r| < |d| ==> t[|r|] == '\0';
  }

  lemma GrantFromText(d: seq<U8>, i: nat, j: nat, k: nat, m: nat)
    requires var r := AsCString(d);
      |r| >= 7 && r[..7] == "HTTP/1." && i == IndexOf(r, ' ') < |r| && SpellsAt(r, i + 1, j, k, m)
    ensures GrantsAt(d, i, j, k, m)
  {
    hide IndexOf, AsCString;
    TextChars(d);
    var r := AsCString(d);
    assert forall x :: 0 <= x < 7 ==> r[x] == r[..7][x];
  }

  lemma TextFromGrant(d: seq<U8>, i: nat, j: nat, k: nat, m: nat)
    requires GrantsAt(d, i, j, k, m)
    ensures i < j <= k <= m
    ensures var r := AsCString(d);
      |r| >= 7 && r[..7] == "HTTP/1." && IndexOf(r, ' ') == i < |r| && SpellsAt(r, i + 1, j, k, m)
  {
    hide IndexOf, AsCString;
    TextChars(d);
    var r := AsCString(d);
    assert forall x :: 0 <= x < 7 ==> d[x] == d[..7][x];
    assert |r| >= m + 3;
  }

  /** A reply that ends in a three-digit code grants the request exactly when the code is 200. */
  lemma CodeDecides(minor: U8, a: U8, b: U8, c: U8)
    requires minor !in {0, 32} && 48 <= a <= 57 && 48 <= b <= 57 && 48 <= c <= 57
    ensures Grants([72, 84, 84, 80, 47, 49, 46, minor, 32, a, b, c]) <==> (a, b, c) == (50, 48, 48)
  {
    var d := [72, 84, 84, 80, 47, 49, 46, minor, 32, a, b, c];
    assert d[7] == minor && d[8] == 32 && d[9] == a && d[9..12] == [a, b, c];
    if (a, b, c) == (50, 48, 48) { assert GrantsAt(d, 8, 9, 9, 9); }
    forall i: nat, j: nat, k: nat, m: nat | GrantsAt(d, i, j, k, m) ensures i == 8 && j == k == m == 9 {
    }
  }

  /** Whatever the proxy answers, the conversation succeeds exactly when the request was taken whole and the
      bytes of the one reply read grant it. */
  lemma SuccessIsDecidedByTheReply(l: Line, ip: U32, port: U16, user: seq<U8>, pass: seq<U8>)
    ensures var (l', ok) := HttpRun(l, ip, port, user, pass);
      var (t, n, request) := (l'.trace, |l.trace|, Ascii(RequestText(ip, port, user, pass)));
      && n < |t| <= n + 2 && t[..n] == l.trace && t[n].Wrote? && t[n].msg == request
      && (ok <==> t[n].taken == |request| && |t| == n + 2 && t[n + 1].Read? && Grants(t[n + 1].data))
  {
    var request := Ascii(RequestText(ip, port, user, pass));
    var (l1, n) := SendOn(l, request);
    var (l2, len, d) := RecvOn(l1, 4095);
    SuccessIsGrant(d);
    hide Ascii, RequestText, AsCString, IsSuccess, SendOn, RecvOn;
    assert l1.trace[..|l.trace|] == l.trace && l2.trace[..|l.trace|] == l.trace;
  }

  /** The formatted request; the credentials pass through their 1024-character Base64 buffer. */
  method BuildRequest(ip: U32, port: U16, user: seq<U8>, pass: seq<U8>) returns (text: string)
    ensures text == RequestText(ip, port, user, pass)
  {
    hide Encode, RequestLine, Authority, UserPass, Groups, Take;
    var credentials := "";
    if user != [] {
      RequestFits(ip, port, user, pass);
      var encoded := new char[1024](_ => '\0');
      var len := Base64Encode(UserPass(user, pass), encoded);
      credentials := "Proxy-Authorization: Basic " + encoded[..len] + CRLF;
    }
    var headers := "Host: " + Authority(ip, port) + CRLF + credentials + "Proxy-Connection: keep-alive\r\n" + CRLF;
    text := RequestLine(ip, port) + headers;
  }

  /** The status check, on the reply as a C string. */
  method CheckReply(reply: string) returns (ok: bool)
    ensures ok <==> IsSuccess(reply)
  {
    hide Atoi;
    if |reply| < 7 || reply[..7] != "HTTP/1." { return false; }
    var space := IndexOf(reply, ' ');
    if space == |reply| { return false; }
    return Atoi(reply[space + 1..]) == 200;
  }

  method Connect(s: Socket, ip: U32, port: U16, user: seq<U8>, pass: seq<U8>) returns (ok: bool)
    modifies s`line
    ensures (s.line, ok) == HttpRun(old(s.line), ip, port, user, pass)
  {
    hide RequestText, IsSuccess, AsCString, SendOn, RecvOn;
    var text := BuildRequest(ip, port, user, pass);
    RequestFits(ip, port, user, pass);
    var request := new U8[1024](i requires 0 <= i => if i < |text| then (text[i] as int) % 0x100 else 0);
    assert request[..|text|] == Ascii(text);
    var n := s.Send(request, |text|);
    if n != |text| { return false; }
    var response := new U8[4096](_ => 0);
    var len := s.Recv(response, 4095);
    if len <= 0 { return false; }
    response[len] := 0;
    ok := CheckReply(AsCString(response[..len]));
  }
}
