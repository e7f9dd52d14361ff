/** The C library text functions the rule matcher and the HTTP client rely on. */
module CStrings {
  import opened CTypes

  /** Text held in a C character array: everything before the terminator. */
  type CString = s: string | '\0' !in s

  // ---- Case-insensitive comparison (`_stricmp`, `_strnicmp`) ----

  function Lower(c: char): char {
    if 'A' <= c <= 'Z' then c - 'A' + 'a' else c
  }

  predicate EqNoCase(a: string, b: string) {
    |a| == |b| && forall i :: 0 <= i < |a| ==> Lower(a[i]) == Lower(b[i])
  }

  /** The same letter of either case, or the same character. */
  predicate SameLetter(c: char, d: char) {
    c == d || ('A' <= c <= 'Z' && d as int == c as int + 32) || ('A' <= d <= 'Z' && c as int == d as int + 32)
  }

  lemma LowerFolds(c: char, d: char)
    ensures Lower(c) == Lower(d) <==> SameLetter(c, d)
  {
  }

  /** `_strnicmp(a, b, n) == 0` for an `n` within `a`: a shorter `b` differs at its terminator. */
  predicate PrefixNoCase(a: string, b: string, n: nat)
    requires n <= |a|
  {
    n <= |b| && EqNoCase(a[..n], b[..n])
  }

  // ---- Decimal numbers (`%d`, `atoi`) ----

  predicate IsDigit(c: char) { '0' <= c <= '9' }

  function Dec(n: nat): (s: string)
    ensures |s| > 0 && forall c :: c in s ==> IsDigit(c)
  {
    var d := '0' + (n % 10) as char;
    if n < 10 then [d] else Dec(n / 10) + [d]
  }

  /** The value of the leading digits of `s`, continuing from `acc`, and what follows them. */
  function ReadNat(s: string, acc: nat := 0): (nat, string) {
    if s != "" && IsDigit(s[0]) then ReadNat(s[1..], acc * 10 + (s[0] - '0') as nat) else (acc, s)
  }

  predicate IsSpace(c: char) { c == ' ' || '\t' <= c <= '\r' }

  function SkipSpace(s: string): string {
    if s != "" && IsSpace(s[0]) then SkipSpace(s[1..]) else s
  }

  /** `atoi`, on unbounded integers. */
  function Atoi(s: string): int {
    var t := SkipSpace(s);
    if t != "" && t[0] == '-' then 0 - ReadNat(t[1..]).0
    else if t != "" && t[0] == '+' then ReadNat(t[1..]).0
    else ReadNat(t).0
  }

  lemma {:induction false} ReadDec(n: nat, rest: string)
    ensures ReadNat(Dec(n) + rest) == ReadNat(rest, n)
  {
    var d := '0' + (n % 10) as char;
    if n >= 10 {
      assert Dec(n) + rest == Dec(n / 10) + ([d] + rest);
      ReadDec(n / 10, [d] + rest);
      assert ([d] + rest)[1..] == rest;
    } else {
      assert (Dec(n) + rest)[1..] == rest;
    }
  }

  /** Printing a number and reading it back, up to the first character that is not a digit. */
  lemma AtoiDec(n: nat, rest: string)
    requires rest == "" || !IsDigit(rest[0])
    ensures ReadNat(Dec(n) + rest) == (n, rest)
    ensures Atoi(Dec(n) + rest) == n
  {
    ReadDec(n, rest);
    assert IsDigit((Dec(n) + rest)[0]) by { assert Dec(n)[0] in Dec(n); }
  }

  function Pow10(k: nat): nat {
    if k == 0 then 1 else 10 * Pow10(k - 1)
  }

  lemma {:induction false} DecLength(n: nat, digits: nat)
    requires n < Pow10(digits) && digits > 0
    ensures |Dec(n)| <= digits
  {
    if n >= 10 { DecLength(n / 10, digits - 1); }
  }

  // ---- Searching ----

  /** Index of the first `c` in `s`, or `|s|`. */
  function IndexOf(s: string, c: char): (i: nat)
    ensures i <= |s|
    ensures i < |s| ==> s[i] == c
    ensures forall k :: 0 <= k < i ==> s[k] != c
  {
    if s == "" || s[0] == c then 0 else IndexOf(s[1..], c) + 1
  }

  /** Index of the last `c` in `s`, or -1. */
  function LastIndexOf(s: string, c: char): (i: int)
    ensures -1 <= i < |s|
    ensures i >= 0 ==> s[i] == c
    ensures forall k :: i < k < |s| ==> s[k] != c
  {
    if s == "" || s[|s| - 1] == c then |s| - 1 else LastIndexOf(s[..|s| - 1], c)
  }

  lemma IndexOfSplit(a: string, c: char, rest: string)
    requires c !in a
    ensures IndexOf(a + [c] + rest, c) == |a|
  {
    var s := a + [c] + rest;
    assert s[|a|] == c;
    assert forall k :: 0 <= k < |a| ==> s[k] == a[k];
  }

  // ---- Blanks ----

  predicate IsBlank(c: char) { c == ' ' || c == '\t' }

  function SkipBlanks(s: string): string {
    if s != "" && IsBlank(s[0]) then SkipBlanks(s[1..]) else s
  }

  /** Drops trailing blanks but never the first character. */
  function TrimEnd(s: string): string {
    if |s| > 1 && IsBlank(s[|s| - 1]) then TrimEnd(s[..|s| - 1]) else s
  }

  predicate Blanks(s: string) { forall c :: c in s ==> c in " \t" }

  /** Text with blanks before it, and with `after` also behind it. */
  predicate Pads(padded: string, s: string, after: bool) {
    exists i, j :: 0 <= i <= j <= |padded| && padded[i..j] == s
      && Blanks(padded[..i]) && Blanks(padded[j..]) && (after || j == |padded|)
  }

  lemma PadParts(padded: string, s: string, after: bool) returns (before: string, behind: string)
    requires Pads(padded, s, after)
    ensures padded == before + (s + behind) && Blanks(before) && Blanks(behind) && (!after ==> s + behind == s)
  {
    var i, j :| 0 <= i <= j <= |padded| && padded[i..j] == s
      && Blanks(padded[..i]) && Blanks(padded[j..]) && (after || j == |padded|);
    hide Blanks;
    before, behind := padded[..i], padded[j..];
    assert padded == padded[..i] + (padded[i..j] + padded[j..]);
  }

  /** Skipping and trimming takes the padding off, and no more. */
  lemma TrimmedPads(padded: string, s: string, after: bool)
    requires s != "" && s[0] !in " \t" && s[|s| - 1] !in " \t" && Pads(padded, s, after)
    ensures TrimEnd(SkipBlanks(padded)) == s
    ensures !after ==> SkipBlanks(padded) == s
  {
    hide SkipBlanks, TrimEnd, Blanks, Pads;
    var before, behind := PadParts(padded, s, after);
    assert (s + behind)[0] == s[0];
    SkipPads(before, s + behind);
    TrimPads(s, behind);
  }

  lemma {:induction false} SkipPads(blanks: string, s: string)
    requires Blanks(blanks) && s != "" && s[0] !in " \t"
    ensures SkipBlanks(blanks + s) == s
  {
    if blanks == "" {
      assert blanks + s == s;
    } else {
      assert blanks[0] in blanks && forall c :: c in blanks[1..] ==> c in blanks;
      assert (blanks + s)[1..] == blanks[1..] + s;
      SkipPads(blanks[1..], s);
    }
  }

  lemma {:induction false} TrimPads(s: string, blanks: string)
    requires Blanks(blanks) && s != "" && s[|s| - 1] !in " \t"
    ensures TrimEnd(s + blanks) == s
  {
    if blanks == "" {
      assert s + blanks == s;
    } else {
      var init := blanks[..|blanks| - 1];
      assert blanks[|blanks| - 1] in blanks && forall c :: c in init ==> c in blanks;
      assert (s + blanks)[..|s + blanks| - 1] == s + init;
      TrimPads(s, init);
    }
  }

  /** Padding is no separator. */
  lemma PaddedToken(padded: string, s: string, after: bool, seps: string)
    requires Token(s, seps) && Pads(padded, s, after) && ' ' !in seps && '\t' !in seps
    ensures Token(padded, seps) && (padded == "*" ==> s == "*")
  {
    hide Pads, Token;
    var before, behind := PadParts(padded, s, after);
    BlanksAreNeither(before, seps);
    BlanksAreNeither(behind, seps);
    hide Blanks;
    TokenBetween(before, s, behind, seps);
  }

  lemma BlanksAreNeither(blanks: string, seps: string)
    requires Blanks(blanks) && ' ' !in seps && '\t' !in seps
    ensures forall k :: 0 <= k < |blanks| ==> blanks[k] !in seps && blanks[k] != '*'
  {
    forall k | 0 <= k < |blanks| ensures blanks[k] !in seps && blanks[k] != '*' {
      assert blanks[k] in blanks;
    }
  }

  lemma TokenBetween(before: string, s: string, behind: string, seps: string)
    requires Token(s, seps) && forall k :: 0 <= k < |before| ==> before[k] !in seps && before[k] != '*'
    requires forall k :: 0 <= k < |behind| ==> behind[k] !in seps && behind[k] != '*'
    ensures Token(before + (s + behind), seps) && (before + (s + behind) == "*" ==> s == "*")
  {
    var t := before + (s + behind);
    forall k | 0 <= k < |t| ensures t[k] !in seps {
      assert t[k] == if k < |before| then before[k] else if k < |before| + |s| then s[k - |before|]
                     else behind[k - |before| - |s|];
    }
    if t == "*" { assert t[0] == '*' && before == "" && behind == ""; }
  }

  // ---- Tokens (`strtok`) ----

  /** First index at or after `i` whose character is, or is not, a separator. */
  function Scan(s: string, i: nat, seps: string, sep: bool): (j: nat)
    requires i <= |s|
    ensures i <= j <= |s|
    ensures forall k :: i <= k < j ==> (s[k] in seps) != sep
    ensures j < |s| ==> (s[j] in seps) == sep
    decreases |s| - i
  {
    if i == |s| || (s[i] in seps) == sep then i else Scan(s, i + 1, seps, sep)
  }

  /** The maximal nonempty runs of non-separators. */
  function Tokens(s: string, seps: string): seq<string>
    decreases |s|
  {
    var b := Scan(s, 0, seps, false);
    if b == |s| then [] else
    var e := Scan(s, b, seps, true);
    [s[b..e]] + Tokens(s[if e < |s| then e + 1 else e..], seps)
  }

  /** Pieces joined by a separator. */
  function Join(pieces: seq<string>, sep: char): string {
    if pieces == [] then "" else if |pieces| == 1 then pieces[0]
    else pieces[0] + [sep] + Join(pieces[1..], sep)
  }

  predicate Token(t: string, seps: string) {
    t != "" && forall i :: 0 <= i < |t| ==> t[i] !in seps
  }

  /** Tokenising undoes joining. */
  lemma {:induction false} TokensOfJoin(pieces: seq<string>, sep: char, seps: string)
    requires sep in seps
    requires forall i :: 0 <= i < |pieces| ==> Token(pieces[i], seps)
    ensures Tokens(Join(pieces, sep), seps) == pieces
  {
    if pieces != [] {
      var p, s := pieces[0], Join(pieces, sep);
      assert Token(p, seps) && s[..|p|] == p;
      assert s[0] == p[0] && Scan(s, 0, seps, false) == 0;
      var e := Scan(s, 0, seps, true);
      assert forall k :: 0 <= k < |p| ==> s[k] == p[k];
      if |pieces| == 1 {
        assert e == |s| && s[0..e] == p && s[e..] == "";
        assert Tokens("", seps) == [];
      } else {
        assert s[|p|] == sep;
        assert e == |p| && s[0..e] == p;
        assert s[e + 1..] == Join(pieces[1..], sep);
        TokensOfJoin(pieces[1..], sep, seps);
      }
    }
  }

  // ---- Splitting on a delimiter, empty fields kept ----

  function Split(s: string, c: char): (f: seq<string>)
    ensures |f| > 0
  {
    if s == "" then [""]
    else if s[0] == c then [""] + Split(s[1..], c)
    else var r := Split(s[1..], c); [[s[0]] + r[0]] + r[1..]
  }

  lemma {:induction false} SplitField(a: string, c: char, rest: string)
    requires c !in a
    ensures Split(a + [c] + rest, c) == [a] + Split(rest, c)
    ensures Split(a, c) == [a]
  {
    if a == "" {
      assert a + [c] + rest == [c] + rest;
    } else {
      assert a[0] in a && forall x :: x in a[1..] ==> x in a;
      assert (a + [c] + rest)[1..] == a[1..] + [c] + rest;
      assert a == [a[0]] + a[1..];
      SplitField(a[1..], c, rest);
    }
  }

  // ---- strtok over a private copy ----

  /** The C string that starts at index `b` of a buffer. */
  function CStringAt(buf: seq<char>, b: nat): CString
    requires b <= |buf|
  {
    buf[b..][..IndexOf(buf[b..], '\0')]
  }

  /** `strtok`: a copy of the text, cut by writing terminators over separators. */
  class StrTok {
    const buf: array<char>
    var next: nat

    ghost predicate Valid()
      reads this, buf
    {
      next < buf.Length && buf[buf.Length - 1] == '\0' && '\0' !in Rest()
    }

    /** The text not yet tokenised. */
    ghost function Rest(): string
      requires next < buf.Length
      reads this, buf
    {
      buf[next..buf.Length - 1]
    }

    constructor (text: CString)
      ensures Valid() && Rest() == text && fresh(buf)
    {
      var b := new char[|text| + 1](i requires 0 <= i => if i < |text| then text[i] else '\0');
      buf, next := b, 0;
      new;
      assert buf[0..buf.Length - 1] == text;
    }

    /** Start of the next token, or -1. */
    method Next(seps: string) returns (start: int)
      requires Valid() && '\0' !in seps
      modifies this, buf
      ensures Valid()
      ensures start < 0 ==> Tokens(old(Rest()), seps) == []
      ensures start >= 0 ==> start < buf.Length && start + |CStringAt(buf[..], start)| <= next
      ensures start >= 0 ==> Token(CStringAt(buf[..], start), seps)
      ensures start >= 0 ==> Tokens(old(Rest()), seps) == [CStringAt(buf[..], start)] + Tokens(Rest(), seps)
    {
      hide Tokens, Token, Scan, CStringAt;
      var b := Seek(next, seps, false);
      if b == buf.Length - 1 {
        NoToken(Rest(), seps);
        return -1;
      }
      var e := Seek(b, seps, true);
      ghost var rest, from := Rest(), if e < buf.Length - 1 then e + 1 - next else e - next;
      ghost var token := FirstToken(rest, seps, b - next, e - next);
      SliceOfSlice(buf[..], next, buf.Length - 1, b, e);
      Cut(b, e, token);
      assert Rest() == rest[from..];
      start := b;
    }

    /** First position from `from` on whose character is, or is not, a separator. */
    method Seek(from: nat, seps: string, sep: bool) returns (j: nat)
      requires Valid() && next <= from < buf.Length && '\0' !in seps
      ensures from <= j < buf.Length
      ensures j - next == Scan(Rest(), from - next, seps, sep)
    {
      var last := buf.Length - 1;
      j := from;
      while j < last && (buf[j] in seps) != sep
        invariant from <= j <= last
        invariant Scan(Rest(), from - next, seps, sep) == Scan(Rest(), j - next, seps, sep)
      {
        assert Rest()[j - next] == buf[j];
        j := j + 1;
      }
      if j < last { assert Rest()[j - next] == buf[j]; }
    }

    /** Terminates the token and moves past its separator. */
    method Cut(b: nat, e: nat, ghost token: string)
      requires Valid() && next <= b <= e < buf.Length && buf[..][b..e] == token && '\0' !in token
      modifies this, buf
      ensures Valid() && next == (if e < buf.Length - 1 then e + 1 else e)
      ensures Rest() == old(Rest())[next - old(next)..]
      ensures CStringAt(buf[..], b) == token
    {
      ghost var was := buf[..];
      if e < buf.Length - 1 {
        buf[e] := '\0';
        next := e + 1;
      } else {
        next := e;
      }
      assert buf[..][b..e] == was[b..e];
      SliceOfSlice(was, old(next), buf.Length - 1, next, buf.Length - 1);
      assert buf[next..buf.Length - 1] == was[next..buf.Length - 1];
      TokenAt(buf[..], b, token, e);
    }

    /** `while (*token is blank) token++` */
    method SkipLeading(b: nat) returns (c: nat)
      requires Valid() && b < buf.Length && b + |CStringAt(buf[..], b)| <= next
      ensures b <= c < buf.Length && c + |CStringAt(buf[..], c)| <= next
      ensures CStringAt(buf[..], c) == SkipBlanks(CStringAt(buf[..], b))
    {
      hide CStringAt, SkipBlanks, IsBlank;
      c := b;
      Terminated(buf[..], b);
      SkipStep(buf[..], b);
      while IsBlank(buf[c])
        invariant b <= c < buf.Length && c + |CStringAt(buf[..], c)| <= next
        invariant SkipBlanks(CStringAt(buf[..], c)) == SkipBlanks(CStringAt(buf[..], b))
        decreases buf.Length - c
      {
        Terminated(buf[..], c);
        SkipStep(buf[..], c);
        c := c + 1;
      }
      Terminated(buf[..], c);
      SkipStep(buf[..], c);
    }

    /** Cuts trailing blanks off the token by writing terminators. */
    method TrimTrailing(b: nat)
      requires Valid() && b < buf.Length && b + |CStringAt(buf[..], b)| <= next
      modifies buf
      ensures Valid() && Rest() == old(Rest())
      ensures CStringAt(buf[..], b) == TrimEnd(old(CStringAt(buf[..], b)))
    {
      ghost var t := CStringAt(buf[..], b);
      var end := b;
      while buf[end] != '\0'
        invariant b <= end <= b + |t| && b + |t| < buf.Length
        decreases b + |t| - end
      {
        assert end < b + |t| ==> buf[end] == t[end - b];
        end := end + 1;
      }
      assert forall k :: 0 <= k < |t| ==> buf[b + k] == t[k];
      ghost var cur := t;
      while end > b + 1 && IsBlank(buf[end - 1])
        invariant b <= end <= next && end == b + |cur|
        invariant Valid() && Rest() == old(Rest())
        invariant buf[b..end] == cur && '\0' !in cur && (buf[end] == '\0')
        invariant TrimEnd(cur) == TrimEnd(t)
        decreases end
      {
        assert buf[end - 1] == cur[|cur| - 1];
        buf[end - 1] := '\0';
        end := end - 1;
        assert buf[b..end] == cur[..|cur| - 1];
        cur := cur[..|cur| - 1];
        assert Rest() == old(Rest());
      }
      assert |cur| > 0 ==> buf[end - 1] == cur[|cur| - 1];
      TokenAt(buf[..], b, cur, end);
    }
  }

  lemma NoToken(rest: string, seps: string)
    requires Scan(rest, 0, seps, false) == |rest|
    ensures Tokens(rest, seps) == []
  {
  }

  lemma FirstToken(rest: string, seps: string, b: nat, e: nat) returns (token: string)
    requires b == Scan(rest, 0, seps, false) < |rest| && e == Scan(rest, b, seps, true)
    ensures token == rest[b..e] && Token(token, seps) && ('\0' !in rest ==> '\0' !in token)
    ensures Tokens(rest, seps) == [token] + Tokens(rest[if e < |rest| then e + 1 else e..], seps)
  {
    token := rest[b..e];
    assert forall k :: b <= k < e ==> rest[k] !in seps;
    TokensUnfold(rest, seps, b, e);
    hide Tokens, Scan;
    PartIsToken(rest, seps, b, e);
  }

  lemma PartIsToken(rest: string, seps: string, b: nat, e: nat)
    requires b < e <= |rest| && forall k :: b <= k < e ==> rest[k] !in seps
    ensures Token(rest[b..e], seps) && ('\0' !in rest ==> '\0' !in rest[b..e])
  {
    forall i | 0 <= i < e - b ensures rest[b..e][i] == rest[b + i] {
    }
  }

  lemma TokensUnfold(rest: string, seps: string, b: nat, e: nat)
    requires b == Scan(rest, 0, seps, false) < |rest| && e == Scan(rest, b, seps, true)
    ensures Tokens(rest, seps) == [rest[b..e]] + Tokens(rest[if e < |rest| then e + 1 else e..], seps)
  {
    hide Scan;
  }

  lemma SliceOfSlice(s: seq<char>, lo: nat, hi: nat, b: nat, e: nat)
    requires lo <= b <= e <= hi <= |s|
    ensures s[lo..hi][b - lo..e - lo] == s[b..e]
  {
    var t := s[lo..hi];
    forall k | 0 <= k < e - b ensures t[b - lo..e - lo][k] == s[b..e][k] {
      assert t[b - lo + k] == s[b + k];
    }
  }

  lemma TokenAt(s: seq<char>, b: nat, t: string, e: nat)
    requires b <= e < |s| && s[b..e] == t && '\0' !in t && s[e] == '\0'
    ensures CStringAt(s, b) == t
  {
    assert s[b..] == t + ['\0'] + s[e + 1..];
    IndexOfSplit(t, '\0', s[e + 1..]);
  }

  lemma Step(s: seq<char>, b: nat)
    requires b < |s| && s[b] != '\0' && '\0' in s[b..]
    ensures b + 1 < |s| && CStringAt(s, b) == [s[b]] + CStringAt(s, b + 1)
  {
  }

  lemma Terminated(s: seq<char>, b: nat)
    requires b < |s| && s[|s| - 1] == '\0'
    ensures '\0' in s[b..]
  {
    assert s[b..][|s| - 1 - b] == '\0';
  }

  /** One step of skipping blanks at index `b` of a buffer. */
  lemma SkipStep(s: seq<char>, b: nat)
    requires b < |s| && '\0' in s[b..]
    ensures IsBlank(s[b]) ==> b + 1 < |s| && SkipBlanks(CStringAt(s, b)) == SkipBlanks(CStringAt(s, b + 1))
                              && |CStringAt(s, b)| == |CStringAt(s, b + 1)| + 1
    ensures !IsBlank(s[b]) ==> SkipBlanks(CStringAt(s, b)) == CStringAt(s, b)
  {
    if s[b] != '\0' {
      Step(s, b);
      hide CStringAt;
      assert ([s[b]] + CStringAt(s, b + 1))[1..] == CStringAt(s, b + 1);
    }
  }

  // ---- Searching and cutting a buffer in place ----

  /** A private copy of a text in a buffer of `size` characters, cut to fit. */
  method CopyOf(text: CString, size: nat) returns (buf: array<char>)
    requires size > 0
    ensures fresh(buf) && buf.Length == size && buf[size - 1] == '\0'
    ensures CStringAt(buf[..], 0) == Clip(text, size - 1)
  {
    var cut := Clip(text, size - 1);
    buf := new char[size](i requires 0 <= i => if i < |cut| then cut[i] else '\0');
    assert '\0' !in cut;
    assert buf[..][0..|cut|] == cut;
    TokenAt(buf[..], 0, cut, |cut|);
  }

  /** `strchr`: the place of the first `c`, or of the terminator. */
  method StrChr(buf: array<char>, b: nat, c: char) returns (i: nat)
    requires b < buf.Length && buf[buf.Length - 1] == '\0' && c != '\0'
    ensures b <= i < buf.Length && i == b + IndexOf(CStringAt(buf[..], b), c)
    ensures buf[i] == '\0' <==> i == b + |CStringAt(buf[..], b)|
  {
    ghost var t := CStringAt(buf[..], b);
    StringEnds(buf[..], b);
    hide CStringAt;
    i := b;
    while buf[i] != '\0' && buf[i] != c
      invariant b <= i <= b + |t| < buf.Length
      invariant c !in t[..i - b]
      decreases buf.Length - i
    {
      assert t[..i + 1 - b] == t[..i - b] + [t[i - b]];
      i := i + 1;
    }
    FirstAt(t, c, i - b);
  }

  /** `strrchr`: the place of the last `c`, or -1. */
  method StrRChr(buf: array<char>, b: nat, c: char) returns (last: int)
    requires b < buf.Length && buf[buf.Length - 1] == '\0' && c != '\0'
    ensures var k := LastIndexOf(CStringAt(buf[..], b), c); last == if k < 0 then -1 else b + k
    ensures last < buf.Length - 1
  {
    ghost var t := CStringAt(buf[..], b);
    StringEnds(buf[..], b);
    hide CStringAt, LastIndexOf;
    last := -1;
    var i := b;
    while buf[i] != '\0'
      invariant b <= i <= b + |t| < buf.Length
      invariant if last < 0 then last == -1 && c !in t[..i - b]
                else b <= last < i && t[last - b] == c && c !in t[last - b + 1..i - b]
      decreases buf.Length - i
    {
      assert t[..i + 1 - b] == t[..i - b] + [t[i - b]];
      if last >= 0 { assert t[last - b + 1..i + 1 - b] == t[last - b + 1..i - b] + [t[i - b]]; }
      if buf[i] == c { last := i; }
      i := i + 1;
    }
    assert t[..i - b] == t && (last >= 0 ==> t[last - b + 1..i - b] == t[last - b + 1..]);
    LastAt(t, c, last - b);
  }

  /** `*p = '\0'` */
  method Terminate(buf: array<char>, i: nat)
    requires i < buf.Length
    modifies buf
    ensures buf[..] == old(buf[..])[i := '\0']
  {
    buf[i] := '\0';
  }

  /** The string at `b` is what lies before its terminator. */
  lemma StringEnds(s: seq<char>, b: nat)
    requires b < |s| && s[|s| - 1] == '\0'
    ensures var t := CStringAt(s, b);
      && b + |t| < |s| && s[b + |t|] == '\0' && s[b..b + |t|] == t
      && forall k :: 0 <= k < |t| ==> t[k] == s[b + k] != '\0'
  {
    Terminated(s, b);
  }

  lemma FirstAt(t: string, c: char, i: nat)
    requires i <= |t| && c !in t[..i] && (i < |t| ==> t[i] == c)
    ensures IndexOf(t, c) == i
  {
    if i < |t| {
      assert t == t[..i] + [c] + t[i + 1..];
      IndexOfSplit(t[..i], c, t[i + 1..]);
    } else {
      assert t[..i] == t;
      forall k | 0 <= k < |t| ensures t[k] != c { assert t[k] in t; }
    }
  }

  lemma LastAt(t: string, c: char, k: int)
    requires k < |t|
    requires if k < 0 then c !in t else t[k] == c && c !in t[k + 1..]
    ensures if k < 0 then LastIndexOf(t, c) < 0 else LastIndexOf(t, c) == k
  {
    hide LastIndexOf;
    if k >= 0 {
      forall j | k < j < |t| ensures t[j] != c { assert t[j] == t[k + 1..][j - k - 1]; }
    }
  }

  /** Writing a terminator at `i` into the string at `b` splits it there. */
  lemma CutAt(s: seq<char>, b: nat, i: nat)
    requires b <= i < |s| && s[|s| - 1] == '\0' && i < b + |CStringAt(s, b)|
    ensures var t := s[i := '\0'];
      && i + 1 < |s| && t[|t| - 1] == '\0'
      && CStringAt(t, b) == CStringAt(s, b)[..i - b] && CStringAt(t, i + 1) == CStringAt(s, b)[i - b + 1..]
  {
    StringEnds(s, b);
    var str, t := CStringAt(s, b), s[i := '\0'];
    hide CStringAt;
    var e := b + |str|;
    SliceOfSlice(s, b, e, b, i);
    SliceOfSlice(s, b, e, i + 1, e);
    assert t[b..i] == s[b..i] && t[i + 1..e] == s[i + 1..e];
    TokenAt(t, b, str[..i - b], i);
    TokenAt(t, i + 1, str[i - b + 1..], e);
  }

  /** and leaves alone the strings that end before it and those that begin after it. */
  lemma CutSpares(s: seq<char>, a: nat, i: nat)
    requires a < |s| && i < |s| - 1 && s[|s| - 1] == '\0' && (i < a || a + |CStringAt(s, a)| <= i)
    ensures CStringAt(s[i := '\0'], a) == CStringAt(s, a)
  {
    StringEnds(s, a);
    var str, t := CStringAt(s, a), s[i := '\0'];
    hide CStringAt;
    assert t[a..a + |str|] == str;
    TokenAt(t, a, str, a + |str|);
  }
}
