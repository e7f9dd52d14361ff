/** A connected stream socket against an arbitrary peer: the peer decides every byte, how many bytes
    each receive call yields, and how many bytes each send call takes. */
module Sockets {
  import opened CTypes

  /** `stream` is all the peer will ever send. `arrivals[i]` bounds what receive call `i` yields and
      `accepts[i]` what send call `i` takes; a negative entry, or none, is an error (-1). */
  datatype Peer = Peer(stream: seq<U8>, arrivals: seq<int>, accepts: seq<int>)

  datatype IO =
    | Wrote(msg: seq<U8>, taken: int)
    | Read(want: nat, len: int, data: seq<U8>)

  /** A connection in progress: the peer's script, how far it has run, and what happened so far. */
  datatype Line = Line(peer: Peer, pos: nat, sends: nat, recvs: nat, trace: seq<IO>)

  function Min(a: int, b: int): int { if a < b then a else b }

  function Max(a: int, b: int): int { if a < b then b else a }

  function SendOn(l: Line, msg: seq<U8>): (r: (Line, int))
    ensures -1 <= r.1 <= |msg|
    ensures r.0.trace == l.trace + [Wrote(msg, r.1)]
  {
    var n := if l.sends < |l.peer.accepts| then Max(Min(l.peer.accepts[l.sends], |msg|), -1) else -1;
    (l.(sends := l.sends + 1, trace := l.trace + [Wrote(msg, n)]), n)
  }

  function RecvOn(l: Line, want: nat): (r: (Line, int, seq<U8>))
    ensures -1 <= r.1 <= want && (r.1 >= 0 ==> |r.2| == r.1) && (r.1 < 0 ==> r.2 == [])
    ensures r.0.trace == l.trace + [Read(want, r.1, r.2)]
  {
    var room := if l.pos <= |l.peer.stream| then |l.peer.stream| - l.pos else 0;
    var limit := if l.recvs < |l.peer.arrivals| then l.peer.arrivals[l.recvs] else -1;
    var n := Max(Min(limit, Min(want, room)), -1);
    var data := if n > 0 then l.peer.stream[l.pos..l.pos + n] else [];
    (Line(l.peer, if n > 0 then l.pos + n else l.pos, l.sends, l.recvs + 1, l.trace + [Read(want, n, data)]), n, data)
  }

  class Socket {
    var line: Line
    var readShut: bool
    var writeShut: bool

    constructor (peer: Peer)
      ensures line == Line(peer, 0, 0, 0, []) && !readShut && !writeShut
    {
      line, readShut, writeShut := Line(peer, 0, 0, 0, []), false, false;
    }

    /** `shutdown` */
    method Shutdown(read: bool, write: bool)
      modifies `readShut, `writeShut
      ensures readShut == (old(readShut) || read) && writeShut == (old(writeShut) || write)
    {
      readShut, writeShut := readShut || read, writeShut || write;
    }

    /** `send(s, buf, count, 0)` */
    method Send(buf: array<U8>, count: nat) returns (n: int)
      requires count <= buf.Length
      modifies `line
      ensures (line, n) == SendOn(old(line), buf[..count])
    {
      n := SendFrom(buf, 0, count);
    }

    /** `send(s, buf + at, count, 0)` */
    method SendFrom(buf: array<U8>, at: nat, count: nat) returns (n: int)
      requires at + count <= buf.Length
      modifies `line
      ensures (line, n) == SendOn(old(line), buf[at..at + count])
    {
      var r := SendOn(line, buf[at..at + count]);
      line, n := r.0, r.1;
    }

    /** `recv(s, buf, count, 0)` */
    method Recv(buf: array<U8>, count: nat) returns (len: int)
      requires count <= buf.Length
      modifies `line, buf
      ensures line == RecvOn(old(line), count).0 && len == RecvOn(old(line), count).1
      ensures len >= 0 ==> buf[..len] == RecvOn(old(line), count).2 && buf[len..] == old(buf[len..])
      ensures len < 0 ==> buf[..] == old(buf[..])
    {
      var r := RecvOn(line, count);
      line, len := r.0, r.1;
      for i := 0 to |r.2|
        invariant |r.2| <= count && line == r.0
        invariant buf[..i] == r.2[..i] && buf[i..] == old(buf[i..])
      {
        buf[i] := r.2[i];
      }
    }
  }
}
