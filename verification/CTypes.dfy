/** Machine integers, option values and the proxy record shared by every component. */
module CTypes {
  const TWO_32 := 0x1_0000_0000

  type U8 = x: int | 0 <= x < 0x100
  type U16 = x: int | 0 <= x < 0x1_0000
  type U32 = x: int | 0 <= x < TWO_32

  /** `INVALID_SOCKET`; every other handle is a natural number. */
  const INVALID := -1

  datatype Option<+T> = None | Some(value: T)

  datatype ProxyKind = Socks5 | Http

  datatype ProxyRecord = ProxyRecord(kind: ProxyKind, host: string, port: U16,
                                     username: seq<U8>, password: seq<U8>, hasProxy: bool)

  /** The fixed-size character arrays of `ProxyInfo`: 256, 64 and 64 bytes, one of them the terminator. */
  type ProxyInfo = p: ProxyRecord
    | |p.host| <= 255 && |p.username| <= 63 && |p.password| <= 63
    witness NO_PROXY

  /** A zero-filled `ProxyInfo`. */
  const NO_PROXY := ProxyRecord(Socks5, "", 0, [], [], false)

  /** Octet `i` of an address, the first one in the low bits (network byte order on x86). */
  function Octet(ip: U32, i: nat): U8
    requires i < 4
  {
    match i
    case 0 => ip % 0x100
    case 1 => ip / 0x100 % 0x100
    case 2 => ip / 0x1_0000 % 0x100
    case _ => ip / 0x100_0000
  }

  function FromOctets(a: U8, b: U8, c: U8, d: U8): U32 {
    a + 0x100 * b + 0x1_0000 * c + 0x100_0000 * d
  }

  /** The octets of the address a.b.c.d. */
  lemma OctetsOf(a: U8, b: U8, c: U8, d: U8)
    ensures var ip: U32 := a + 0x100 * b + 0x1_0000 * c + 0x100_0000 * d;
      Octet(ip, 0) == a && Octet(ip, 1) == b && Octet(ip, 2) == c && Octet(ip, 3) == d
  {
    var ip: U32 := a + 0x100 * b + 0x1_0000 * c + 0x100_0000 * d;
    LowByte(a, b + 0x100 * c + 0x1_0000 * d);
    LowByte(b, c + 0x100 * d);
    LowByte(c, d);
    assert ip / 0x100 == b + 0x100 * (c + 0x100 * d);
    assert ip / 0x1_0000 == ip / 0x100 / 0x100 == c + 0x100 * d;
    assert ip / 0x100_0000 == ip / 0x1_0000 / 0x100 == d;
  }

  lemma LowByte(low: U8, rest: nat)
    ensures (low + 0x100 * rest) % 0x100 == low && (low + 0x100 * rest) / 0x100 == rest
  {
  }

  lemma OctetsRebuild(ip: U32)
    ensures FromOctets(Octet(ip, 0), Octet(ip, 1), Octet(ip, 2), Octet(ip, 3)) == ip
  {
    assert ip / 0x1_0000 == ip / 0x100 / 0x100;
    assert ip / 0x100_0000 == ip / 0x1_0000 / 0x100;
  }

  /** `strncpy` into a buffer of `max + 1` bytes. */
  function Clip<T>(s: seq<T>, max: nat): (r: seq<T>)
    ensures |r| <= max
  {
    if |s| <= max then s else s[..max]
  }

  /** Subtraction of 32-bit tick counts. */
  function TickAge(now: U32, stamp: U32): U32 {
    (now - stamp) % TWO_32
  }

  function Tick(time: nat): U32 {
    time % TWO_32
  }

  /** Wrapped subtraction measures the true age modulo 2^32. */
  lemma TickAgeIsTrueAge(now: nat, then_: nat)
    requires then_ <= now
    ensures TickAge(Tick(now), Tick(then_)) == (now - then_) % TWO_32
    ensures now - then_ < TWO_32 ==> TickAge(Tick(now), Tick(then_)) == now - then_
  {
    var a, b := now / TWO_32, then_ / TWO_32;
    assert now - then_ == (Tick(now) - Tick(then_)) + TWO_32 * (a - b);
  }
}
