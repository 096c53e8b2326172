/** Target addresses in the SOCKS5 encoding of RFC 1928, section 5: the printer (adapter/outbound/util.go), the
    parser (adapter/inbound/util.go) and the address type they agree on (constant/metadata.go). */
module SocksAddr {
  type byte = x: nat | x < 256
  type uint16 = x: nat | x < 0x1_0000

  const ATYP_IPV4: byte := 1
  const ATYP_DOMAIN: byte := 3
  const ATYP_IPV6: byte := 4
  const DOT: byte := 46

  /** netip.Addr; V6 includes the IPv4-mapped addresses. */
  datatype Addr = NoAddr | V4(octets: seq<byte>) | V6(octets: seq<byte>, zone: seq<char>)

  ghost predicate ValidAddr(a: Addr) {
    (a.V4? ==> |a.octets| == 4) && (a.V6? ==> |a.octets| == 16)
  }

  /** The fields of a Metadata that name the target. */
  datatype Metadata = Metadata(host: seq<byte>, dstIP: Addr, dstPort: uint16)

  datatype AddrType = Domain | IPv4 | IPv6

  function AddrTypeOf(m: Metadata): AddrType {
    if m.host != [] || m.dstIP.NoAddr? then Domain
    else if m.dstIP.V4? then IPv4
    else IPv6
  }

  // ----- printer -----

  function Port(p: uint16): seq<byte> {
    [p / 256, p % 256]
  }

  function Serialize(m: Metadata): seq<byte> {
    match AddrTypeOf(m)
    case Domain => [ATYP_DOMAIN, |m.host| % 256] + m.host + Port(m.dstPort)
    case IPv4 => [ATYP_IPV4] + m.dstIP.octets + Port(m.dstPort)
    case IPv6 => [ATYP_IPV6] + m.dstIP.octets + Port(m.dstPort)
  }

  // ----- parser -----

  /** Indexing out of range panics. */
  datatype Parsed = Panics | Done(metadata: Metadata)

  function Trim(host: seq<byte>): seq<byte> {
    if host != [] && host[|host| - 1] == DOT then Trim(host[..|host| - 1]) else host
  }

  predicate IsMapped(octets: seq<byte>) {
    |octets| == 16 && octets[..12] == [0, 0, 0, 0, 0, 0, 0, 0, 0, 0, 255, 255]
  }

  /** An IPv4-mapped address becomes the IPv4 address. */
  function Unmap(a: Addr): Addr {
    if a.V6? && IsMapped(a.octets) then V4(a.octets[12..]) else a
  }

  function PortAt(target: seq<byte>, high: nat, low: nat): uint16
    requires high < |target| && low < |target|
  {
    target[high] as nat * 256 + target[low]
  }

  /** The offsets behind a domain name are sums of bytes, which wrap. */
  function Plus(x: byte, y: byte): byte {
    (x + y) % 256
  }

  function Parse(target: seq<byte>): Parsed {
    if target == [] then Panics
    else if target[0] == ATYP_DOMAIN then ParseDomain(target)
    else if target[0] == ATYP_IPV4 then ParseIP(target, 4)
    else if target[0] == ATYP_IPV6 then ParseIP(target, 16)
    else Done(Metadata([], NoAddr, 0))
  }

  function ParseDomain(target: seq<byte>): Parsed {
    if |target| < 2 then Panics
    else
      var end := Plus(2, target[1]);
      var last := Plus(end, 1);
      if end < 2 || end >= |target| || last >= |target| then Panics
      else Done(Metadata(Trim(target[2..end]), NoAddr, PortAt(target, end, last)))
  }

  function ParseIP(target: seq<byte>, n: nat): Parsed
    requires n == 4 || n == 16
  {
    if n + 2 >= |target| then Panics
    else
      var octets := target[1..n + 1];
      Done(Metadata([], Unmap(if n == 4 then V4(octets) else V6(octets, [])), PortAt(target, n + 1, n + 2)))
  }

  // ----- printing, then parsing -----

  /** What a round trip should give back: the host, or else the address, and the port. */
  function Target(m: Metadata): Metadata {
    m.(dstIP := if m.host == [] then m.dstIP else NoAddr)
  }

  predicate EndsInDot(host: seq<byte>) {
    host != [] && host[|host| - 1] == DOT
  }

  /** When it does: the length byte plus two must not wrap, and at 253 bytes the port's low byte is read from the
      type byte; trailing dots are trimmed, zones are not sent, mapped addresses are unmapped. */
  predicate Survives(m: Metadata) {
    match AddrTypeOf(m)
    case Domain =>
      !EndsInDot(m.host) && (|m.host| <= 252 || (|m.host| == 253 && m.dstPort % 256 == ATYP_DOMAIN))
    case IPv4 => true
    case IPv6 => m.dstIP.zone == [] && !IsMapped(m.dstIP.octets)
  }

  lemma {:induction false} TrimIsShorter(host: seq<byte>)
    ensures |Trim(host)| <= |host| && !EndsInDot(Trim(host))
    ensures Trim(host) == host <==> !EndsInDot(host)
    decreases |host|
  {
    if EndsInDot(host) {
      TrimIsShorter(host[..|host| - 1]);
    }
  }

  lemma PortBytes(p: uint16, rest: seq<byte>)
    ensures var t := rest + Port(p); PortAt(t, |rest|, |rest| + 1) == p
  {
  }

  lemma PrintedDomain(m: Metadata)
    requires AddrTypeOf(m).Domain?
    ensures var t, n := Serialize(m), |m.host|;
      && |t| == n + 4 && t[0] == ATYP_DOMAIN && t[1] == n % 256 && t[2..2 + n % 256] == m.host[..n % 256]
      && PortAt(t, n + 2, n + 3) == m.dstPort && PortAt(t, n + 2, 0) == m.dstPort / 256 * 256 + ATYP_DOMAIN
  {
    var t, n := Serialize(m), |m.host|;
    assert t == [ATYP_DOMAIN, n % 256] + m.host + Port(m.dstPort);
  }

  /** The parser's view of a printed domain name, for every length. */
  lemma ParsePrintedDomain(m: Metadata)
    requires AddrTypeOf(m).Domain?
    ensures var p, length := ParseDomain(Serialize(m)), |m.host| % 256;
      && (length >= 254 <==> p.Panics?)
      && (length < 254 ==> p.metadata.host == Trim(m.host[..length]) && p.metadata.dstIP.NoAddr?)
      && (|m.host| < 253 ==> p.metadata.dstPort == m.dstPort)
      && (|m.host| == 253 ==> p.metadata.dstPort == m.dstPort / 256 * 256 + ATYP_DOMAIN)
  {
    PrintedDomain(m);
    var n := |m.host| % 256;
    if n < 254 {
      assert Plus(2, n) == n + 2 && Plus(n + 2, 1) == if n == 253 then 0 else n + 3;
    } else {
      assert Plus(2, n) < 2;
    }
  }

  /** Up to 253 bytes the host comes back but for trailing dots. */
  lemma ShortDomainRoundTrip(m: Metadata)
    requires AddrTypeOf(m).Domain? && |m.host| <= 253
    ensures ParseDomain(Serialize(m)) == Done(Target(m)) <==> Survives(m)
  {
    ParsePrintedDomain(m);
    TrimIsShorter(m.host);
    assert m.host[..|m.host|] == m.host;
    LowByte(m.dstPort);
  }

  lemma LowByte(p: uint16)
    ensures p / 256 * 256 + ATYP_DOMAIN == p <==> p % 256 == ATYP_DOMAIN
  {
  }

  /** Beyond that it never does: the parser panics, or sees a shorter name. */
  lemma LongDomainRoundTrip(m: Metadata)
    requires AddrTypeOf(m).Domain? && |m.host| > 253
    ensures ParseDomain(Serialize(m)) != Done(Target(m))
  {
    ParsePrintedDomain(m);
    if |m.host| % 256 < 254 {
      TrimIsShorter(m.host[..|m.host| % 256]);
    }
  }

  lemma DomainRoundTrip(m: Metadata)
    requires AddrTypeOf(m).Domain?
    ensures Parse(Serialize(m)) == Done(Target(m)) <==> Survives(m)
  {
    PrintedDomain(m);
    if |m.host| <= 253 {
      ShortDomainRoundTrip(m);
    } else {
      LongDomainRoundTrip(m);
    }
  }

  lemma ParsePrintedIP(m: Metadata)
    requires !AddrTypeOf(m).Domain? && ValidAddr(m.dstIP)
    ensures Parse(Serialize(m)) ==
      Done(Metadata([], Unmap(if m.dstIP.V4? then m.dstIP else m.dstIP.(zone := [])), m.dstPort))
  {
    var t, n := Serialize(m), |m.dstIP.octets|;
    assert t[1..n + 1] == m.dstIP.octets;
    var front := [if m.dstIP.V4? then ATYP_IPV4 else ATYP_IPV6] + m.dstIP.octets;
    assert t == front + Port(m.dstPort);
    PortBytes(m.dstPort, front);
  }

  /** Parsing a printed address gives back the host (or else the IP) and the port exactly when it survives. */
  lemma RoundTripIff(m: Metadata)
    requires ValidAddr(m.dstIP)
    ensures Parse(Serialize(m)) == Done(Target(m)) <==> Survives(m)
  {
    if AddrTypeOf(m).Domain? {
      DomainRoundTrip(m);
    } else {
      ParsePrintedIP(m);
    }
  }

  /** The parser panics on a printed address exactly when its host is 254 or 255 bytes long, modulo 256. */
  lemma PanicsIff(m: Metadata)
    requires ValidAddr(m.dstIP)
    ensures Parse(Serialize(m)).Panics? <==> m.host != [] && |m.host| % 256 >= 254
  {
    if AddrTypeOf(m).Domain? {
      PrintedDomain(m);
      ParsePrintedDomain(m);
    } else {
      ParsePrintedIP(m);
    }
  }

  // ----- the layout of RFC 1928, section 5 -----

  /** A printed address: the type byte, then for a name its length and its bytes and for an address its octets, then
      the port, high byte first. */
  lemma PrintedLayout(m: Metadata)
    requires ValidAddr(m.dstIP)
    ensures var t := Serialize(m);
      && |t| >= 4 && t[|t| - 2] as nat * 256 + t[|t| - 1] == m.dstPort
      && (m.host != [] || m.dstIP.NoAddr? ==>
            t[0] == 3 && |t| == |m.host| + 4 && t[1] == |m.host| % 256 && t[2..|t| - 2] == m.host)
      && (m.host == [] && m.dstIP.V4? ==> t[0] == 1 && |t| == 7 && t[1..5] == m.dstIP.octets)
      && (m.host == [] && m.dstIP.V6? ==> t[0] == 4 && |t| == 19 && t[1..17] == m.dstIP.octets)
  {
    var t := Serialize(m);
    if AddrTypeOf(m).Domain? {
      assert t == [3, |m.host| % 256] + m.host + Port(m.dstPort);
    } else {
      assert t == [if m.dstIP.V4? then 1 else 4] + m.dstIP.octets + Port(m.dstPort);
    }
  }

  /** What is trimmed off a host is dots and nothing else. */
  lemma {:induction false} TrimTakesDots(host: seq<byte>)
    ensures Trim(host) <= host && forall i | |Trim(host)| <= i < |host| :: host[i] == 46
    decreases |host|
  {
    if EndsInDot(host) {
      TrimTakesDots(host[..|host| - 1]);
    }
  }

  /** An IPv6 address comes back as IPv4 exactly if it is IPv4-mapped: ten zero bytes and two of 255. */
  lemma MappedComesBackShort(octets: seq<byte>, port: uint16)
    requires |octets| == 16
    ensures var r := Parse(Serialize(Metadata([], V6(octets, []), port)));
      && r.Done? && r.metadata.host == [] && r.metadata.dstPort == port
      && (if (forall i | 0 <= i < 10 :: octets[i] == 0) && octets[10] == 255 && octets[11] == 255
          then r.metadata.dstIP == V4(octets[12..])
          else r.metadata.dstIP == V6(octets, []))
  {
    ParsePrintedIP(Metadata([], V6(octets, []), port));
    MappedBytes(octets);
  }

  lemma MappedBytes(octets: seq<byte>)
    requires |octets| == 16
    ensures IsMapped(octets) <==> (forall i | 0 <= i < 10 :: octets[i] == 0) && octets[10] == 255 && octets[11] == 255
  {
    var front := octets[..12];
    assert forall i | 0 <= i < 12 :: front[i] == octets[i];
    assert front == front[..10] + [octets[10], octets[11]];
  }

  // ----- parsing, then printing -----

  /** A complete address, as SplitAddr cuts it out of a message. */
  predicate Complete(t: seq<byte>) {
    && t != []
    && if t[0] == ATYP_DOMAIN then |t| >= 2 && |t| == t[1] as nat + 4
       else if t[0] == ATYP_IPV4 then |t| == 7
       else t[0] == ATYP_IPV6 && |t| == 19
  }

  /** An address that is parsed and printed again is unchanged under the same conditions. */
  predicate Reprints(t: seq<byte>)
    requires Complete(t)
  {
    if t[0] == ATYP_DOMAIN then
      !EndsInDot(t[2..|t| - 2]) && (t[1] <= 252 || (t[1] == 253 && t[256] == ATYP_DOMAIN))
    else t[0] == ATYP_IPV4 || !IsMapped(t[1..17])
  }

  lemma ParseComplete(t: seq<byte>)
    requires Complete(t) && t[0] == ATYP_DOMAIN
    ensures t[1] >= 254 <==> ParseDomain(t).Panics?
    ensures t[1] < 254 ==>
      ParseDomain(t) == Done(Metadata(Trim(t[2..|t| - 2]), NoAddr, PortAt(t, |t| - 2, if t[1] == 253 then 0 else |t| - 1)))
  {
  }

  lemma ReprintedDomain(t: seq<byte>, host: seq<byte>, low: byte)
    requires Complete(t) && t[0] == ATYP_DOMAIN && |host| <= t[1] <= 253
    ensures Serialize(Metadata(host, NoAddr, t[|t| - 2] as nat * 256 + low)) == t <==>
      host == t[2..|t| - 2] && low == t[|t| - 1]
  {
    var r := Serialize(Metadata(host, NoAddr, t[|t| - 2] as nat * 256 + low));
    assert r == [ATYP_DOMAIN, |host|] + host + [t[|t| - 2], low];
    assert t == [ATYP_DOMAIN, t[1]] + t[2..|t| - 2] + [t[|t| - 2], t[|t| - 1]];
    assert |host| == t[1] ==> r[2..|r| - 2] == host && r[|r| - 1] == low;
    assert r == t ==> |r| == |t|;
  }

  lemma ReparseDomain(t: seq<byte>)
    requires Complete(t) && t[0] == ATYP_DOMAIN
    ensures t[1] >= 254 <==> Parse(t).Panics?
    ensures t[1] < 254 ==> (Serialize(Parse(t).metadata) == t <==> Reprints(t))
  {
    ParseComplete(t);
    if t[1] < 254 {
      var host := t[2..|t| - 2];
      TrimIsShorter(host);
      ReprintedDomain(t, Trim(host), t[if t[1] == 253 then 0 else |t| - 1]);
    }
  }

  lemma ReparseIP(t: seq<byte>)
    requires Complete(t) && t[0] != ATYP_DOMAIN
    ensures !Parse(t).Panics? && (Serialize(Parse(t).metadata) == t <==> Reprints(t))
  {
    var n := |t| - 3;
    var m := Parse(t).metadata;
    assert t == [t[0]] + t[1..n + 1] + [t[n + 1], t[n + 2]];
    assert Port(m.dstPort) == [t[n + 1], t[n + 2]];
    assert t[0] == ATYP_IPV6 && IsMapped(t[1..17]) ==> |Serialize(m)| == 7;
  }

  lemma ReprintsIff(t: seq<byte>)
    requires Complete(t)
    ensures (!Parse(t).Panics? && Serialize(Parse(t).metadata) == t) <==> Reprints(t)
  {
    if t[0] == ATYP_DOMAIN {
      ReparseDomain(t);
    } else {
      ReparseIP(t);
    }
  }
}
