/** Which IP packets the tunnel lets through: the upper-layer protocol of IPv4 and IPv6 packets. */
module Tun {
  import opened Bytes

  const TCP: Byte := 6
  const UDP: Byte := 17
  const MAX_HEADERS: nat := 16

  // ----- the header chain, as the IPv6 standards define it -----

  /** Hop-by-hop options, routing and destination options. */
  predicate IsOptions(next: Byte) {
    next == 0 || next == 43 || next == 60
  }

  predicate IsFragment(next: Byte) {
    next == 44
  }

  predicate IsAuthentication(next: Byte) {
    next == 51
  }

  predicate IsExtension(next: Byte) {
    IsOptions(next) || IsFragment(next) || IsAuthentication(next)
  }

  /** The length of the extension header of type `next` at `offset`, if the packet holds all of it: in units of 8 bytes
      beyond the first for options and routing (section 4 of RFC 8200), 8 bytes for a fragment header, in units of 4
      bytes minus 2 for authentication (section 2.2 of RFC 4302). */
  function ExtensionLength(packet: Data, next: Byte, offset: nat): (n: Option<nat>)
    requires IsExtension(next)
    ensures n.Some? ==> n.value >= 8 && offset + n.value <= |packet|
  {
    var need := if IsFragment(next) then 8 else 2;
    if |packet| < offset + need then None
    else
      var units: nat := packet[offset + 1];
      var n := if IsFragment(next) then 8 else if IsOptions(next) then (units + 1) * 8 else (units + 2) * 4;
      if |packet| < offset + n then None else Some(n)
  }

  /** The chain from `offset` on: how many extension headers precede the upper layer, and its protocol. */
  datatype Chain = Malformed | Upper(extensions: nat, protocol: Byte)

  function ChainFrom(packet: Data, next: Byte, offset: nat): Chain
    requires offset <= |packet|
    decreases |packet| - offset
  {
    if !IsExtension(next) then Upper(0, next)
    else match ExtensionLength(packet, next, offset)
      case None => Malformed
      case Some(n) =>
        match ChainFrom(packet, packet[offset], offset + n)
        case Malformed => Malformed
        case Upper(k, p) => Upper(k + 1, p)
  }

  /** The protocol an unbounded chain gives, as far as at most `limit` headers of it are looked at. */
  function Bounded(c: Chain, limit: nat): Option<Byte> {
    if c.Upper? && c.extensions < limit then Some(c.protocol) else None
  }

  // ----- the walk -----

  /** The loop looks at 16 headers in all, so it finds the upper layer behind at most 15 extension headers. */
  method IPv6UpperLayerProtocol(packet: Data) returns (r: Option<Byte>)
    ensures r == if |packet| < 40 then None else Bounded(ChainFrom(packet, packet[6], 40), MAX_HEADERS)
  {
    if |packet| < 40 {
      return None;
    }
    var next := packet[6];
    var offset := 40;
    var headers := 0;
    while headers < MAX_HEADERS
      invariant headers <= MAX_HEADERS && 40 <= offset <= |packet|
      invariant Bounded(ChainFrom(packet, packet[6], 40), MAX_HEADERS)
             == Bounded(ChainFrom(packet, next, offset), MAX_HEADERS - headers)
    {
      if next == 6 || next == 17 {
        return Some(next);
      } else if next == 0 || next == 43 || next == 60 {
        if |packet| < offset + 2 {
          return None;
        }
        var units: int := packet[offset + 1];
        var headerLen := (units + 1) * 8;
        if headerLen < 8 || |packet| < offset + headerLen {
          return None;
        }
        next := packet[offset];
        offset := offset + headerLen;
      } else if next == 44 {
        if |packet| < offset + 8 {
          return None;
        }
        next := packet[offset];
        offset := offset + 8;
      } else if next == 51 {
        if |packet| < offset + 2 {
          return None;
        }
        var units: int := packet[offset + 1];
        var headerLen := (units + 2) * 4;
        if headerLen < 8 || |packet| < offset + headerLen {
          return None;
        }
        next := packet[offset];
        offset := offset + headerLen;
      } else {
        return Some(next);
      }
      headers := headers + 1;
    }
    return None;
  }

  /** The protocol of a packet, by version; IPv4 needs a header of at least 20 bytes that the packet holds. */
  ghost function Protocol(packet: Data): Option<Byte> {
    if |packet| < 1 then None
    else if packet[0] / 16 == 4 then
      var headerLen := packet[0] as int % 16 * 4;
      if |packet| < 20 || headerLen < 20 || |packet| < headerLen then None else Some(packet[9])
    else if packet[0] / 16 == 6 then
      if |packet| < 40 then None else Bounded(ChainFrom(packet, packet[6], 40), MAX_HEADERS)
    else None
  }

  method IPProtocol(packet: Data) returns (r: Option<Byte>)
    ensures r == Protocol(packet)
  {
    if |packet| < 1 {
      return None;
    }
    var version := packet[0] / 16;
    if version == 4 {
      if |packet| < 20 {
        return None;
      }
      var headerLen := packet[0] as int % 16 * 4;
      if headerLen < 20 || |packet| < headerLen {
        return None;
      }
      return Some(packet[9]);
    } else if version == 6 {
      r := IPv6UpperLayerProtocol(packet);
    } else {
      return None;
    }
  }

  /** Lets a packet through exactly when its protocol is TCP or UDP and that name is listed. */
  method PacketAllowed(packet: Data, protocols: seq<string>) returns (ok: bool)
    ensures ok <==> || (Protocol(packet) == Some(TCP) && "tcp" in protocols)
                    || (Protocol(packet) == Some(UDP) && "udp" in protocols)
  {
    var proto := IPProtocol(packet);
    if proto.None? {
      return false;
    }
    for i := 0 to |protocols|
      invariant !(proto == Some(TCP) && "tcp" in protocols[..i]) && !(proto == Some(UDP) && "udp" in protocols[..i])
    {
      assert protocols[..i + 1] == protocols[..i] + [protocols[i]];
      if protocols[i] == "tcp" {
        if proto.value == TCP {
          return true;
        }
      } else if protocols[i] == "udp" {
        if proto.value == UDP {
          return true;
        }
      }
    }
    assert protocols[..|protocols|] == protocols;
    return false;
  }

  // ----- packets built to carry a given chain -----

  /** An extension header with its length field, as far as it has one. */
  datatype Extension =
    | HopByHop(units: Byte) | Routing(units: Byte) | DestinationOptions(units: Byte)
    | Fragment
    | Authentication(units: Byte)

  function KindOf(e: Extension): Byte {
    match e
    case HopByHop(_) => 0
    case Routing(_) => 43
    case Fragment => 44
    case Authentication(_) => 51
    case DestinationOptions(_) => 60
  }

  function SizeOf(e: Extension): (n: nat)
    ensures n >= 8
  {
    match e
    case Fragment => 8
    case Authentication(units) => (units as int + 2) * 4
    case _ => (e.units as int + 1) * 8
  }

  function UnitsOf(e: Extension): Byte {
    if e.Fragment? then 0 else e.units
  }

  function FirstKind(exts: seq<Extension>, upper: Byte): Byte {
    if exts == [] then upper else KindOf(exts[0])
  }

  /** The bytes of the extension headers, each naming the next, the last naming `upper`. */
  function Headers(exts: seq<Extension>, upper: Byte): Data {
    if exts == [] then []
    else
      Own(exts[0], FirstKind(exts[1..], upper)) + Headers(exts[1..], upper)
  }

  function Own(e: Extension, next: Byte): (h: Data)
    ensures |h| == SizeOf(e) && h[0] == next && h[1] == UnitsOf(e)
  {
    [next, UnitsOf(e)] + seq(SizeOf(e) - 2, _ => 0)
  }

  lemma HeaderReads(before: Data, e: Extension, next: Byte, after: Data)
    ensures var packet := before + Own(e, next) + after;
            ExtensionLength(packet, KindOf(e), |before|) == Some(SizeOf(e)) && packet[|before|] == next
  {
    var packet := before + Own(e, next) + after;
    assert packet[|before|] == Own(e, next)[0] && packet[|before| + 1] == Own(e, next)[1];
  }

  lemma OneMore(packet: Data, kind: Byte, offset: nat, size: nat, k: nat, upper: Byte)
    requires IsExtension(kind) && offset < |packet| && ExtensionLength(packet, kind, offset) == Some(size)
    requires ChainFrom(packet, packet[offset], offset + size) == Upper(k, upper)
    ensures ChainFrom(packet, kind, offset) == Upper(k + 1, upper)
  {
  }

  lemma Regroup(a: Data, b: Data, c: Data, d: Data)
    ensures a + (b + c) + d == a + b + (c + d) == (a + b) + c + d
  {
  }

  lemma FirstHeader(packet: Data, before: Data, e: Extension, next: Byte, rest: Data, after: Data)
    requires packet == before + (Own(e, next) + rest) + after
    ensures packet == (before + Own(e, next)) + rest + after && |before| + SizeOf(e) <= |packet|
    ensures ExtensionLength(packet, KindOf(e), |before|) == Some(SizeOf(e)) && packet[|before|] == next
  {
    Regroup(before, Own(e, next), rest, after);
    HeaderReads(before, e, next, rest + after);
  }

  /** A packet that carries any list of extension headers is read back as that many headers and its upper layer. */
  lemma {:induction false} ChainReads(packet: Data, before: Data, exts: seq<Extension>, upper: Byte, after: Data)
    requires !IsExtension(upper)
    requires packet == before + Headers(exts, upper) + after
    ensures ChainFrom(packet, FirstKind(exts, upper), |before|) == Upper(|exts|, upper)
    decreases |exts|
  {
    if exts != [] {
      var e, next, rest := exts[0], FirstKind(exts[1..], upper), Headers(exts[1..], upper);
      FirstHeader(packet, before, e, next, rest, after);
      ChainReads(packet, before + Own(e, next), exts[1..], upper, after);
      OneMore(packet, KindOf(e), |before|, SizeOf(e), |exts| - 1, upper);
    }
  }

  /** An IPv6 packet is classified by its upper layer exactly when at most 15 extension headers come first. */
  lemma FifteenExtensions(fixed: Data, exts: seq<Extension>, upper: Byte, after: Data)
    requires |fixed| == 40 && fixed[0] / 16 == 6 && fixed[6] == FirstKind(exts, upper)
    requires !IsExtension(upper)
    ensures Protocol(fixed + Headers(exts, upper) + after) == if |exts| <= 15 then Some(upper) else None
  {
    var packet := fixed + Headers(exts, upper) + after;
    ChainReads(packet, fixed, exts, upper, after);
    assert packet[0] == fixed[0] && packet[6] == fixed[6];
  }

  // ----- packets that are cut short -----

  lemma CutHeader(before: Data, e: Extension, next: Byte, after: Data, cut: nat)
    requires |before| <= cut < |before| + SizeOf(e)
    ensures ExtensionLength((before + Own(e, next) + after)[..cut], KindOf(e), |before|) == None
  {
    var packet := before + Own(e, next) + after;
    assert packet[|before| + 1] == Own(e, next)[1];
    if cut >= |before| + 2 { assert packet[..cut][|before| + 1] == packet[|before| + 1]; }
  }

  lemma WholeHeader(before: Data, e: Extension, next: Byte, after: Data, cut: nat)
    requires |before| + SizeOf(e) <= cut <= |before + Own(e, next) + after|
    ensures var packet := (before + Own(e, next) + after)[..cut];
            ExtensionLength(packet, KindOf(e), |before|) == Some(SizeOf(e)) && packet[|before|] == next
  {
    var packet := before + Own(e, next) + after;
    assert packet[..cut] == before + Own(e, next) + packet[..cut][|before| + SizeOf(e)..];
    HeaderReads(before, e, next, packet[..cut][|before| + SizeOf(e)..]);
  }

  /** A chain that is cut anywhere before its end is malformed. */
  lemma {:induction false} CutChain(packet: Data, before: Data, exts: seq<Extension>, upper: Byte, cut: nat)
    requires packet == before + Headers(exts, upper) && |before| <= cut < |packet|
    ensures ChainFrom(packet[..cut], FirstKind(exts, upper), |before|) == Malformed
    decreases |exts|
  {
    assert exts != [];
    var e, next, rest := exts[0], FirstKind(exts[1..], upper), Headers(exts[1..], upper);
    Regroup(before, Own(e, next), rest, []);
    assert packet == before + Own(e, next) + rest;
    if cut < |before| + SizeOf(e) {
      CutHeader(before, e, next, rest, cut);
    } else {
      WholeHeader(before, e, next, rest, cut);
      CutChain(packet, before + Own(e, next), exts[1..], upper, cut);
      assert ChainFrom(packet[..cut], next, |before| + SizeOf(e)) == Malformed;
    }
  }

  /** An IPv6 packet that ends before its upper layer begins is not classified. */
  lemma CutIsRefused(fixed: Data, exts: seq<Extension>, upper: Byte, cut: nat)
    requires |fixed| == 40 && fixed[0] / 16 == 6 && fixed[6] == FirstKind(exts, upper)
    requires cut < |fixed + Headers(exts, upper)|
    ensures Protocol((fixed + Headers(exts, upper))[..cut]) == None
  {
    var packet := fixed + Headers(exts, upper);
    if cut >= 1 { assert packet[..cut][0] == fixed[0]; }
    if cut >= 40 {
      CutChain(packet, fixed, exts, upper, cut);
      assert packet[..cut][6] == fixed[6];
    }
  }

  // ----- IPv4 -----

  /** An IPv4 packet: its header length in units of 4 bytes, 8 bytes of other fields, the protocol, and all the rest. */
  function IPv4(units: nat, fields: Data, protocol: Byte, rest: Data): Data
    requires units < 16
  {
    [64 + units] + fields + [protocol] + rest
  }

  /** It is classified by its protocol field if and only if its header has at least 20 bytes and is all there. */
  lemma IPv4Reads(units: nat, fields: Data, protocol: Byte, rest: Data)
    requires units < 16 && |fields| == 8
    ensures var packet := IPv4(units, fields, protocol, rest);
            Protocol(packet) == if units >= 5 && |packet| >= 4 * units then Some(protocol) else None
  {
    var packet := IPv4(units, fields, protocol, rest);
    assert packet[0] == 64 + units && packet[9] == protocol;
  }

  /** Nothing but IPv4 and IPv6 is classified. */
  lemma OtherVersions(packet: Data)
    requires packet == [] || packet[0] < 64 || packet[0] >= 112 || 80 <= packet[0] < 96
    ensures Protocol(packet) == None
  {
  }
}
