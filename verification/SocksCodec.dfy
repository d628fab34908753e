/** The SOCKS5 address encodings of RFC 1928: the UDP request header of section 7
    (internal/socks/udp.go), the stream address of section 5 and the reply of section 6
    (internal/socks/request.go). */
module SocksCodec {
  import opened Basics

  const IPV4_ADDRESS: byte := 1
  const FQDN_ADDRESS: byte := 3
  const IPV6_ADDRESS: byte := 4
  const SOCKS5_VERSION: byte := 5
  const UDP_MAX_PACKET_SIZE := 65535
  const UDP_MAX_HEADER_LEN := 262

  // AddrSpec: a nil IP is the empty sequence; the port is 16 bits wide.
  datatype AddrSpec = AddrSpec(fqdn: seq<byte>, ip: seq<byte>, port: nat)

  predicate Port16(p: nat) { p < 0x1_0000 }

  datatype ParseError = Malformed | UnrecognizedAddrType | UnexpectedEof

  datatype Result<+T> = Ok(value: T) | Err(error: ParseError)

  // --- net.IP ---------------------------------------------------------------------------

  const MAPPED_PREFIX: seq<byte> := [0, 0, 0, 0, 0, 0, 0, 0, 0, 0, 255, 255]

  // net.IP.To4: the 4-byte form, or nil (empty)
  function To4(ip: seq<byte>): seq<byte> {
    if |ip| == 4 then ip
    else if |ip| == 16 && ip[..12] == MAPPED_PREFIX then ip[12..]
    else []
  }

  function To16(ip: seq<byte>): seq<byte> {
    if |ip| == 4 then MAPPED_PREFIX + ip else if |ip| == 16 then ip else []
  }

  // --- The wire grammar -----------------------------------------------------------------

  // What can stand between ATYP and the port, and how it is written.
  datatype WireAddr = V4(ip: seq<byte>) | V6(ip: seq<byte>) | Name(text: seq<byte>)

  predicate WireOk(w: WireAddr) {
    match w
    case V4(ip) => |ip| == 4
    case V6(ip) => |ip| == 16
    case Name(text) => |text| <= 255
  }

  function PortBytes(p: nat): seq<byte>
    requires Port16(p)
  {
    [(p / 256) as byte, (p % 256) as byte]
  }

  /** ATYP, address and port: the part shared by sections 5, 6 and 7 of RFC 1928. */
  function Wire(w: WireAddr, port: nat): (b: seq<byte>)
    requires WireOk(w) && Port16(port)
    ensures 4 <= |b| <= 259
  {
    match w
    case V4(ip) => [IPV4_ADDRESS] + ip + PortBytes(port)
    case V6(ip) => [IPV6_ADDRESS] + ip + PortBytes(port)
    case Name(text) => [FQDN_ADDRESS, |text| as byte] + text + PortBytes(port)
  }

  function Spec(w: WireAddr, port: nat): AddrSpec {
    match w
    case V4(ip) => AddrSpec([], ip, port)
    case V6(ip) => AddrSpec([], ip, port)
    case Name(text) => AddrSpec(text, [], port)
  }

  // The wire form a buffer begins with, if any.
  ghost predicate Begins(buf: seq<byte>, w: WireAddr, port: nat) {
    WireOk(w) && Port16(port) && Wire(w, port) <= buf
  }

  /** The grammar is prefix-free: a buffer begins with at most one encoded address. */
  lemma WireUnique(buf: seq<byte>, w1: WireAddr, p1: nat, w2: WireAddr, p2: nat)
    requires Begins(buf, w1, p1) && Begins(buf, w2, p2)
    ensures w1 == w2 && p1 == p2
  {
    var b1, b2 := Wire(w1, p1), Wire(w2, p2);
    assert buf[0] == b1[0] && buf[0] == b2[0];
    if w1.Name? {
      assert buf[1] == b1[1] && buf[1] == b2[1];
    }
    assert |b1| == |b2|;
    assert b1 == buf[..|b1|] == b2;
    WireInjective(w1, p1, w2, p2);
  }

  lemma WireInjective(w1: WireAddr, p1: nat, w2: WireAddr, p2: nat)
    requires WireOk(w1) && WireOk(w2) && Port16(p1) && Port16(p2) && Wire(w1, p1) == Wire(w2, p2)
    ensures w1 == w2 && p1 == p2
  {
    var b, n := Wire(w1, p1), |Wire(w1, p1)|;
    assert b[0] == Wire(w2, p2)[0];
    var skip := if w1.Name? then 2 else 1;
    assert b[skip..n - 2] == if w1.Name? then w1.text else w1.ip;
    assert b[skip..n - 2] == if w2.Name? then w2.text else w2.ip;
    assert b[n - 2..] == PortBytes(p1) && b[n - 2..] == PortBytes(p2);
    assert PortBytes(p1)[0] == PortBytes(p2)[0] && PortBytes(p1)[1] == PortBytes(p2)[1];
  }

  // --- Reading ----------------------------------------------------------------------------

  // uint16(hi)<<8 | uint16(lo)
  function PortOf(hi: byte, lo: byte): nat {
    hi as nat * 256 + lo as nat
  }

  datatype Parsed = Parsed(addr: AddrSpec, used: nat)

  /** Reading one address from position `at` of a byte string, as both parsers must. */
  function ReadAt(d: seq<byte>, at: nat): Result<Parsed>
    requires at <= |d|
  {
    if |d| < at + 1 then Err(UnexpectedEof)
    else if d[at] == IPV4_ADDRESS then
      if |d| < at + 7 then Err(UnexpectedEof)
      else Ok(Parsed(AddrSpec([], d[at + 1..at + 5], PortOf(d[at + 5], d[at + 6])), 7))
    else if d[at] == IPV6_ADDRESS then
      if |d| < at + 19 then Err(UnexpectedEof)
      else Ok(Parsed(AddrSpec([], d[at + 1..at + 17], PortOf(d[at + 17], d[at + 18])), 19))
    else if d[at] == FQDN_ADDRESS then
      if |d| < at + 2 || |d| < at + d[at + 1] as nat + 4 then Err(UnexpectedEof)
      else
        var n := d[at + 1] as nat;
        Ok(Parsed(AddrSpec(d[at + 2..at + 2 + n], [], PortOf(d[at + 2 + n], d[at + 3 + n])), n + 4))
    else Err(UnrecognizedAddrType)
  }

  function ReadAddr(b: seq<byte>): Result<Parsed> { ReadAt(b, 0) }

  /** Soundness and completeness against the grammar: a read succeeds exactly on a string that
      begins with an encoded address, consumes exactly that encoding and returns what was encoded. */
  lemma ReadAddrExact(b: seq<byte>)
    ensures ReadAddr(b).Ok? <==> exists w, p :: Begins(b, w, p)
    ensures forall w, p :: Begins(b, w, p) ==> ReadAddr(b) == Ok(Parsed(Spec(w, p), |Wire(w, p)|))
  {
    forall w, p | Begins(b, w, p) ensures ReadAddr(b) == Ok(Parsed(Spec(w, p), |Wire(w, p)|)) {
      ReadsWire(b, w, p);
    }
    if ReadAddr(b).Ok? {
      var w, p := ReadsSome(b);
    }
  }

  lemma ReadsWire(b: seq<byte>, w: WireAddr, p: nat)
    requires Begins(b, w, p)
    ensures ReadAddr(b) == Ok(Parsed(Spec(w, p), |Wire(w, p)|))
  {
    var e := Wire(w, p);
    assert forall i :: 0 <= i < |e| ==> b[i] == e[i];
    assert e[|e| - 2] == PortBytes(p)[0] && e[|e| - 1] == PortBytes(p)[1];
    match w
    case V4(ip) => assert b[1..5] == ip;
    case V6(ip) => assert b[1..17] == ip;
    case Name(text) => assert b[1] == e[1] && b[2..2 + |text|] == text;
  }

  lemma ReadsSome(b: seq<byte>) returns (w: WireAddr, p: nat)
    requires ReadAddr(b).Ok?
    ensures Begins(b, w, p)
  {
    var r := ReadAddr(b).value;
    var n := r.used;
    p := r.addr.port;
    PortBack(b[n - 2], b[n - 1]);
    if b[0] == IPV4_ADDRESS {
      w := V4(b[1..5]);
      assert b[..7] == [b[0]] + b[1..5] + [b[5], b[6]];
    } else if b[0] == IPV6_ADDRESS {
      w := V6(b[1..17]);
      assert b[..19] == [b[0]] + b[1..17] + [b[17], b[18]];
    } else {
      w := Name(r.addr.fqdn);
      assert b[..n] == [b[0], b[1]] + b[2..n - 2] + [b[n - 2], b[n - 1]];
    }
  }

  lemma PortBack(hi: byte, lo: byte)
    ensures Port16(PortOf(hi, lo)) && PortBytes(PortOf(hi, lo)) == [hi, lo]
  {
  }

  /** The only other complaint is an address type of none of the three kinds. */
  lemma ReadAddrUnrecognized(b: seq<byte>)
    ensures ReadAddr(b) == Err(UnrecognizedAddrType) <==> |b| > 0 && b[0] != 1 && b[0] != 3 && b[0] != 4
  {
  }

  // --- ParseUDPHeader ------------------------------------------------------------------------

  datatype UdpHeader = UdpHeader(frag: byte, addr: AddrSpec, dataOffset: nat)

  /** Section 7 of RFC 1928: two zero bytes, FRAG, then the address. */
  function UdpParse(buf: seq<byte>): Result<UdpHeader> {
    if |buf| < 4 || buf[0] != 0 || buf[1] != 0 then Err(Malformed)
    else match ReadAddr(buf[3..])
      case Ok(p) => Ok(UdpHeader(buf[2], p.addr, 3 + p.used))
      case Err(UnrecognizedAddrType) => Err(UnrecognizedAddrType)
      case Err(_) => Err(Malformed)
  }

  // Only what stands behind the position counts.
  lemma ReadAtIs(d: seq<byte>, at: nat)
    requires at <= |d|
    ensures ReadAt(d, at) == ReadAddr(d[at..])
  {
    var b := d[at..];
    if 1 <= |b| && b[0] == IPV4_ADDRESS && 7 <= |b| {
      assert b[1..5] == d[at + 1..at + 5];
    } else if 1 <= |b| && b[0] == IPV6_ADDRESS && 19 <= |b| {
      assert b[1..17] == d[at + 1..at + 17];
    } else if 2 <= |b| && b[0] == FQDN_ADDRESS && b[1] as nat + 4 <= |b| {
      assert b[2..2 + b[1] as nat] == d[at + 2..at + 2 + b[1] as nat];
    }
  }

  /** A datagram is accepted exactly if two zero bytes, any FRAG and an encoded address stand in front; the header is
      those, and the payload begins behind them. */
  lemma UdpParseExact(buf: seq<byte>)
    ensures UdpParse(buf).Ok? <==>
            |buf| >= 3 && buf[0] == 0 && buf[1] == 0 && exists w, p :: Begins(buf[3..], w, p)
    ensures forall w, p :: |buf| >= 3 && buf[0] == 0 && buf[1] == 0 && Begins(buf[3..], w, p) ==>
                           UdpParse(buf) == Ok(UdpHeader(buf[2], Spec(w, p), 3 + |Wire(w, p)|))
    ensures UdpParse(buf) == Err(UnrecognizedAddrType) <==>
            |buf| > 3 && buf[0] == 0 && buf[1] == 0 && buf[3] != 1 && buf[3] != 3 && buf[3] != 4
  {
    if |buf| >= 3 { ReadAddrExact(buf[3..]); }
    UdpParseUnrecognized(buf);
  }

  lemma UdpParseUnrecognized(buf: seq<byte>)
    ensures UdpParse(buf) == Err(UnrecognizedAddrType) <==>
            |buf| > 3 && buf[0] == 0 && buf[1] == 0 && buf[3] != 1 && buf[3] != 3 && buf[3] != 4
  {
    if |buf| >= 3 { ReadAddrUnrecognized(buf[3..]); }
  }

  // The parser as written, with its moving offset.
  method ParseUdpHeader(buf: seq<byte>) returns (r: Result<UdpHeader>)
    ensures r == UdpParse(buf)
  {
    if |buf| < 4 {
      return Err(Malformed);
    }
    if buf[0] != 0 || buf[1] != 0 {
      return Err(Malformed);
    }
    ReadAtIs(buf, 3);
    var frag := buf[2];
    var off := 3;
    var ip: seq<byte>, fqdn: seq<byte> := [], [];
    if buf[off] == IPV4_ADDRESS {
      off := off + 1;
      if |buf| < off + 4 + 2 {
        return Err(Malformed);
      }
      ip := buf[off..off + 4];
      off := off + 4;
    } else if buf[off] == IPV6_ADDRESS {
      off := off + 1;
      if |buf| < off + 16 + 2 {
        return Err(Malformed);
      }
      ip := buf[off..off + 16];
      off := off + 16;
    } else if buf[off] == FQDN_ADDRESS {
      off := off + 1;
      if |buf| < off + 1 {
        return Err(Malformed);
      }
      var fqdnLen := buf[off] as nat;
      off := off + 1;
      if |buf| < off + fqdnLen + 2 {
        return Err(Malformed);
      }
      fqdn := buf[off..off + fqdnLen];
      off := off + fqdnLen;
    } else {
      return Err(UnrecognizedAddrType);
    }
    var port := PortOf(buf[off], buf[off + 1]);
    off := off + 2;
    return Ok(UdpHeader(frag, AddrSpec(fqdn, ip, port), off));
  }

  // --- MarshalUDPHeader --------------------------------------------------------------------------

  datatype Marshalled = Header(bytes: seq<byte>) | FqdnTooLong | InvalidAddress

  function Marshal(a: AddrSpec): Marshalled
    requires Port16(a.port)
  {
    var v4, v6 := To4(a.ip), To16(a.ip);
    if v4 != [] then Header([0, 0, 0, IPV4_ADDRESS] + v4 + PortBytes(a.port))
    else if v6 != [] then Header([0, 0, 0, IPV6_ADDRESS] + v6 + PortBytes(a.port))
    else if a.fqdn != [] then
      if |a.fqdn| > 255 then FqdnTooLong
      else Header([0, 0, 0, FQDN_ADDRESS, |a.fqdn| as byte] + a.fqdn + PortBytes(a.port))
    else InvalidAddress
  }

  // What survives a trip over the wire: an IP in its shortest form, or else the name.
  function Normalised(a: AddrSpec): AddrSpec {
    if To4(a.ip) != [] then AddrSpec([], To4(a.ip), a.port)
    else if To16(a.ip) != [] then AddrSpec([], To16(a.ip), a.port)
    else AddrSpec(a.fqdn, [], a.port)
  }

  // The wire address a marshalled header carries.
  function WireOf(a: AddrSpec): WireAddr {
    if To4(a.ip) != [] then V4(To4(a.ip)) else if To16(a.ip) != [] then V6(To16(a.ip)) else Name(a.fqdn)
  }

  lemma MarshalIsWire(a: AddrSpec)
    requires Port16(a.port) && Marshal(a).Header?
    ensures WireOk(WireOf(a)) && Marshal(a).bytes == [0, 0, 0] + Wire(WireOf(a), a.port)
    ensures Spec(WireOf(a), a.port) == Normalised(a)
  {
    var w := WireOf(a);
    assert WireOk(w);
    assert Marshal(a).bytes == [0, 0, 0] + Wire(w, a.port);
  }

  // ::ffff:a.b.c.d
  predicate Mapped(ip: seq<byte>) {
    |ip| == 16 && (forall i :: 0 <= i < 10 ==> ip[i] == 0) && ip[10] == 255 && ip[11] == 255
  }

  /** What marshals, and as what: an IPv4 address in either of its forms as four bytes, any other IPv6 address as
      sixteen, and without an IP a name of 1 to 255 bytes. */
  lemma MarshalExact(a: AddrSpec)
    requires Port16(a.port)
    ensures Marshal(a).Header? <==> |a.ip| == 4 || |a.ip| == 16 || 0 < |a.fqdn| <= 255
    ensures Marshal(a) == FqdnTooLong <==> |a.ip| != 4 && |a.ip| != 16 && |a.fqdn| > 255
    ensures Normalised(a) ==
            if |a.ip| == 4 then AddrSpec([], a.ip, a.port)
            else if Mapped(a.ip) then AddrSpec([], a.ip[12..], a.port)
            else if |a.ip| == 16 then AddrSpec([], a.ip, a.port)
            else AddrSpec(a.fqdn, [], a.port)
  {
    var p := MAPPED_PREFIX;
    assert |p| == 12 && p[10] == 255 && p[11] == 255 && forall i :: 0 <= i < 10 ==> p[i] == 0;
    if |a.ip| == 16 {
      if Mapped(a.ip) { assert a.ip[..12] == p; }
      if a.ip[..12] == p { assert forall i :: 0 <= i < 12 ==> a.ip[i] == p[i]; }
    }
  }

  /** The bytes of a marshalled header, one by one: RSV and FRAG zero, the address type, the address with the length
      of a name in front, the port with its high byte first. */
  lemma HeaderLayout(a: AddrSpec)
    requires Port16(a.port) && Marshal(a).Header?
    ensures var h, n := Marshal(a).bytes, Normalised(a);
            && |h| >= 7 && h[0] == 0 && h[1] == 0 && h[2] == 0
            && h[|h| - 2] as nat * 256 + h[|h| - 1] as nat == a.port
            && if |n.ip| == 4 then h[3] == 1 && h[4..|h| - 2] == n.ip
               else if |n.ip| == 16 then h[3] == 4 && h[4..|h| - 2] == n.ip
               else h[3] == 3 && h[4] as nat == |n.fqdn| && h[5..|h| - 2] == n.fqdn
  {
    var n := Normalised(a);
    MarshalIs(a);
    if |n.ip| == 4 {
      Layout([0, 0, 0, IPV4_ADDRESS], n.ip, a.port);
    } else if |n.ip| == 16 {
      Layout([0, 0, 0, IPV6_ADDRESS], n.ip, a.port);
    } else {
      Layout([0, 0, 0, FQDN_ADDRESS, |n.fqdn| as byte], n.fqdn, a.port);
    }
  }

  lemma MarshalIs(a: AddrSpec)
    requires Port16(a.port) && Marshal(a).Header?
    ensures var n := Normalised(a);
            && (|n.ip| == 4 ==> Marshal(a).bytes == [0, 0, 0, IPV4_ADDRESS] + n.ip + PortBytes(a.port))
            && (|n.ip| == 16 ==> Marshal(a).bytes == [0, 0, 0, IPV6_ADDRESS] + n.ip + PortBytes(a.port))
            && (|n.ip| != 4 && |n.ip| != 16 ==>
                  && |n.fqdn| <= 255
                  && Marshal(a).bytes == [0, 0, 0, FQDN_ADDRESS, |n.fqdn| as byte] + n.fqdn + PortBytes(a.port))
  {
  }

  lemma Layout(front: seq<byte>, body: seq<byte>, port: nat)
    requires Port16(port)
    ensures var h := front + body + PortBytes(port);
            && |h| == |front| + |body| + 2 && h[..|front|] == front && h[|front|..|h| - 2] == body
            && (forall i :: 0 <= i < |front| ==> h[i] == front[i])
            && h[|h| - 2] as nat * 256 + h[|h| - 1] as nat == port
  {
  }

  /** Round trip: a marshalled header in front of any payload parses back to the normalised
      address, FRAG 0 and an offset equal to the header's length, at most 262. */
  lemma MarshalThenParse(a: AddrSpec, payload: seq<byte>)
    requires Port16(a.port) && Marshal(a).Header?
    ensures var h := Marshal(a).bytes;
            |h| <= UDP_MAX_HEADER_LEN && UdpParse(h + payload) == Ok(UdpHeader(0, Normalised(a), |h|))
  {
    MarshalIsWire(a);
    var h, w := Marshal(a).bytes, WireOf(a);
    assert (h + payload)[3..] == Wire(w, a.port) + payload;
    ReadsWire((h + payload)[3..], w, a.port);
  }

  // The two ways an accepted header fails to come back: an IPv4 address written as IPv6,
  // and the empty name.
  predicate Rewritten(h: UdpHeader) {
    (|h.addr.ip| == 16 && h.addr.ip[..12] == MAPPED_PREFIX) || (h.addr.ip == [] && h.addr.fqdn == [])
  }

  /** Re-marshalling an accepted FRAG 0 header reproduces its bytes exactly unless it is one
      of those two. */
  lemma ParseThenMarshal(buf: seq<byte>)
    requires UdpParse(buf).Ok? && UdpParse(buf).value.frag == 0
    ensures var h := UdpParse(buf).value;
            && Port16(h.addr.port) && h.dataOffset <= |buf|
            && (Marshal(h.addr) == Header(buf[..h.dataOffset]) <==> !Rewritten(h))
  {
    var h := UdpParse(buf).value;
    var w, p := ReadsSome(buf[3..]);
    ReadsWire(buf[3..], w, p);
    HeaderBytes(buf, w, p);
    RemarshalIff(h, w, p);
  }

  // The bytes of an accepted header.
  lemma HeaderBytes(buf: seq<byte>, w: WireAddr, p: nat)
    requires |buf| >= 3 && buf[0] == 0 && buf[1] == 0 && buf[2] == 0 && Begins(buf[3..], w, p)
    ensures 3 + |Wire(w, p)| <= |buf| && buf[..3 + |Wire(w, p)|] == [0, 0, 0] + Wire(w, p)
  {
    var e := Wire(w, p);
    assert e == buf[3..][..|e|];
  }

  lemma RemarshalIff(h: UdpHeader, w: WireAddr, p: nat)
    requires WireOk(w) && Port16(p) && h.addr == Spec(w, p)
    ensures Marshal(h.addr) == Header([0, 0, 0] + Wire(w, p)) <==> !Rewritten(h)
  {
    if !Rewritten(h) {
      MarshalIsWire(h.addr);
      assert WireOf(h.addr) == w;
    } else if w.V6? {
      assert |Marshal(h.addr).bytes| == 10;
    }
  }

  // --- readAddrSpec ----------------------------------------------------------------------------------

  /** An io.Reader over a finite byte string; io.ReadFull on it fails when too little is left. */
  class Reader {
    const data: seq<byte>
    var pos: nat

    constructor (data: seq<byte>)
      ensures this.data == data && pos == 0
    {
      this.data, this.pos := data, 0;
    }

    ghost predicate Valid()
      reads this
    {
      pos <= |data|
    }

    ghost function Rest(): seq<byte>
      requires Valid()
      reads this
    {
      data[pos..]
    }

    method ReadFull(n: nat) returns (r: Result<seq<byte>>)
      requires Valid()
      modifies this
      ensures Valid()
      ensures r == if old(pos) + n <= |data| then Ok(data[old(pos)..old(pos) + n]) else Err(UnexpectedEof)
      ensures pos == if old(pos) + n <= |data| then old(pos) + n else |data|
    {
      if |data| - pos < n {
        pos := |data|;
        return Err(UnexpectedEof);
      }
      r := Ok(data[pos..pos + n]);
      pos := pos + n;
    }
  }

  // A length octet and that many bytes.
  method ReadName(r: Reader) returns (res: Result<seq<byte>>)
    requires r.Valid()
    modifies r
    ensures r.Valid()
    ensures var p := old(r.pos);
            if p < |r.data| && p + 1 + r.data[p] as nat <= |r.data|
            then res == Ok(r.data[p + 1..p + 1 + r.data[p] as nat]) && r.pos == p + 1 + r.data[p] as nat
            else res == Err(UnexpectedEof)
  {
    var length := r.ReadFull(1);
    if length.Err? {
      return Err(length.error);
    }
    res := r.ReadFull(length.value[0] as nat);
  }

  // The pieces read one after the other make up the address.
  lemma Assembled(d: seq<byte>, at: nat, fqdn: seq<byte>, ip: seq<byte>, port: seq<byte>, used: nat)
    requires 4 <= used && at + used <= |d| && port == d[at + used - 2..at + used]
    requires || (d[at] == IPV4_ADDRESS && used == 7 && fqdn == [] && ip == d[at + 1..at + 5])
             || (d[at] == IPV6_ADDRESS && used == 19 && fqdn == [] && ip == d[at + 1..at + 17])
             || (d[at] == FQDN_ADDRESS && used == d[at + 1] as nat + 4 && fqdn == d[at + 2..at + used - 2] && ip == [])
    ensures ReadAt(d, at) == Ok(Parsed(AddrSpec(fqdn, ip, PortOf(port[0], port[1])), used))
  {
    assert port[0] == d[at + used - 2] && port[1] == d[at + used - 1];
  }

  method ReadAddrSpec(r: Reader) returns (res: Result<AddrSpec>)
    requires r.Valid()
    modifies r
    ensures r.Valid()
    ensures match ReadAddr(old(r.Rest()))
            case Ok(p) => res == Ok(p.addr) && r.pos == old(r.pos) + p.used
            case Err(e) => res == Err(e)
  {
    ReadAtIs(r.data, r.pos);
    ghost var at := r.pos;
    var addrType := r.ReadFull(1);
    if addrType.Err? {
      return Err(addrType.error);
    }
    var ip: seq<byte>, fqdn: seq<byte> := [], [];
    if addrType.value[0] == IPV4_ADDRESS {
      var addr := r.ReadFull(4);
      if addr.Err? {
        return Err(addr.error);
      }
      ip := addr.value;
    } else if addrType.value[0] == IPV6_ADDRESS {
      var addr := r.ReadFull(16);
      if addr.Err? {
        return Err(addr.error);
      }
      ip := addr.value;
    } else if addrType.value[0] == FQDN_ADDRESS {
      var name := ReadName(r);
      if name.Err? {
        return Err(name.error);
      }
      fqdn := name.value;
    } else {
      return Err(UnrecognizedAddrType);
    }
    var port := r.ReadFull(2);
    if port.Err? {
      return Err(port.error);
    }
    Assembled(r.data, at, fqdn, ip, port.value, r.pos - at);
    return Ok(AddrSpec(fqdn, ip, PortOf(port.value[0], port.value[1])));
  }

  /** The two address parsers agree: on every byte string the stream parser succeeds exactly when
      the datagram parser does behind three header bytes, with the same address and the same
      number of bytes used. */
  lemma ParsersAgree(b: seq<byte>, frag: byte)
    ensures ReadAddr(b).Ok? <==> UdpParse([0, 0, frag] + b).Ok?
    ensures ReadAddr(b).Ok? ==>
              var u := UdpParse([0, 0, frag] + b).value;
              u.addr == ReadAddr(b).value.addr && u.dataOffset == 3 + ReadAddr(b).value.used && u.frag == frag
    ensures ReadAddr(b) == Err(UnrecognizedAddrType) <==> UdpParse([0, 0, frag] + b) == Err(UnrecognizedAddrType)
  {
    var buf := [0, 0, frag] + b;
    assert buf[3..] == b;
    assert buf[0] == 0 && buf[1] == 0 && buf[2] == frag;
  }

  /** Both parsers at work on the same bytes: the stream parser on `b`, the datagram parser on `b` behind three
      header bytes. */
  method ParseBoth(b: seq<byte>, frag: byte) returns (stream: Result<AddrSpec>, used: nat, datagram: Result<UdpHeader>)
    ensures stream.Ok? <==> datagram.Ok?
    ensures stream.Ok? ==> datagram.value == UdpHeader(frag, stream.value, 3 + used)
    ensures stream == Err(UnrecognizedAddrType) <==> datagram == Err(UnrecognizedAddrType)
  {
    var r := new Reader(b);
    assert r.Rest() == b;
    stream := ReadAddrSpec(r);
    used := r.pos;
    datagram := ParseUdpHeader([0, 0, frag] + b);
    ParsersAgree(b, frag);
  }

  // --- sendReply -----------------------------------------------------------------------------------------

  // Section 6 of RFC 1928: VER REP RSV ATYP BND.ADDR BND.PORT; None when the address has no IP form.
  function ReplyAddr(addr: Option<AddrSpec>): Option<WireAddr> {
    match addr
    case None => Some(V4([0, 0, 0, 0]))
    case Some(a) =>
      if To4(a.ip) != [] then Some(V4(To4(a.ip))) else if To16(a.ip) != [] then Some(V6(To16(a.ip))) else None
  }

  function ReplyPort(addr: Option<AddrSpec>): nat { if addr.Some? then addr.value.port else 0 }

  method FillReply(resp: byte, addrType: byte, addrBody: seq<byte>, addrPort: nat) returns (msg: seq<byte>)
    requires Port16(addrPort)
    ensures msg == [SOCKS5_VERSION, resp, 0, addrType] + addrBody + PortBytes(addrPort)
  {
    var n := |addrBody|;
    var buf := new byte[6 + n](_ => 0);
    buf[0], buf[1], buf[2], buf[3] := SOCKS5_VERSION, resp, 0, addrType;
    CopyInto(buf, 4, addrBody);
    buf[4 + n] := (addrPort / 256) as byte;
    buf[4 + n + 1] := (addrPort % 256) as byte;
    Laid(buf[..], [SOCKS5_VERSION, resp, 0, addrType], addrBody, PortBytes(addrPort));
    return buf[..];
  }

  lemma Laid(msg: seq<byte>, front: seq<byte>, body: seq<byte>, end: seq<byte>)
    requires |msg| == |front| + |body| + |end|
    requires forall i :: 0 <= i < |front| ==> msg[i] == front[i]
    requires forall i :: 0 <= i < |body| ==> msg[|front| + i] == body[i]
    requires forall i :: 0 <= i < |end| ==> msg[|front| + |body| + i] == end[i]
    ensures msg == front + body + end
  {
  }

  // Nothing is sent when the address has no IP form.
  method SendReply(resp: byte, addr: Option<AddrSpec>) returns (msg: Option<seq<byte>>)
    requires addr.Some? ==> Port16(addr.value.port)
    ensures msg.Some? <==> (addr.Some? ==> |addr.value.ip| == 4 || |addr.value.ip| == 16)
    ensures ReplyAddr(addr).None? ==> msg.None?
    ensures ReplyAddr(addr).Some? ==>
              && WireOk(ReplyAddr(addr).value)
              && msg == Some([SOCKS5_VERSION, resp, 0] + Wire(ReplyAddr(addr).value, ReplyPort(addr)))
  {
    var addrType: byte, addrBody: seq<byte>, addrPort: nat := IPV4_ADDRESS, [0, 0, 0, 0], 0;
    if addr.Some? {
      addrPort := addr.value.port;
      if To4(addr.value.ip) != [] {
        addrBody := To4(addr.value.ip);
      } else if To16(addr.value.ip) != [] {
        addrType, addrBody := IPV6_ADDRESS, To16(addr.value.ip);
      } else {
        return None;
      }
    }
    var filled := FillReply(resp, addrType, addrBody, addrPort);
    assert filled == [SOCKS5_VERSION, resp, 0] + ([addrType] + addrBody + PortBytes(addrPort));
    return Some(filled);
  }

  /** Reading a reply back from its address-type byte returns the bound address, normalised;
      without one, 0.0.0.0:0. */
  lemma ReplyReadBack(resp: byte, addr: Option<AddrSpec>, rest: seq<byte>)
    requires addr.Some? ==> Port16(addr.value.port)
    requires ReplyAddr(addr).Some?
    ensures WireOk(ReplyAddr(addr).value)
    ensures var msg := [SOCKS5_VERSION, resp, 0] + Wire(ReplyAddr(addr).value, ReplyPort(addr));
            ReadAddr(msg[3..] + rest) ==
            Ok(Parsed(if addr.Some? then Normalised(addr.value) else AddrSpec([], [0, 0, 0, 0], 0), |msg| - 3))
  {
    var w, p := ReplyAddr(addr).value, ReplyPort(addr);
    var msg := [SOCKS5_VERSION, resp, 0] + Wire(w, p);
    assert msg[3..] + rest == Wire(w, p) + rest;
    ReadsWire(Wire(w, p) + rest, w, p);
  }

  // --- The reverse path's buffer ------------------------------------------------------------------------------

  // What one iteration of the reverse relay hands to the client socket.
  datatype Emission = Dropped | Sent(bytes: seq<byte>)

  /** The payload of `n` bytes was read behind the reserved front of the pooled buffer; the header
      is written right before it and one contiguous slice is sent: header then payload, always
      within bounds, never more than a datagram. */
  method EmitReverse(buf: array<byte>, n: nat, source: AddrSpec) returns (out: Emission)
    requires buf.Length == UDP_MAX_PACKET_SIZE + UDP_MAX_HEADER_LEN && n <= UDP_MAX_PACKET_SIZE && Port16(source.port)
    modifies buf
    ensures buf[UDP_MAX_HEADER_LEN..] == old(buf[UDP_MAX_HEADER_LEN..])
    ensures out.Sent? <==> Marshal(source).Header? && |Marshal(source).bytes| + n <= UDP_MAX_PACKET_SIZE
    ensures out.Sent? ==> out.bytes == Marshal(source).bytes + old(buf[UDP_MAX_HEADER_LEN..UDP_MAX_HEADER_LEN + n])
    ensures out.Sent? ==> UdpParse(out.bytes) == Ok(UdpHeader(0, Normalised(source), |out.bytes| - n))
  {
    var m := Marshal(source);
    if !m.Header? {
      return Dropped;
    }
    var header := m.bytes;
    MarshalThenParse(source, buf[UDP_MAX_HEADER_LEN..UDP_MAX_HEADER_LEN + n]);
    if |header| + n > UDP_MAX_PACKET_SIZE {
      return Dropped;
    }
    var start := UDP_MAX_HEADER_LEN - |header|;
    ghost var before := buf[..];
    CopyInto(buf, start, header);
    Placed(before, buf[..], start, header, n);
    return Sent(buf[start..UDP_MAX_HEADER_LEN + n]);
  }

  // copy(buf[start:], header)
  method CopyInto(buf: array<byte>, start: nat, header: seq<byte>)
    requires start + |header| <= buf.Length
    modifies buf
    ensures forall k :: 0 <= k < |header| ==> buf[start + k] == header[k]
    ensures forall k :: 0 <= k < buf.Length && !(start <= k < start + |header|) ==> buf[k] == old(buf[k])
  {
    for i := 0 to |header|
      invariant forall k :: 0 <= k < i ==> buf[start + k] == header[k]
      invariant forall k :: 0 <= k < buf.Length && !(start <= k < start + i) ==> buf[k] == old(buf[k])
    {
      buf[start + i] := header[i];
    }
  }

  // A header written right before a payload stands before it, and the payload is as it was.
  lemma Placed(before: seq<byte>, after: seq<byte>, start: nat, header: seq<byte>, n: nat)
    requires |after| == |before| && start + |header| + n <= |before|
    requires forall k :: 0 <= k < |header| ==> after[start + k] == header[k]
    requires forall k :: start + |header| <= k < |before| ==> after[k] == before[k]
    ensures after[start..start + |header| + n] == header + before[start + |header|..start + |header| + n]
    ensures after[start + |header|..] == before[start + |header|..]
  {
  }
}
