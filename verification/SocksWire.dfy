/** The SOCKS5 bytes the relay and the egress exchange: UDP datagram headers (section 7 of RFC 1928) and
    the username/password message (section 2 of RFC 1929), encoders against decoders. */
module SocksWire {
  import opened Options

  newtype byte = x: int | 0 <= x < 256

  type Bytes = seq<byte>

  /** A zone-free netip.Addr. */
  datatype Addr = V4(b: Bytes) | V6(b: Bytes)

  predicate ValidAddr(a: Addr) { |a.b| == if a.V4? then 4 else 16 }

  datatype AddrPort = AddrPort(addr: Addr, port: int)

  predicate ValidAddrPort(a: AddrPort) { ValidAddr(a.addr) && 0 <= a.port < 65536 }

  function PutUint16(n: int): Bytes
    requires 0 <= n < 65536
  {
    [(n / 256) as byte, (n % 256) as byte]
  }

  function Uint16(b: Bytes): (n: int)
    requires |b| >= 2
    ensures 0 <= n < 65536
  {
    b[0] as int * 256 + b[1] as int
  }

  lemma Uint16RoundTrips(n: int, b: Bytes)
    ensures 0 <= n < 65536 ==> Uint16(PutUint16(n)) == n
    ensures |b| == 2 ==> PutUint16(Uint16(b)) == b
  {
    if |b| == 2 {
      assert Uint16(b) / 256 == b[0] as int && Uint16(b) % 256 == b[1] as int;
    }
  }

  // ---- datagrams -----------------------------------------------------------------------------

  function Atyp(a: Addr): byte { if a.V4? then 1 else 4 }

  /** RSV RSV FRAG, then the address type, address, port and payload. */
  function Encode(to: AddrPort, payload: Bytes): Bytes
    requires ValidAddrPort(to)
  {
    [0, 0, 0, Atyp(to.addr)] + to.addr.b + PutUint16(to.port) + payload
  }

  datatype Datagram = Datagram(from: AddrPort, payload: Bytes)

  datatype Split = Split(addr: Addr, rest: Bytes)

  /** splitSocks5Addr; `literal` is netip.ParseAddr on a name that is an address. */
  function SplitAddr(b: Bytes, atyp: byte, literal: Bytes -> Option<Addr>): Option<Split> {
    if atyp == 1 then (if |b| < 4 then None else Some(Split(V4(b[..4]), b[4..])))
    else if atyp == 4 then (if |b| < 16 then None else Some(Split(V6(b[..16]), b[16..])))
    else if atyp == 3 then
      if |b| < 1 || |b| < 1 + b[0] as int then None
      else
        var a := literal(b[1..1 + b[0] as int]);
        if a.None? then None else Some(Split(a.value, b[1 + b[0] as int..]))
    else None
  }

  /** receive: what the relay makes of one datagram, whatever its bytes. */
  function Receive(data: Bytes, literal: Bytes -> Option<Addr>): Option<Datagram> {
    if |data| < 4 then None
    else
      var s := SplitAddr(data[4..], data[3], literal);
      if s.None? || |s.value.rest| < 2 then None
      else Some(Datagram(AddrPort(s.value.addr, Uint16(s.value.rest[..2])), s.value.rest[2..]))
  }

  function AddrLen(atyp: byte): int { if atyp == 1 then 4 else if atyp == 4 then 16 else -1 }

  function ParseDatagramHeader(hdr: Bytes): Option<AddrPort> {
    if |hdr| < 4 then None
    else
      var body := hdr[4..];
      if hdr[3] == 1 then (if |body| < 6 then None else Some(AddrPort(V4(body[..4]), Uint16(body[4..6]))))
      else if hdr[3] == 4 then (if |body| < 18 then None else Some(AddrPort(V6(body[..16]), Uint16(body[16..18]))))
      else None
  }

  datatype DomainHeader = DomainHeader(name: Bytes, port: int, hdrLen: nat)

  function ParseDomainHeader(data: Bytes): Option<DomainHeader> {
    if |data| < 5 then None
    else
      var l := data[4] as int;
      if l == 0 || |data| < 4 + 1 + l + 2 then None
      else Some(DomainHeader(data[5..5 + l], Uint16(data[5 + l..7 + l]), 4 + 1 + l + 2))
  }

  /** What the egress does with one datagram: drop it, send it to an address, or look a name up first. */
  datatype Dispatch = Skip | ToAddr(d: Datagram) | ToName(name: Bytes, port: int, payload: Bytes)

  function DispatchDatagram(data: Bytes): Dispatch {
    if |data| < 4 then Skip
    else if data[3] == 3 then
      var h := ParseDomainHeader(data);
      if h.None? then Skip else ToName(h.value.name, h.value.port, data[h.value.hdrLen..])
    else
      var hdrLen := 4 + AddrLen(data[3]) + 2;
      if hdrLen <= 6 || |data| < hdrLen then Skip
      else
        var d := ParseDatagramHeader(data[..hdrLen]);
        if d.None? then Skip else ToAddr(Datagram(d.value, data[hdrLen..]))
  }

  lemma EncodeParts(to: AddrPort, payload: Bytes)
    requires ValidAddrPort(to)
    ensures
      var e, n := Encode(to, payload), 4 + |to.addr.b|;
      && |e| == n + 2 + |payload| && e[3] == Atyp(to.addr)
      && e[4..n] == to.addr.b && e[n..n + 2] == PutUint16(to.port) && e[n + 2..] == payload
  {
  }

  /** The relay reads back exactly what an encoder wrote: address, port and payload. */
  lemma ReceiveEncoded(to: AddrPort, payload: Bytes, literal: Bytes -> Option<Addr>)
    requires ValidAddrPort(to)
    ensures Receive(Encode(to, payload), literal) == Some(Datagram(to, payload))
  {
    var e, n := Encode(to, payload), |to.addr.b|;
    EncodeParts(to, payload);
    Uint16RoundTrips(to.port, []);
    var b := e[4..];
    assert b[..n] == e[4..4 + n] && b[n..][..2] == e[4 + n..4 + n + 2] && b[n..][2..] == e[4 + n + 2..];
  }

  lemma HeaderParses(to: AddrPort, payload: Bytes)
    requires ValidAddrPort(to)
    ensures ParseDatagramHeader(Encode(to, payload)[..6 + |to.addr.b|]) == Some(to)
  {
    var e, n := Encode(to, payload), |to.addr.b|;
    EncodeParts(to, payload);
    Uint16RoundTrips(to.port, []);
    var body := e[..6 + n][4..];
    assert body[..n] == e[4..4 + n] && body[n..n + 2] == e[4 + n..4 + n + 2];
  }

  /** So does the egress. */
  lemma DispatchEncoded(to: AddrPort, payload: Bytes)
    requires ValidAddrPort(to)
    ensures DispatchDatagram(Encode(to, payload)) == ToAddr(Datagram(to, payload))
  {
    EncodeParts(to, payload);
    HeaderParses(to, payload);
  }

  lemma SplitIsBytes(b: Bytes, atyp: byte, literal: Bytes -> Option<Addr>)
    requires (atyp == 1 || atyp == 4) && SplitAddr(b, atyp, literal).Some?
    ensures
      var s := SplitAddr(b, atyp, literal).value;
      ValidAddr(s.addr) && Atyp(s.addr) == atyp && b == s.addr.b + s.rest
  {
  }

  /** And the other way round: an address datagram the relay accepts is, reserved bytes aside, what encoding
      the result gives. */
  lemma ReceiveInverts(data: Bytes, literal: Bytes -> Option<Addr>)
    requires |data| >= 4 && data[3] != 3 && Receive(data, literal).Some?
    ensures
      var d := Receive(data, literal).value;
      ValidAddrPort(d.from) && Encode(d.from, d.payload) == [0, 0, 0] + data[3..]
  {
    SplitIsBytes(data[4..], data[3], literal);
    var s, d := SplitAddr(data[4..], data[3], literal).value, Receive(data, literal).value;
    Uint16RoundTrips(0, s.rest[..2]);
    assert s.rest == PutUint16(d.from.port) + d.payload;
    assert data[3..] == [data[3]] + data[4..];
    assert data[4..] == d.from.addr.b + (PutUint16(d.from.port) + d.payload);
  }

  /** Relay and egress agree on every datagram that carries an address. */
  lemma DecodersAgree(data: Bytes, literal: Bytes -> Option<Addr>)
    requires |data| >= 4 && data[3] != 3
    ensures
      DispatchDatagram(data) == match Receive(data, literal) case Some(d) => ToAddr(d) case None => Skip
  {
    if Receive(data, literal).Some? {
      var d := Receive(data, literal).value;
      ReceiveInverts(data, literal);
      DispatchEncoded(d.from, d.payload);
      SameFromType(data, Encode(d.from, d.payload));
    }
  }

  /** Neither decoder looks at the three reserved bytes. */
  lemma SameFromType(a: Bytes, b: Bytes)
    requires |a| == |b| >= 4 && a[3..] == b[3..] && a[3] != 3
    ensures DispatchDatagram(a) == DispatchDatagram(b)
  {
    assert a[3] == a[3..][0] == b[3];
    assert a[4..] == a[3..][1..] == b[4..];
    var n := 4 + AddrLen(a[3]) + 2;
    if n > 6 && |a| >= n {
      assert a[n..] == a[4..][n - 4..] == b[n..];
      assert a[..n][4..] == a[4..][..n - 4] == b[..n][4..];
      assert a[..n][3] == a[3] && b[..n][3] == b[3];
    }
  }

  /** A name datagram, as a SOCKS5 client writes it. */
  function EncodeName(name: Bytes, port: int, payload: Bytes): Bytes
    requires 1 <= |name| <= 255 && 0 <= port < 65536
  {
    [0, 0, 0, 3, |name| as byte] + name + PutUint16(port) + payload
  }

  lemma DispatchEncodedName(name: Bytes, port: int, payload: Bytes)
    requires 1 <= |name| <= 255 && 0 <= port < 65536
    ensures DispatchDatagram(EncodeName(name, port, payload)) == ToName(name, port, payload)
  {
    var e, l := EncodeName(name, port, payload), |name|;
    Uint16RoundTrips(port, []);
    assert e[4] as int == l;
    assert e[5..5 + l] == name && e[5 + l..7 + l] == PutUint16(port) && e[7 + l..] == payload;
  }

  /** The encoders append piece by piece. */
  method AppendDatagram(to: AddrPort, payload: Bytes) returns (hdr: Bytes)
    requires ValidAddrPort(to)
    ensures hdr == Encode(to, payload)
  {
    hdr := [0, 0, 0];
    if to.addr.V4? {
      hdr := hdr + [1];
      hdr := hdr + to.addr.b;
    } else {
      hdr := hdr + [4];
      hdr := hdr + to.addr.b;
    }
    hdr := hdr + PutUint16(to.port);
    hdr := hdr + payload;
  }

  // ---- username and password -----------------------------------------------------------------

  /** byte(len(s)): the length modulo 256. */
  function LengthByte(s: Bytes): byte { (|s| % 256) as byte }

  function EncodeAuth(user: Bytes, password: Bytes): Bytes {
    [1, LengthByte(user)] + user + [LengthByte(password)] + password
  }

  datatype Auth = Auth(user: Bytes, password: Bytes, rest: Bytes)

  /** handleConn's reads; None when the stream ends too early. The version byte is read and not looked at. */
  function DecodeAuth(stream: Bytes): Option<Auth> {
    if |stream| < 2 then None
    else
      var ulen := stream[1] as int;
      if |stream| < 2 + ulen + 1 then None
      else
        var plen, tail := stream[2 + ulen] as int, stream[3 + ulen..];
        if |tail| < plen then None else Some(Auth(stream[2..2 + ulen], tail[..plen], tail[plen..]))
  }

  /** The server reads the pair the client sent exactly when both fit their length byte. */
  lemma AuthRoundTripsIff(user: Bytes, password: Bytes, more: Bytes)
    ensures DecodeAuth(EncodeAuth(user, password) + more) == Some(Auth(user, password, more)) <==> |user| <= 255 && |password| <= 255
  {
    var s := EncodeAuth(user, password) + more;
    if |user| <= 255 {
      assert s[1] as int == |user| && s[2..2 + |user|] == user && s[2 + |user|] == LengthByte(password);
      assert s[3 + |user|..] == password + more;
    } else {
      assert s[1] == LengthByte(user) && s[1] as int < |user|;
    }
  }
}
