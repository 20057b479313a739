/**
 SOCKS5 framing: the CONNECT reply (section 6 of RFC 1928) read from a stream that arrives in
 arbitrary segments, and the UDP request header (section 7) as written and read on both platforms.
 */
module Socks5 {
  import opened Basics
  import opened ConnChains

  const VERSION: byte := 5
  const ATYP_IPV4: byte := 1
  const ATYP_DOMAIN: byte := 3
  const ATYP_IPV6: byte := 4

  // ------------------------------------------------------------------ the stream

  function Flat(segments: seq<seq<byte>>): seq<byte> {
    if segments == [] then [] else segments[0] + Flat(segments[1..])
  }

  /** A connected socket: what the peer sent and the segments in which it arrives; then it closes. */
  class Socket {
    var pending: seq<seq<byte>>

    ghost predicate Valid()
      reads this
    { forall i :: 0 <= i < |pending| ==> pending[i] != [] }

    ghost function Unread(): seq<byte>
      reads this
    { Flat(pending) }

    /** recv: at most k bytes of the next segment; none when the peer has closed. */
    method Recv(k: nat) returns (data: seq<byte>)
      requires Valid() && k > 0
      modifies this
      ensures Valid() && |data| <= k
      ensures old(Unread()) == data + Unread()
      ensures data == [] ==> old(Unread()) == []
    {
      if pending == [] {
        return [];
      }
      var seg := pending[0];
      if |seg| <= k {
        data := seg;
        pending := pending[1..];
      } else {
        data := seg[..k];
        assert seg == seg[..k] + seg[k..];
        assert ([seg[k..]] + pending[1..])[1..] == pending[1..];
        pending := [seg[k..]] + pending[1..];
      }
    }

    /** recv_n: accumulate exactly n bytes, however the stream is cut. */
    method RecvN(n: nat) returns (r: Option<seq<byte>>)
      requires Valid()
      modifies this
      ensures Valid()
      ensures |old(Unread())| >= n ==> r == Some(old(Unread())[..n]) && Unread() == old(Unread())[n..]
      ensures |old(Unread())| < n ==> r == None
    {
      var got: seq<byte> := [];
      while |got| < n
        invariant Valid() && |got| <= n && old(Unread()) == got + Unread()
        decreases n - |got|
      {
        var data := Recv(n - |got|);
        if data == [] {
          return None;
        }
        got := got + data;
      }
      r := Some(got);
    }
  }

  /** Length of the success reply at the front of a stream, if there is one. */
  function ReplyLength(s: seq<byte>): Option<nat> {
    if |s| < 4 || s[0] != VERSION || s[1] != 0 then None
    else if s[3] == ATYP_IPV4 then if |s| >= 10 then Some(10) else None
    else if s[3] == ATYP_IPV6 then if |s| >= 22 then Some(22) else None
    else if s[3] == ATYP_DOMAIN then
      if |s| >= 5 && |s| >= 5 + s[4] as int + 2 then Some(5 + s[4] as int + 2) else None
    else None
  }

  /** socks5_read_connect_reply; `reply` is the REP code, -1 if none arrived. */
  method ReadConnectReply(s: Socket) returns (ok: bool, reply: int)
    requires s.Valid()
    modifies s
    ensures s.Valid()
    ensures ok == ReplyLength(old(s.Unread())).Some?
    ensures ok ==> s.Unread() == old(s.Unread())[ReplyLength(old(s.Unread())).value..]
    ensures reply == if |old(s.Unread())| >= 4 then old(s.Unread())[1] as int else -1
  {
    ghost var all := s.Unread();
    var hdr := s.RecvN(4);
    reply := if hdr.Some? then hdr.value[1] else -1;
    if hdr.None? || hdr.value[0] != VERSION || hdr.value[1] != 0 {
      return false, reply;
    }
    var drain: nat;
    if hdr.value[3] == ATYP_IPV4 {
      drain := 4 + 2;
    } else if hdr.value[3] == ATYP_IPV6 {
      drain := 16 + 2;
    } else if hdr.value[3] == ATYP_DOMAIN {
      var dlen := s.RecvN(1);
      if dlen.None? {
        return false, reply;
      }
      drain := dlen.value[0] as int + 2;
    } else {
      return false, reply;
    }
    var scratch := s.RecvN(drain);
    ok := scratch.Some?;
  }

  datatype Bound = BoundIp(addr: Addr) | BoundName(name: seq<byte>)

  predicate WellFormed(b: Bound) {
    match b
    case BoundIp(a) => a.V6? ==> |a.bytes| == 16
    case BoundName(n) => |n| <= 255
  }

  function AddrBytes(a: Addr): seq<byte> {
    match a case V4(a, b, c, d) => [a, b, c, d] case V6(bytes) => bytes
  }

  function PortBytes(p: Port): seq<byte> { [p as int / 256, p as int % 256] }

  function PortOf(hi: byte, lo: byte): Port { hi as int * 256 + lo as int }

  /** ATYP, address and port. */
  function Endpoint(b: Bound, p: Port): seq<byte>
    requires WellFormed(b)
  {
    match b
    case BoundIp(a) => [if a.V4? then ATYP_IPV4 else ATYP_IPV6] + AddrBytes(a) + PortBytes(p)
    case BoundName(n) => [ATYP_DOMAIN] + [|n|] + n + PortBytes(p)
  }

  /** A success reply as section 6 lays it out. */
  function Reply(rsv: byte, b: Bound, p: Port): seq<byte>
    requires WellFormed(b)
  { [VERSION, 0, rsv] + Endpoint(b, p) }

  /** Every success reply, of any address type, is recognised whatever follows it in the stream. */
  lemma ReplyRecognised(rsv: byte, b: Bound, p: Port, rest: seq<byte>)
    requires WellFormed(b)
    ensures ReplyLength(Reply(rsv, b, p) + rest) == Some(|Reply(rsv, b, p)|)
    ensures (Reply(rsv, b, p) + rest)[|Reply(rsv, b, p)|..] == rest
  {
    var r := Reply(rsv, b, p);
    var s := r + rest;
    assert s[3] == Endpoint(b, p)[0];
    match b
    case BoundIp(a) =>
    case BoundName(n) => assert s[4] == |n|;
  }

  /** The handshake read: whatever the segments, the reader succeeds and leaves exactly what follows. */
  method ReadReplyThen(s: Socket, ghost rsv: byte, ghost b: Bound, ghost p: Port, ghost rest: seq<byte>) returns (ok: bool)
    requires s.Valid() && WellFormed(b) && s.Unread() == Reply(rsv, b, p) + rest
    modifies s
    ensures ok && s.Unread() == rest
  {
    ReplyRecognised(rsv, b, p, rest);
    var reply;
    ok, reply := ReadConnectReply(s);
  }

  // ------------------------------------------------------------------ UDP datagrams

  datatype Datagram = Datagram(dest: Bound, port: Port, payload: seq<byte>)

  /** The header both encoders write for an IP destination, and the macOS one for a name. */
  function Encapsulate(d: Datagram): seq<byte>
    requires WellFormed(d.dest)
  { [0, 0, 0] + Endpoint(d.dest, d.port) + d.payload }

  /** The bytes on the wire, for each address type; the port has its high octet first. */
  lemma OnTheWire(a: byte, b: byte, c: byte, d: byte, six: seq<byte>, name: seq<byte>, p: Port, payload: seq<byte>)
    requires |six| == 16 && |name| <= 255
    ensures Encapsulate(Datagram(BoundIp(V4(a, b, c, d)), p, payload)) ==
            [0, 0, 0, 1, a, b, c, d, p / 256, p % 256] + payload
    ensures Encapsulate(Datagram(BoundIp(V6(six)), p, payload)) == [0, 0, 0, 4] + six + [p / 256, p % 256] + payload
    ensures Encapsulate(Datagram(BoundName(name), p, payload)) ==
            [0, 0, 0, 3, |name|] + name + [p / 256, p % 256] + payload
    ensures Reply(0, BoundIp(V4(a, b, c, d)), p) == [5, 0, 0, 1, a, b, c, d, p / 256, p % 256]
  {
    assert [0, 0, 0] + [1] + [a, b, c, d] + [p / 256, p % 256] == [0, 0, 0, 1, a, b, c, d, p / 256, p % 256];
    assert [0, 0, 0] + ([4] + six + [p / 256, p % 256]) + payload == [0, 0, 0, 4] + six + [p / 256, p % 256] + payload;
    assert [0, 0, 0] + ([3] + [|name|] + name + [p / 256, p % 256]) + payload ==
           [0, 0, 0, 3, |name|] + name + [p / 256, p % 256] + payload;
  }

  /** So UDP to 10.0.0.1 port 443 starts with these ten bytes, and such bytes are read as that endpoint. */
  lemma Port443(payload: seq<byte>)
    ensures Encapsulate(Datagram(BoundIp(V4(10, 0, 0, 1)), 443, payload)) == [0, 0, 0, 1, 10, 0, 0, 1, 1, 187] + payload
    ensures DecodeC([0, 0, 0, 1, 10, 0, 0, 1, 1, 187] + payload) == Some(Datagram(BoundIp(V4(10, 0, 0, 1)), 443, payload))
  {
    OnTheWire(10, 0, 0, 1, seq(16, _ => 0), [], 443, payload);
    IpRoundTrip(V4(10, 0, 0, 1), 443, payload);
  }

  const MAXBUF: nat := 65535

  /** udp_relay_server's encapsulation into its send buffer; an empty payload and one that leaves no room are dropped. */
  method EncapsulateInto(buf: array<byte>, a: Addr, p: Port, payload: seq<byte>) returns (sent: bool, n: nat)
    requires (a.V6? ==> |a.bytes| == 16) && buf.Length == MAXBUF
    modifies buf
    ensures sent == (0 < |payload| <= MAXBUF - if a.V4? then 10 else 22)
    ensures sent ==> n <= buf.Length && buf[..n] == Encapsulate(Datagram(BoundIp(a), p, payload))
  {
    var header := [0, 0, 0, if a.V4? then ATYP_IPV4 else ATYP_IPV6] + AddrBytes(a) + PortBytes(p);
    n := |header| + |payload|;
    sent := |payload| > 0 && n <= MAXBUF;
    if !sent {
      return;
    }
    for i := 0 to n
      invariant forall j :: 0 <= j < i ==> buf[j] == if j < |header| then header[j] else payload[j - |header|]
    {
      buf[i] := if i < |header| then header[i] else payload[i - |header|];
    }
    ghost var whole := header + payload;
    assert buf[..n] == whole;
    assert whole == Encapsulate(Datagram(BoundIp(a), p, payload)) by {
      assert [0, 0, 0, if a.V4? then ATYP_IPV4 else ATYP_IPV6] == [0, 0, 0] + [if a.V4? then ATYP_IPV4 else ATYP_IPV6];
    }
  }

  const MAX_PAYLOAD: nat := 65507

  /** encapsulateSOCKS5UDP appends to a growing buffer; oversized payloads and names are refused. */
  method EncapsulateSwift(d: Datagram) returns (r: Option<seq<byte>>)
    requires d.dest.BoundIp? ==> WellFormed(d.dest)
    ensures r.Some? <==> |d.payload| <= MAX_PAYLOAD && WellFormed(d.dest)
    ensures r.Some? ==> r.value == Encapsulate(d)
  {
    if |d.payload| > MAX_PAYLOAD {
      return None;
    }
    var header: seq<byte> := [0, 0];
    header := header + [0];
    match d.dest {
      case BoundIp(V4(a, b, c, e)) =>
        header := header + [ATYP_IPV4];
        header := header + [a, b, c, e];
      case BoundIp(V6(bytes)) =>
        header := header + [ATYP_IPV6];
        header := header + bytes;
      case BoundName(name) =>
        if |name| > 255 {
          return None;
        }
        header := header + [ATYP_DOMAIN];
        header := header + [|name|];
        header := header + name;
    }
    header := header + [d.port as int / 256];
    header := header + [d.port as int % 256];
    assert header == [0, 0, 0] + Endpoint(d.dest, d.port);
    r := Some(header + d.payload);
  }

  /** The Windows relay's decoder: IP sources only. */
  function DecodeC(s: seq<byte>): Option<Datagram> {
    if |s| < 10 || s[2] != 0 then None
    else if s[3] == ATYP_IPV4 then
      Some(Datagram(BoundIp(V4(s[4], s[5], s[6], s[7])), PortOf(s[8], s[9]), s[10..]))
    else if s[3] == ATYP_IPV6 && |s| >= 22 then
      Some(Datagram(BoundIp(V6(s[4..20])), PortOf(s[20], s[21]), s[22..]))
    else None
  }

  /** The macOS decoder, which drops anything of ten bytes or fewer and anything without payload. */
  function DecodeSwift(s: seq<byte>): Option<Datagram> {
    if |s| <= 10 || s[2] != 0 then None
    else if s[3] == ATYP_IPV4 then
      Some(Datagram(BoundIp(V4(s[4], s[5], s[6], s[7])), PortOf(s[8], s[9]), s[10..]))
    else if s[3] == ATYP_IPV6 then
      if |s| < 22 || |s| <= 22 then None
      else Some(Datagram(BoundIp(V6(s[4..20])), PortOf(s[20], s[21]), s[22..]))
    else if s[3] == ATYP_DOMAIN then
      var n := s[4] as int;
      if |s| < 5 + n + 2 || |s| <= 5 + n + 2 then None
      else Some(Datagram(BoundName(s[5..5 + n]), PortOf(s[5 + n], s[5 + n + 1]), s[7 + n..]))
    else None
  }

  lemma PortRoundTrip(p: Port)
    ensures PortOf(PortBytes(p)[0], PortBytes(p)[1]) == p
  {
  }

  lemma IpLayout(a: Addr, p: Port, payload: seq<byte>)
    requires a.V6? ==> |a.bytes| == 16
    ensures var s := Encapsulate(Datagram(BoundIp(a), p, payload));
            var h := if a.V4? then 10 else 22;
            && |s| == h + |payload| && s[2] == 0 && s[3] == (if a.V4? then ATYP_IPV4 else ATYP_IPV6)
            && s[4..h - 2] == AddrBytes(a) && s[h - 2] == PortBytes(p)[0] && s[h - 1] == PortBytes(p)[1]
            && s[h..] == payload
  {
  }

  /** For IP destinations the Windows decoder recovers every datagram, and the macOS one every non-empty one. */
  lemma IpRoundTrip(a: Addr, p: Port, payload: seq<byte>)
    requires a.V6? ==> |a.bytes| == 16
    ensures var d := Datagram(BoundIp(a), p, payload);
            && DecodeC(Encapsulate(d)) == Some(d)
            && DecodeSwift(Encapsulate(d)) == (if payload == [] then None else Some(d))
  {
    IpLayout(a, p, payload);
    PortRoundTrip(p);
    var s := Encapsulate(Datagram(BoundIp(a), p, payload));
    if a.V4? {
      assert s[4..8] == [s[4], s[5], s[6], s[7]];
    }
  }

  /** The parts of a concatenation. */
  lemma Slices(a: seq<byte>, b: seq<byte>, c: seq<byte>, d: seq<byte>)
    ensures var s := a + b + c + d;
            && s[..|a|] == a && s[|a|..|a| + |b|] == b
            && s[|a| + |b|..|a| + |b| + |c|] == c && s[|a| + |b| + |c|..] == d
  {
  }

  lemma NameParts(name: seq<byte>, p: Port, payload: seq<byte>)
    requires |name| <= 255
    ensures Encapsulate(Datagram(BoundName(name), p, payload)) ==
            [0, 0, 0, ATYP_DOMAIN, |name|] + name + PortBytes(p) + payload
  {
    assert [0, 0, 0, ATYP_DOMAIN, |name|] == [0, 0, 0] + [ATYP_DOMAIN] + [|name|];
  }

  lemma NameLayout(name: seq<byte>, p: Port, payload: seq<byte>)
    requires |name| <= 255
    ensures var s, n := Encapsulate(Datagram(BoundName(name), p, payload)), |name|;
            && |s| == 7 + n + |payload| && s[2] == 0 && s[3] == ATYP_DOMAIN && s[4] == n
            && s[5..5 + n] == name && s[5 + n..7 + n] == PortBytes(p) && s[7 + n..] == payload
  {
    NameParts(name, p, payload);
    Slices([0, 0, 0, ATYP_DOMAIN, |name|], name, PortBytes(p), payload);
  }

  lemma PairAt(s: seq<byte>, i: nat, p: Port)
    requires i + 2 <= |s| && s[i..i + 2] == PortBytes(p)
    ensures PortOf(s[i], s[i + 1]) == p
  {
    assert s[i] == s[i..i + 2][0] && s[i + 1] == s[i..i + 2][1];
    PortRoundTrip(p);
  }

  /** A named destination comes back exactly if it has payload and the datagram is longer than ten bytes. */
  lemma NameRoundTrip(name: seq<byte>, p: Port, payload: seq<byte>)
    requires |name| <= 255
    ensures var d := Datagram(BoundName(name), p, payload);
            DecodeSwift(Encapsulate(d)) == (if payload != [] && |name| + |payload| > 3 then Some(d) else None)
  {
    var s := Encapsulate(Datagram(BoundName(name), p, payload));
    NameLayout(name, p, payload);
    DecodeNamed(s, name, p, payload);
  }

  lemma DecodeNamed(s: seq<byte>, name: seq<byte>, p: Port, payload: seq<byte>)
    requires |name| <= 255 && |s| == 7 + |name| + |payload| && s[2] == 0 && s[3] == ATYP_DOMAIN && s[4] == |name|
    requires s[5..5 + |name|] == name && s[5 + |name|..7 + |name|] == PortBytes(p) && s[7 + |name|..] == payload
    ensures DecodeSwift(s) ==
            (if payload != [] && |name| + |payload| > 3 then Some(Datagram(BoundName(name), p, payload)) else None)
  {
    PairAt(s, 5 + |name|, p);
  }
}
