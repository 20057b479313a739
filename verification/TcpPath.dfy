/**
 The TCP half of the packet thread: the per-port decision bits, the connection table, and the
 rewriting of addresses and ports, for IPv4 and IPv6.
 */
module TcpPath {
  import opened Basics
  import opened ConnChains
  import opened ConnSpec

  datatype Pkt = Pkt(src: Addr, sport: Port, dst: Addr, dport: Port,
                     syn: bool, ack: bool, fin: bool, rst: bool, outbound: bool)

  /** Well-formed: both addresses of one family, IPv6 ones sixteen bytes long. */
  predicate WellFormed(p: Pkt) {
    p.src.V6? == p.dst.V6? && (p.src.V6? ==> |p.src.bytes| == 16 == |p.dst.bytes|)
  }

  function LoopbackV6(): seq<byte> { [0, 0, 0, 0, 0, 0, 0, 0, 0, 0, 0, 0, 0, 0, 0, 1] }

  /** Both ends on the loopback interface: 127/8 for IPv4, ::1 for IPv6. */
  predicate BothLoopback(p: Pkt) {
    if p.src.V4? && p.dst.V4? then p.src.a == 127 && p.dst.a == 127
    else p.src == V6(LoopbackV6()) && p.dst == V6(LoopbackV6())
  }

  datatype Action = Proxy(id: nat) | Direct | Block

  /**
   What the environment contributes to one packet: whether the destination is a configured proxy
   endpoint, whether it is passed without consulting the rules (no rules and no listener, or IPv6
   multicast and link-local), the action after all overrides, and whether the owner is known.
   */
  datatype Env = Env(endpoint: bool, unruled: bool, action: Action, owned: bool, gen: int, now: nat)

  datatype State = State(table: Table, decided: set<Port>, direct: set<Port>)

  datatype Verdict = Sent(p: Pkt) | Dropped

  function TcpKey(port: Port, v6: bool): Key { Key(port, false, v6) }

  function ClearPort(s: State, p: Port): State { s.(decided := s.decided - {p}, direct := s.direct - {p}) }

  /** Swap the addresses and turn the packet inbound, unless both ends are loopback. */
  function Turn(p: Pkt): Pkt {
    if BothLoopback(p) then p else p.(src := p.dst, dst := p.src, outbound := false)
  }

  function Redirect(p: Pkt, relay: Port): Pkt { Turn(p.(dport := relay)) }

  /** reset_stale_tcp_state on a fresh SYN. */
  function Fresh(s: State, p: Pkt, relay: Port): State {
    if p.syn && !p.ack && p.sport != relay
    then ClearPort(s.(table := s.table - {TcpKey(p.sport, p.src.V6?)}), p.sport)
    else s
  }

  /** A segment from the relay to an application: restore the original source. */
  function FromRelay(s: State, p: Pkt, env: Env): (State, Verdict) {
    var key := TcpKey(p.dport, p.src.V6?);
    var p1 := if key in s.table && (p.src.V4? || s.table[key].destPort != 0)
              then p.(sport := s.table[key].destPort) else p;
    var table := Touched(s.table, key, env.now);
    var table' := if p.rst then table - {key} else if p.fin then FinMarked(table, key, false, env.now) else table;
    (s.(table := table'), Sent(Turn(p1)))
  }

  /** A segment of a tracked connection goes to the relay. */
  function Tracked(s: State, p: Pkt, relay: Port, env: Env): (State, Verdict) {
    var key := TcpKey(p.sport, p.src.V6?);
    var s1 := if p.rst then ClearPort(s.(table := s.table - {key}), p.sport)
              else if p.fin then s.(table := FinMarked(s.table, key, true, env.now))
              else s;
    (s1, Sent(Redirect(p, relay)))
  }

  /** No tracked connection: decide by the rules. */
  function Decide(s: State, p: Pkt, relay: Port, env: Env): (State, Verdict) {
    if p.fin || p.rst || env.unruled then (s, Sent(p))
    else match env.action
      case Direct =>
        (if env.owned then s.(decided := s.decided + {p.sport}, direct := s.direct + {p.sport}) else s, Sent(p))
      case Block => (s.(decided := s.decided + {p.sport}), Dropped)
      case Proxy(id) =>
        (s.(table := Added(s.table, TcpKey(p.sport, p.src.V6?), p.src, p.dst, p.dport, id, env.gen, env.now),
            decided := s.decided + {p.sport}),
         Sent(Redirect(p, relay)))
  }

  function Outbound(s: State, p: Pkt, relay: Port, env: Env): (State, Verdict) {
    if p.src.V4? && p.sport != relay && env.endpoint then (s, Sent(p))
    else
      var s1 := Fresh(s, p, relay);
      var isDirect := p.sport in s1.decided && p.sport in s1.direct;
      var s2 := if p.sport in s1.decided && (p.fin || p.rst) then ClearPort(s1, p.sport) else s1;
      if isDirect then (s2, Sent(p))
      else if p.sport == relay then FromRelay(s2, p, env)
      else if TcpKey(p.sport, p.src.V6?) in s2.table then Tracked(s2, p, relay, env)
      else Decide(s2, p, relay, env)
  }

  /** One TCP packet; inbound packets are forwarded as they are. */
  function Process(s: State, p: Pkt, relay: Port, env: Env): (State, Verdict) {
    if p.outbound then Outbound(s, p, relay, env) else (s, Sent(p))
  }

  datatype Step =
    | Packet(p: Pkt, env: Env)
    | Toggle                       // a policy toggle clears both bitmaps
    | Sweep(now: nat)              // cleanup_stale_connections
    | Touch(key: Key, now: nat)    // the relay looks the flow up
    | Udp(table: Table)            // any change to UDP entries

  predicate SameTcp(m: Table, m': Table) {
    forall k: Key | k in m.Keys + m'.Keys && !k.udp :: k in m && k in m' && m'[k] == m[k]
  }

  function Next(s: State, relay: Port, e: Step): State {
    match e
    case Packet(p, env) => Process(s, p, relay, env).0
    case Toggle => s.(decided := {}, direct := {})
    case Sweep(now) => s.(table := Swept(s.table, now))
    case Touch(key, now) => s.(table := Touched(s.table, key, now))
    case Udp(table) => if SameTcp(s.table, table) then s.(table := table) else s
  }

  const INIT := State(map[], {}, {})

  function Reach(relay: Port, es: seq<Step>): State
    decreases |es|
  { if es == [] then INIT else Next(Reach(relay, es[..|es| - 1]), relay, es[|es| - 1]) }

  // ------------------------------------------------------------------ decisions

  /** The port is not in use by a tracked connection of the other address family. */
  predicate OneFamily(s: State, e: Step, relay: Port) {
    e.Packet? && e.p.outbound && e.p.sport != relay ==> TcpKey(e.p.sport, !e.p.src.V6?) !in s.table
  }

  ghost predicate OneFamilyRun(relay: Port, es: seq<Step>)
    decreases |es|
  {
    es == [] || (OneFamilyRun(relay, es[..|es| - 1]) && OneFamily(Reach(relay, es[..|es| - 1]), es[|es| - 1], relay))
  }

  /** A direct bit implies a decided bit, the relay's own port has none, ... */
  predicate BitsOk(s: State, relay: Port) { s.direct <= s.decided && relay !in s.decided }

  /** ... and excludes a tracked connection on the port. */
  ghost predicate DirectUntracked(s: State) {
    forall p: Port, v6: bool :: p in s.direct ==> TcpKey(p, v6) !in s.table
  }

  lemma {:induction false} BitsInv(relay: Port, es: seq<Step>)
    ensures BitsOk(Reach(relay, es), relay)
    decreases |es|
  {
    if es == [] {
    } else {
      BitsInv(relay, es[..|es| - 1]);
    }
  }

  lemma {:induction false} DecisionInv(relay: Port, es: seq<Step>)
    requires OneFamilyRun(relay, es)
    ensures BitsOk(Reach(relay, es), relay) && DirectUntracked(Reach(relay, es))
    decreases |es|
  {
    if es == [] {
    } else {
      DecisionInv(relay, es[..|es| - 1]);
    }
  }

  /** A segment the tracker is meant to redirect: outbound, of a tracked connection, not a fresh SYN. */
  predicate Continues(s: State, p: Pkt, relay: Port, env: Env) {
    && p.outbound && p.sport != relay && !(p.syn && !p.ack)
    && TcpKey(p.sport, p.src.V6?) in s.table
    && (p.src.V6? || !env.endpoint)
  }

  /** In any state, such a segment is redirected exactly if the port carries no direct decision. */
  lemma RedirectedIff(s: State, p: Pkt, relay: Port, env: Env)
    requires Continues(s, p, relay, env) && WellFormed(p)
    ensures Process(s, p, relay, env).1 == Sent(Redirect(p, relay)) <==>
            !(p.sport in s.decided && p.sport in s.direct) || Redirect(p, relay) == p
  {
  }

  /** With one family per port at a time, every segment of a tracked connection goes to the relay. */
  lemma TrackedRedirected(relay: Port, es: seq<Step>, p: Pkt, env: Env)
    requires OneFamilyRun(relay, es) && Continues(Reach(relay, es), p, relay, env)
    ensures Process(Reach(relay, es), p, relay, env).1 == Sent(Redirect(p, relay))
  {
    DecisionInv(relay, es);
  }

  /** A tracked connection leaves the table only by RST, a fresh SYN on its port, or idle expiry. */
  lemma StaysTracked(s: State, e: Step, relay: Port, key: Key)
    requires key in s.table && !key.udp
    ensures || key in Next(s, relay, e).table
            || (e.Packet? && e.p.outbound && e.p.rst && (key.port == e.p.sport || (e.p.sport == relay && key.port == e.p.dport)))
            || (e.Packet? && e.p.outbound && e.p.syn && !e.p.ack && key.port == e.p.sport)
            || (e.Sweep? && !Recent(s.table[key], e.now))
  {
    if e.Sweep? { RecentIs(s.table[key], e.now); }
  }

  /** A reset from either side ends the tracking at once, and so does a fresh SYN that the rules do not proxy. */
  lemma ResetForgets(s: State, p: Pkt, relay: Port, env: Env, key: Key)
    requires key in s.table && BitsOk(s, relay) && p.outbound && !(p.src.V4? && p.sport != relay && env.endpoint)
    ensures p.sport == relay && p.rst && key == TcpKey(p.dport, p.src.V6?) ==> key !in Process(s, p, relay, env).0.table
    ensures p.sport != relay && p.rst && key == TcpKey(p.sport, p.src.V6?) && p.sport !in s.direct ==>
              key !in Process(s, p, relay, env).0.table
    ensures p.sport != relay && p.syn && !p.ack && key == TcpKey(p.sport, p.src.V6?) ==>
              (key in Process(s, p, relay, env).0.table <==> !p.fin && !p.rst && !env.unruled && env.action.Proxy?)
  {
  }

  /** None of the three events that end a tracked connection. */
  predicate Spares(s: State, e: Step, relay: Port, key: Key) {
    match e
    case Packet(p, _) =>
      p.outbound ==>
        && !(p.rst && (key.port == p.sport || (p.sport == relay && key.port == p.dport)))
        && !(p.syn && !p.ack && key.port == p.sport)
    case Sweep(now) => key in s.table ==> Recent(s.table[key], now)
    case _ => true
  }

  /**
   Half an hour, or a minute once both sides have sent their FIN, has not passed since the last activity, by
   64-bit tick counters.
   */
  predicate Recent(e: Entry, now: nat) {
    var limit := if e.fin.app && e.fin.relay then 60000 else 1800000;
    if e.last <= now then now <= e.last + limit else now + 0x1_0000_0000_0000_0000 <= e.last + limit
  }

  lemma RecentIs(e: Entry, now: nat)
    ensures Recent(e, now) <==> !Stale(e, now)
  {
  }

  ghost predicate SparesRun(relay: Port, es: seq<Step>, more: seq<Step>, key: Key)
    decreases |more|
  {
    more == [] ||
    (SparesRun(relay, es, more[..|more| - 1], key) &&
     Spares(Reach(relay, es + more[..|more| - 1]), more[|more| - 1], relay, key))
  }

  /** So a connection, once tracked, is redirected for as long as none of them happens. */
  lemma {:induction false} TrackedThroughout(relay: Port, es: seq<Step>, more: seq<Step>, p: Pkt, env: Env)
    requires OneFamilyRun(relay, es + more) && TcpKey(p.sport, p.src.V6?) in Reach(relay, es).table
    requires SparesRun(relay, es, more, TcpKey(p.sport, p.src.V6?))
    requires p.outbound && p.sport != relay && !(p.syn && !p.ack) && (p.src.V6? || !env.endpoint)
    ensures Process(Reach(relay, es + more), p, relay, env).1 == Sent(Redirect(p, relay))
  {
    StaysTrackedRun(relay, es, more, TcpKey(p.sport, p.src.V6?));
    TrackedRedirected(relay, es + more, p, env);
  }

  lemma {:induction false} StaysTrackedRun(relay: Port, es: seq<Step>, more: seq<Step>, key: Key)
    requires key in Reach(relay, es).table && !key.udp && SparesRun(relay, es, more, key)
    ensures key in Reach(relay, es + more).table
    decreases |more|
  {
    if more == [] {
      assert es + more == es;
    } else {
      var init := more[..|more| - 1];
      StaysTrackedRun(relay, es, init, key);
      assert es + more == (es + init) + [more[|more| - 1]];
      ReachSnoc(relay, es + init, more[|more| - 1]);
      StaysTracked(Reach(relay, es + init), more[|more| - 1], relay, key);
    }
  }

  lemma {:induction false} ReachSnoc(relay: Port, es: seq<Step>, e: Step)
    ensures Reach(relay, es + [e]) == Next(Reach(relay, es), relay, e)
  {
    assert (es + [e])[..|es + [e]| - 1] == es;
  }

  /**
   Without that assumption it fails: the decision bits are shared by both families, so a DIRECT verdict
   for an IPv4 connection makes a tracked IPv6 connection on the same port bypass the relay.
   */
  lemma CrossFamilyLeak(relay: Port, port: Port)
    requires relay != port
    ensures exists es: seq<Step>, p: Pkt, env: Env ::
              && Continues(Reach(relay, es), p, relay, env) && WellFormed(p)
              && Process(Reach(relay, es), p, relay, env).1 == Sent(p) && Redirect(p, relay) != p
  {
    var a6 := V6([32, 1, 0, 0, 0, 0, 0, 0, 0, 0, 0, 0, 0, 0, 0, 1]);
    var b6 := V6([32, 1, 0, 0, 0, 0, 0, 0, 0, 0, 0, 0, 0, 0, 0, 2]);
    var p6 := Pkt(a6, port, b6, 443, true, false, false, false, true);
    var p4 := Pkt(V4(10, 0, 0, 1), port, V4(10, 0, 0, 2), 80, true, false, false, false, true);
    var e1 := Packet(p6, Env(false, false, Proxy(1), true, 1, 0));
    var e2 := Packet(p4, Env(false, false, Direct, true, 1, 0));
    var q := p6.(syn := false, ack := true);
    var env := Env(false, false, Proxy(1), true, 1, 0);
    ReachSnoc(relay, [], e1);
    ReachSnoc(relay, [e1], e2);
    assert [e1] + [e2] == [e1, e2] && [] + [e1] == [e1];
    var s := Reach(relay, [e1, e2]);
    assert TcpKey(port, true) in s.table && port in s.decided && port in s.direct;
    assert a6.bytes[15] != b6.bytes[15];
    assert Continues(s, q, relay, env);
  }

  // ------------------------------------------------------------------ what leaves the machine

  predicate FreshSyn(p: Pkt) { p.syn && !p.ack }

  /** The segment is judged by the rules: it starts a connection, or its port is neither tracked nor direct. */
  predicate Judged(s: State, p: Pkt) {
    FreshSyn(p) || (TcpKey(p.sport, p.src.V6?) !in s.table && !(p.sport in s.decided && p.sport in s.direct))
  }

  /** Exactly the segments that the rules block are dropped. */
  lemma DroppedIff(s: State, p: Pkt, relay: Port, env: Env)
    ensures Process(s, p, relay, env).1 == Dropped <==>
            && p.outbound && p.sport != relay && !(p.src.V4? && env.endpoint)
            && !p.fin && !p.rst && !env.unruled && Judged(s, p) && env.action == Block
  {
  }

  /** Exactly these go to the relay: segments of a tracked connection, and what the rules proxy. */
  lemma ToRelayIff(s: State, p: Pkt, relay: Port, env: Env)
    requires p.outbound && p.sport != relay && Redirect(p, relay) != p
    ensures Process(s, p, relay, env).1 == Sent(Redirect(p, relay)) <==>
            && !(p.src.V4? && env.endpoint)
            && (|| (!FreshSyn(p) && TcpKey(p.sport, p.src.V6?) in s.table && !(p.sport in s.decided && p.sport in s.direct))
                || (Judged(s, p) && !p.fin && !p.rst && !env.unruled && env.action.Proxy?))
  {
  }

  /** Exactly these pass as they are. */
  lemma PassesIff(s: State, p: Pkt, relay: Port, env: Env)
    requires p.outbound && p.sport != relay && Redirect(p, relay) != p
    ensures Process(s, p, relay, env).1 == Sent(p) <==>
            || (p.src.V4? && env.endpoint)
            || (!FreshSyn(p) && p.sport in s.decided && p.sport in s.direct)
            || (Judged(s, p) && (p.fin || p.rst || env.unruled || env.action == Direct))
  {
  }

  /** The step is a DIRECT verdict, with a known owner, for a segment from this port. */
  predicate DecidesDirect(e: Step, relay: Port, port: Port) {
    e.Packet? && e.p.outbound && e.p.sport == port != relay && e.env.action == Direct && e.env.owned && !e.env.unruled
  }

  lemma DirectStep(s: State, e: Step, relay: Port, port: Port)
    requires port in Next(s, relay, e).direct && port !in s.direct
    ensures DecidesDirect(e, relay, port)
  {
  }

  /** A direct bit goes back to such a verdict. */
  lemma {:induction false} DirectFrom(relay: Port, es: seq<Step>, port: Port) returns (i: nat)
    requires port in Reach(relay, es).direct
    ensures i < |es| && DecidesDirect(es[i], relay, port)
    decreases |es|
  {
    var n := |es| - 1;
    if port in Reach(relay, es[..n]).direct {
      i := DirectFrom(relay, es[..n], port);
    } else {
      DirectStep(Reach(relay, es[..n]), es[n], relay, port);
      i := n;
    }
  }

  /**
   Whatever leaves with its original destination in a run had a reason to: a configured endpoint, a DIRECT
   verdict for it or earlier for its port, an end of a connection that is not tracked, or no rules to ask.
   It leaves unchanged.
   */
  lemma LeavesUnproxied(relay: Port, es: seq<Step>, p: Pkt, env: Env)
    requires p.outbound && p.sport != relay && p.dport != relay
    requires var v := Process(Reach(relay, es), p, relay, env).1; v.Sent? && v.p.dport == p.dport
    ensures Process(Reach(relay, es), p, relay, env).1 == Sent(p)
    ensures || (p.src.V4? && env.endpoint)
            || (exists i :: 0 <= i < |es| && DecidesDirect(es[i], relay, p.sport))
            || p.fin || p.rst || env.unruled || env.action == Direct
  {
    var s := Reach(relay, es);
    PassesIff(s, p, relay, env);
    if p.sport in s.direct { var i := DirectFrom(relay, es, p.sport); }
  }

  // ------------------------------------------------------------------ translation

  /** relay_peer_ok_v4 and relay_peer_ok_v6. */
  predicate PeerOk(peer: Addr, originalDest: Addr) {
    || peer == originalDest
    || match peer
       case V4(a, _, _, _) => a == 127
       case V6(bytes) =>
         || bytes == LoopbackV6()
         || (|bytes| == 16 && bytes[..12] == [0, 0, 0, 0, 0, 0, 0, 0, 0, 0, 255, 255] && bytes[12] == 127)
  }

  /** What the relay's socket sends back to whoever the redirected packet claims to be from. */
  predicate ReplyTo(reply: Pkt, redirected: Pkt, relay: Port) {
    && reply.src == redirected.dst && reply.sport == relay
    && reply.dst == redirected.src && reply.dport == redirected.sport
    && reply.outbound
  }

  /**
   Round trip: the relay accepts the redirected packet's claimed peer, and its reply reaches the
   application as coming from the original destination, whatever happened in between, as long as
   the entry still names the destination port. Port 0 is the one exception, on IPv6.
   */
  lemma RoundTrip(relay: Port, es: seq<Step>, p: Pkt, reply: Pkt, env: Env)
    requires p.outbound && relay != 0 && WellFormed(p)
    requires ReplyTo(reply, Redirect(p, relay), relay)
    requires var s := Reach(relay, es);
             TcpKey(p.sport, p.src.V6?) in s.table && s.table[TcpKey(p.sport, p.src.V6?)].destPort == p.dport
    ensures PeerOk(Redirect(p, relay).src, p.dst)
    ensures var out := Process(Reach(relay, es), reply, relay, env).1;
            && out.Sent? && out.p.src == p.dst && out.p.dst == p.src && out.p.dport == p.sport
            && (out.p.sport == p.dport <==> (p.src.V4? || p.dport != 0))
            && out.p.outbound == BothLoopback(p)
  {
    BitsInv(relay, es);
    TurnTurn(p, relay, reply);
  }

  lemma TurnTurn(p: Pkt, relay: Port, reply: Pkt)
    requires WellFormed(p) && p.outbound && ReplyTo(reply, Redirect(p, relay), relay)
    ensures BothLoopback(reply) == BothLoopback(p) && reply.src.V6? == p.src.V6?
    ensures var t := Turn(reply); t.src == p.dst && t.dst == p.src && t.dport == p.sport
  {
  }

  // ------------------------------------------------------------------ a connection from its first packet on

  /** The packet starts a connection that the rules send to a proxy. */
  predicate Starts(s: State, p: Pkt, relay: Port, env: Env) {
    && p.outbound && p.sport != relay && !p.fin && !p.rst && !env.unruled && !(p.src.V4? && env.endpoint)
    && env.action.Proxy?
    && ((p.syn && !p.ack) || (TcpKey(p.sport, p.src.V6?) !in s.table && !(p.sport in s.decided && p.sport in s.direct)))
  }

  predicate Names(s: State, key: Key, p: Pkt) {
    key in s.table && s.table[key].src == p.src && s.table[key].dest == p.dst && s.table[key].destPort == p.dport
  }

  /** It goes to the relay at once and is remembered with its endpoints. */
  lemma StartTracks(s: State, p: Pkt, relay: Port, env: Env)
    requires Starts(s, p, relay, env)
    ensures var (s', v) := Process(s, p, relay, env);
            && v == Sent(Redirect(p, relay)) && Names(s', TcpKey(p.sport, p.src.V6?), p)
            && p.sport in s'.decided && (s.direct <= s.decided ==> p.sport !in s'.direct)
    ensures var e := Process(s, p, relay, env).0.table[TcpKey(p.sport, p.src.V6?)];
            e.proxyId == env.action.id && e.fin == NO_FIN && e.last == env.now
  {
  }

  lemma EntryKept(s: State, e: Step, relay: Port, key: Key, p: Pkt)
    requires Names(s, key, p) && !key.udp && Spares(s, e, relay, key)
    ensures Names(Next(s, relay, e), key, p)
  {
    if e.Sweep? { RecentIs(s.table[key], e.now); }
  }

  lemma {:induction false} EntryKeptRun(relay: Port, es: seq<Step>, more: seq<Step>, key: Key, p: Pkt)
    requires Names(Reach(relay, es), key, p) && !key.udp && SparesRun(relay, es, more, key)
    ensures Names(Reach(relay, es + more), key, p)
    decreases |more|
  {
    if more == [] {
      assert es + more == es;
    } else {
      var init := more[..|more| - 1];
      EntryKeptRun(relay, es, init, key, p);
      assert es + more == (es + init) + [more[|more| - 1]];
      ReachSnoc(relay, es + init, more[|more| - 1]);
      EntryKept(Reach(relay, es + init), more[|more| - 1], relay, key, p);
    }
  }

  /**
   From a connection's first packet S:sp -> D:dp on, whatever else happens short of an RST, a fresh SYN on the
   port or idle expiry: the relay accepts the rewritten peer, and each reply of the relay reaches the
   application as D:dp -> S:sp.
   */
  lemma EndToEnd(relay: Port, es: seq<Step>, p: Pkt, env: Env, more: seq<Step>, reply: Pkt, env': Env)
    requires WellFormed(p) && relay != 0 && Starts(Reach(relay, es), p, relay, env)
    requires SparesRun(relay, es + [Packet(p, env)], more, TcpKey(p.sport, p.src.V6?))
    requires ReplyTo(reply, Redirect(p, relay), relay)
    ensures PeerOk(Redirect(p, relay).src, p.dst)
    ensures var out := Process(Reach(relay, es + [Packet(p, env)] + more), reply, relay, env').1;
            && out.Sent? && out.p.src == p.dst && out.p.dst == p.src && out.p.dport == p.sport
            && (out.p.sport == p.dport <==> (p.src.V4? || p.dport != 0))
  {
    StartTracks(Reach(relay, es), p, relay, env);
    ReachSnoc(relay, es, Packet(p, env));
    EntryKeptRun(relay, es + [Packet(p, env)], more, TcpKey(p.sport, p.src.V6?), p);
    RoundTrip(relay, es + [Packet(p, env)] + more, p, reply, env');
  }

  // ------------------------------------------------------------------ idle expiry

  /** What was heard of a connection since it was added: a FIN from either side, and when it was last refreshed. */
  datatype Heard = Heard(app: bool, relay: bool, last: nat)

  /**
   What one step adds. A segment of the relay refreshes the connection and may carry the relay's FIN; of the
   application's segments only a FIN does, unless the port is direct or the destination an endpoint; the
   relay's own lookup refreshes it too.
   */
  function Hears(h: Heard, s: State, e: Step, relay: Port, key: Key): Heard {
    match e
    case Packet(p, env) =>
      if !p.outbound || p.src.V6? != key.v6 then h
      else if p.sport == relay then
        if p.dport == key.port then Heard(h.app, h.relay || p.fin, env.now) else h
      else if p.sport == key.port && p.fin && !(p.src.V4? && env.endpoint) && !(p.sport in s.decided && p.sport in s.direct)
      then Heard(true, h.relay, env.now)
      else h
    case Touch(k, now) => if k == key then h.(last := now) else h
    case _ => h
  }

  /** ... over a run. */
  function HeardIn(h: Heard, relay: Port, es: seq<Step>, more: seq<Step>, key: Key): Heard
    decreases |more|
  {
    if more == [] then h
    else
      var init := more[..|more| - 1];
      Hears(HeardIn(h, relay, es, init, key), Reach(relay, es + init), more[|more| - 1], relay, key)
  }

  predicate Tells(s: State, key: Key, h: Heard) {
    key in s.table && s.table[key].fin.app == h.app && s.table[key].fin.relay == h.relay && s.table[key].last == h.last
  }

  lemma HearsStep(h: Heard, s: State, e: Step, relay: Port, key: Key)
    requires Tells(s, key, h) && !key.udp && key.port != relay && BitsOk(s, relay) && Spares(s, e, relay, key)
    ensures Tells(Next(s, relay, e), key, Hears(h, s, e, relay, key))
  {
    match e
    case Packet(p, env) =>
      if p.outbound && p.sport == relay { RelayHeard(h, s, p, relay, env, key); } else { AppHeard(h, s, p, relay, env, key); }
    case Sweep(now) => RecentIs(s.table[key], now);
    case _ =>
  }

  lemma RelayHeard(h: Heard, s: State, p: Pkt, relay: Port, env: Env, key: Key)
    requires Tells(s, key, h) && !key.udp && key.port != relay && BitsOk(s, relay)
    requires p.outbound && p.sport == relay && Spares(s, Packet(p, env), relay, key)
    ensures Tells(Process(s, p, relay, env).0, key, Hears(h, s, Packet(p, env), relay, key))
  {
    assert Fresh(s, p, relay) == s && relay !in s.decided;
  }

  lemma AppHeard(h: Heard, s: State, p: Pkt, relay: Port, env: Env, key: Key)
    requires Tells(s, key, h) && !key.udp && key.port != relay
    requires !(p.outbound && p.sport == relay) && Spares(s, Packet(p, env), relay, key)
    ensures Tells(Process(s, p, relay, env).0, key, Hears(h, s, Packet(p, env), relay, key))
  {
  }

  /** The entry records exactly that. */
  lemma {:induction false} HeardRun(h: Heard, relay: Port, es: seq<Step>, more: seq<Step>, key: Key)
    requires Tells(Reach(relay, es), key, h) && !key.udp && key.port != relay && SparesRun(relay, es, more, key)
    ensures Tells(Reach(relay, es + more), key, HeardIn(h, relay, es, more, key))
    decreases |more|
  {
    if more == [] {
      assert es + more == es;
    } else {
      var init := more[..|more| - 1];
      HeardRun(h, relay, es, init, key);
      BitsInv(relay, es + init);
      HearsStep(HeardIn(h, relay, es, init, key), Reach(relay, es + init), more[|more| - 1], relay, key);
      assert es + more == (es + init) + [more[|more| - 1]];
      ReachSnoc(relay, es + init, more[|more| - 1]);
    }
  }

  /**
   From its first packet on, through any run without RST, fresh SYN or expiry, a connection survives the next
   sweep exactly for half an hour after its last activity; for a minute, once FINs of both the application and
   the relay were seen on it.
   */
  lemma Expiry(relay: Port, es: seq<Step>, p: Pkt, env: Env, more: seq<Step>, now: nat)
    requires Starts(Reach(relay, es), p, relay, env)
    requires SparesRun(relay, es + [Packet(p, env)], more, TcpKey(p.sport, p.src.V6?))
    ensures var key := TcpKey(p.sport, p.src.V6?);
            var h := HeardIn(Heard(false, false, env.now), relay, es + [Packet(p, env)], more, key);
            h.last <= now ==>
              (key in Next(Reach(relay, es + [Packet(p, env)] + more), relay, Sweep(now)).table <==>
                 now <= h.last + if h.app && h.relay then 60000 else 1800000)
  {
    var key, all := TcpKey(p.sport, p.src.V6?), es + [Packet(p, env)];
    StartTracks(Reach(relay, es), p, relay, env);
    ReachSnoc(relay, es, Packet(p, env));
    HeardRun(Heard(false, false, env.now), relay, all, more, key);
  }

  /** A port with a DIRECT decision passes unchanged and keeps it until FIN, RST, a fresh SYN or a toggle. */
  lemma DirectPasses(s: State, p: Pkt, relay: Port, env: Env)
    requires p.outbound && p.sport != relay && p.sport in s.decided && p.sport in s.direct && !(p.syn && !p.ack)
    ensures var (s', v) := Process(s, p, relay, env);
            && v == Sent(p) && s'.table == s.table
            && (p.sport in s'.direct <==> !(p.fin || p.rst) || (p.src.V4? && env.endpoint))
  {
  }

  /**
   After a segment its port carries a direct decision exactly if the rules now decide so for a known owner,
   or it did before and the segment neither opens nor ends a connection.
   */
  lemma DirectIff(s: State, p: Pkt, relay: Port, env: Env)
    requires p.outbound && p.sport != relay && s.direct <= s.decided && !(p.src.V4? && env.endpoint)
    ensures p.sport in Process(s, p, relay, env).0.direct <==>
            && !p.fin && !p.rst
            && ((p.sport in s.direct && !FreshSyn(p)) || (Judged(s, p) && !env.unruled && env.action == Direct && env.owned))
  {
  }

  /** A toggle has every segment of a connection that is not tracked judged anew. */
  lemma ToggleForgets(s: State, relay: Port, p: Pkt)
    ensures Judged(Next(s, relay, Toggle), p) <==> FreshSyn(p) || TcpKey(p.sport, p.src.V6?) !in s.table
  {
  }

  /** Neither a toggle nor a FIN, RST or fresh SYN on the port. */
  predicate KeepsDirect(e: Step, port: Port) {
    match e
    case Toggle => false
    case Packet(p, _) => p.outbound && p.sport == port ==> !p.fin && !p.rst && !(p.syn && !p.ack)
    case _ => true
  }

  lemma StaysDirect(s: State, e: Step, relay: Port, port: Port)
    requires port in s.decided && port in s.direct && KeepsDirect(e, port)
    ensures port in Next(s, relay, e).decided && port in Next(s, relay, e).direct
  {
  }

  /** So a connection decided DIRECT is passed unchanged for as long as none of them happens. */
  lemma {:induction false} DirectThroughout(relay: Port, es: seq<Step>, more: seq<Step>, p: Pkt, env: Env)
    requires p.sport in Reach(relay, es).decided && p.sport in Reach(relay, es).direct
    requires forall i :: 0 <= i < |more| ==> KeepsDirect(more[i], p.sport)
    requires p.outbound && p.sport != relay && !(p.syn && !p.ack)
    ensures p.sport in Reach(relay, es + more).decided && p.sport in Reach(relay, es + more).direct
    ensures Process(Reach(relay, es + more), p, relay, env).1 == Sent(p)
    decreases |more|
  {
    if more == [] {
      assert es + more == es;
    } else {
      var init := more[..|more| - 1];
      DirectThroughout(relay, es, init, p, env);
      assert es + more == (es + init) + [more[|more| - 1]];
      ReachSnoc(relay, es + init, more[|more| - 1]);
      StaysDirect(Reach(relay, es + init), more[|more| - 1], relay, p.sport);
    }
    DirectPasses(Reach(relay, es + more), p, relay, env);
  }
}
