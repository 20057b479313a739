/**
 The packet thread's TCP branch in the form it has in the program: the header is rewritten in place
 while the hash chains of the tracker and the words of the bitmaps are updated. It refines
 TcpPath.Process.
 */
module TcpEngine {
  import opened Basics
  import opened ConnChains
  import opened ConnSpec
  import opened ConnTrack
  import opened PortBits
  import opened TcpPath

  /** A captured segment; addresses, ports and direction are rewritten in place. */
  class Segment {
    var src: Addr
    var sport: Port
    var dst: Addr
    var dport: Port
    var outbound: bool
    const syn: bool
    const ack: bool
    const fin: bool
    const rst: bool

    constructor (p: Pkt)
      ensures Value() == p
    {
      src, sport, dst, dport, outbound := p.src, p.sport, p.dst, p.dport, p.outbound;
      syn, ack, fin, rst := p.syn, p.ack, p.fin, p.rst;
    }

    ghost function Value(): Pkt
      reads this
    { Pkt(src, sport, dst, dport, syn, ack, fin, rst, outbound) }

    /** To the relay: rewrite the destination port and turn the segment round. */
    method ToPort(port: Port)
      modifies this
      ensures Value() == Redirect(old(Value()), port)
    {
      dport := port;
      SwapUnlessLoopback();
    }

    /** From the relay: rewrite the source port and turn the segment round. */
    method FromPort(port: Port)
      modifies this
      ensures Value() == Turn(old(Value()).(sport := port))
    {
      sport := port;
      SwapUnlessLoopback();
    }

    method SwapUnlessLoopback()
      modifies this
      ensures Value() == Turn(old(Value()))
    {
      var loopback := if src.V4? && dst.V4? then src.a == 127 && dst.a == 127
                      else src == V6(LoopbackV6()) && dst == V6(LoopbackV6());
      if !loopback {
        src, dst := dst, src;
        outbound := false;
      }
    }
  }

  /**
   The packet thread's state: the tracker's hash chains and the decision bitmaps. It refines
   TcpPath.State, whose table is the tracker's map and whose sets are the ports with a bit set.
   */
  class Engine {
    const relay: Port
    const tracker: Tracker
    const bits: Decisions

    ghost predicate Valid()
      reads tracker, tracker.fwd, tracker.fwd.heads, tracker.rev, tracker.rev.heads, tracker.fwd.nodes, tracker.rev.nodes
    { tracker.Valid() && bits.Valid() }

    ghost function Now(): TcpPath.State
      requires bits.Valid()
      reads tracker, tracker.at.Values, bits.decided, bits.direct
    { State(tracker.Table(), bits.Decided(), bits.Direct()) }

    constructor (relay: Port)
      ensures Valid() && this.relay == relay && Now() == INIT
      ensures fresh(tracker) && fresh(tracker.fwd) && fresh(tracker.fwd.heads) && fresh(tracker.rev) && fresh(tracker.rev.heads)
      ensures fresh(bits.decided) && fresh(bits.direct) && tracker.fwd.nodes == {}
    {
      this.relay := relay;
      var t := NewTracker();
      tracker := t;
      bits := new Decisions();
    }

    // ---------------------------------------------------------------- one change at a time

    /** remove_connection */
    method Forget(key: Key)
      requires Valid()
      modifies tracker, tracker.fwd, tracker.fwd.heads, tracker.rev, tracker.rev.heads, tracker.fwd.nodes
      ensures Valid() && tracker.fwd.nodes <= old(tracker.fwd.nodes)
      ensures Now() == old(Now()).(table := old(Now()).table - {key})
    { tracker.Remove(key); }

    /** connection_fin */
    method MarkFin(port: Port, v6: bool, byApp: bool, now: nat)
      requires Valid()
      modifies tracker.fwd.nodes
      ensures Valid()
      ensures Now() == old(Now()).(table := FinMarked(old(Now()).table, TcpKey(port, v6), byApp, now))
    { tracker.Fin(port, v6, byApp, now); }

    /** get_connection */
    method Lookup(key: Key, now: nat) returns (r: Option<Entry>)
      requires Valid()
      modifies tracker.fwd.nodes
      ensures Valid()
      ensures r == if key in old(Now()).table then Some(old(Now()).table[key]) else None
      ensures Now() == old(Now()).(table := Touched(old(Now()).table, key, now))
    { r := tracker.Get(key, now); }

    /** add_connection */
    method Track(key: Key, src: Addr, dest: Addr, port: Port, id: nat, gen: int, now: nat)
      requires Valid()
      modifies tracker, tracker.fwd, tracker.fwd.heads, tracker.rev, tracker.rev.heads, tracker.fwd.nodes
      ensures Valid() && fresh(tracker.fwd.nodes - old(tracker.fwd.nodes))
      ensures Now() == old(Now()).(table := Added(old(Now()).table, key, src, dest, port, id, gen, now))
    { tracker.Add(key, src, dest, port, id, gen, now); }

    /** port_clear */
    method ClearBits(p: Port)
      requires Valid()
      modifies bits.decided, bits.direct
      ensures Valid() && Now() == ClearPort(old(Now()), p)
    {
      bits.Clear(p);
      TrackerUnaffected();
    }

    /** port_set_decided */
    method SetDecided(p: Port)
      requires Valid()
      modifies bits.decided
      ensures Valid() && Now() == old(Now()).(decided := old(Now()).decided + {p})
    {
      bits.SetDecided(p);
      TrackerUnaffected();
    }

    /** port_set_direct */
    method SetDirect(p: Port)
      requires Valid()
      modifies bits.decided, bits.direct
      ensures Valid() && Now() == old(Now()).(decided := old(Now()).decided + {p}, direct := old(Now()).direct + {p})
    {
      bits.SetDirect(p);
      TrackerUnaffected();
    }

    twostate lemma TrackerUnaffected()
      requires old(Valid()) && tracker.Valid() && tracker.Table() == old(tracker.Table())
      ensures Valid() && Now().table == old(Now()).table
    {
    }

    /** RST forgets the connection, FIN is noted. */
    method NoteEnd(port: Port, v6: bool, rst: bool, fin: bool, byApp: bool, now: nat)
      requires Valid()
      modifies tracker, tracker.fwd, tracker.fwd.heads, tracker.rev, tracker.rev.heads, tracker.fwd.nodes
      ensures Valid() && tracker.fwd.nodes <= old(tracker.fwd.nodes)
      ensures var m, key := old(Now()).table, TcpKey(port, v6);
              Now() == old(Now()).(table := if rst then m - {key} else if fin then FinMarked(m, key, byApp, now) else m)
    {
      if rst {
        Forget(TcpKey(port, v6));
      } else if fin {
        MarkFin(port, v6, byApp, now);
      }
    }

    twostate lemma Unaffected()
      requires old(Valid()) && tracker.Valid() && tracker.Table() == old(tracker.Table())
      requires old(bits.decided[..]) == bits.decided[..]
      requires old(bits.direct[..]) == bits.direct[..]
      ensures Valid() && Now() == old(Now())
    {
    }

    /** Rewriting a header changes neither table nor bits. */
    method SendToRelay(seg: Segment)
      requires Valid()
      modifies seg
      ensures Valid() && Now() == old(Now()) && seg.Value() == Redirect(old(seg.Value()), relay)
    {
      seg.ToPort(relay);
      Unaffected();
    }

    method SendBack(seg: Segment, sport: Port)
      requires Valid()
      modifies seg
      ensures Valid() && Now() == old(Now()) && seg.Value() == Turn(old(seg.Value()).(sport := sport))
    {
      seg.FromPort(sport);
      Unaffected();
    }

    // ---------------------------------------------------------------- the branches

    /** One TCP segment: FALSE means it is dropped, else `seg` is what is sent. */
    method Handle(seg: Segment, env: Env) returns (sent: bool)
      requires Valid()
      modifies tracker, tracker.fwd, tracker.fwd.heads, tracker.rev, tracker.rev.heads, tracker.fwd.nodes,
               bits.decided, bits.direct, seg
      ensures Valid() && fresh(tracker.fwd.nodes - old(tracker.fwd.nodes))
      ensures var (s, v) := Process(old(Now()), old(seg.Value()), relay, env);
              Now() == s && (sent <==> v.Sent?) && (sent ==> seg.Value() == v.p)
    {
      if !seg.outbound || (seg.src.V4? && seg.sport != relay && env.endpoint) {
        return true;
      }
      ghost var s0, p := Now(), seg.Value();
      if seg.syn && !seg.ack {
        ResetStale(seg.sport, seg.src.V6?);
      }
      ghost var s1 := Now();
      assert s1 == Fresh(s0, p, relay);
      var isDirect := Consume(seg.sport, seg.fin || seg.rst);
      if isDirect {
        return true;
      }
      sent := Route(seg, env);
    }

    /** reset_stale_tcp_state */
    method ResetStale(sp: Port, v6: bool)
      requires Valid()
      modifies tracker, tracker.fwd, tracker.fwd.heads, tracker.rev, tracker.rev.heads, tracker.fwd.nodes,
               bits.decided, bits.direct
      ensures Valid() && tracker.fwd.nodes <= old(tracker.fwd.nodes)
      ensures Now() == if sp == relay then old(Now())
                       else ClearPort(old(Now()).(table := old(Now()).table - {TcpKey(sp, v6)}), sp)
    {
      if sp == relay {
        return;
      }
      Forget(TcpKey(sp, v6));
      ClearBits(sp);
    }

    /** The look at the bits: consume_direct_decision behind port_is_decided. */
    method Consume(sp: Port, teardown: bool) returns (isDirect: bool)
      requires Valid()
      modifies bits.decided, bits.direct
      ensures Valid()
      ensures isDirect == (sp in old(Now()).decided && sp in old(Now()).direct)
      ensures Now() == if sp in old(Now()).decided && teardown then ClearPort(old(Now()), sp) else old(Now())
    {
      isDirect := false;
      var decided := bits.IsDecided(sp);
      if decided {
        isDirect := bits.IsDirect(sp);
        if teardown {
          ClearBits(sp);
        }
      }
    }

    /** No direct decision: the relay's own segments, tracked ones, and new ones. */
    method Route(seg: Segment, env: Env) returns (sent: bool)
      requires Valid()
      modifies tracker, tracker.fwd, tracker.fwd.heads, tracker.rev, tracker.rev.heads, tracker.fwd.nodes,
               bits.decided, bits.direct, seg
      ensures Valid() && fresh(tracker.fwd.nodes - old(tracker.fwd.nodes))
      ensures var s, p := old(Now()), old(seg.Value());
              var (s', v) := if p.sport == relay then FromRelay(s, p, env)
                             else if TcpKey(p.sport, p.src.V6?) in s.table then Tracked(s, p, relay, env)
                             else Decide(s, p, relay, env);
              Now() == s' && (sent <==> v.Sent?) && (sent ==> seg.Value() == v.p)
    {
      if seg.sport == relay {
        RestoreSource(seg, env);
        return true;
      }
      var tracked := IsTracked(TcpKey(seg.sport, seg.src.V6?));
      assert seg.Value() == old(seg.Value());
      if tracked {
        ToRelay(seg, env);
        return true;
      }
      sent := DecideNew(seg, env);
    }

    method IsTracked(key: Key) returns (tracked: bool)
      requires Valid()
      ensures Valid() && Now() == old(Now()) && (tracked <==> key in Now().table)
    {
      tracked := tracker.IsTracked(key);
      Unaffected();
    }

    method ToRelay(seg: Segment, env: Env)
      requires Valid()
      modifies tracker, tracker.fwd, tracker.fwd.heads, tracker.rev, tracker.rev.heads, tracker.fwd.nodes,
               bits.decided, bits.direct, seg
      ensures Valid() && tracker.fwd.nodes <= old(tracker.fwd.nodes)
      ensures var (s, v) := Tracked(old(Now()), old(seg.Value()), relay, env); Now() == s && seg.Value() == v.p
    {
      NoteEnd(seg.sport, seg.src.V6?, seg.rst, seg.fin, true, env.now);
      if seg.rst {
        ClearBits(seg.sport);
      }
      SendToRelay(seg);
    }

    method RestoreSource(seg: Segment, env: Env)
      requires Valid()
      modifies tracker, tracker.fwd, tracker.fwd.heads, tracker.rev, tracker.rev.heads, tracker.fwd.nodes, seg
      ensures Valid() && tracker.fwd.nodes <= old(tracker.fwd.nodes)
      ensures var (s, v) := FromRelay(old(Now()), old(seg.Value()), env); Now() == s && seg.Value() == v.p
    {
      var port, v6 := seg.dport, seg.src.V6?;
      RestorePort(seg, env.now);
      NoteEnd(port, v6, seg.rst, seg.fin, false, env.now);
    }

    /** The original port of the connection, looked up under the application's port. */
    method RestorePort(seg: Segment, now: nat)
      requires Valid()
      modifies tracker.fwd.nodes, seg
      ensures Valid()
      ensures var s, p, key := old(Now()), old(seg.Value()), TcpKey(old(seg.dport), old(seg.src.V6?));
              && Now() == s.(table := Touched(s.table, key, now))
              && seg.Value() == Turn(if key in s.table && (p.src.V4? || s.table[key].destPort != 0)
                                     then p.(sport := s.table[key].destPort) else p)
    {
      ghost var p := seg.Value();
      var v6 := seg.src.V6?;
      var found := Lookup(TcpKey(seg.dport, v6), now);
      assert seg.Value() == p;
      SendBack(seg, if found.Some? && (!v6 || found.value.destPort != 0) then found.value.destPort else seg.sport);
    }

    method DecideNew(seg: Segment, env: Env) returns (sent: bool)
      requires Valid()
      modifies tracker, tracker.fwd, tracker.fwd.heads, tracker.rev, tracker.rev.heads, tracker.fwd.nodes,
               bits.decided, bits.direct, seg
      ensures Valid() && fresh(tracker.fwd.nodes - old(tracker.fwd.nodes))
      ensures var (s, v) := Decide(old(Now()), old(seg.Value()), relay, env);
              Now() == s && (sent <==> v.Sent?) && (sent ==> seg.Value() == v.p)
    {
      if seg.fin || seg.rst || env.unruled {
        return true;
      }
      match env.action
      case Direct =>
        if env.owned {
          SetDirect(seg.sport);
        }
        return true;
      case Block =>
        SetDecided(seg.sport);
        return false;
      case Proxy(id) =>
        StartProxy(seg, id, env);
        return true;
    }

    method StartProxy(seg: Segment, id: nat, env: Env)
      requires Valid()
      modifies tracker, tracker.fwd, tracker.fwd.heads, tracker.rev, tracker.rev.heads, tracker.fwd.nodes,
               bits.decided, bits.direct, seg
      ensures Valid() && fresh(tracker.fwd.nodes - old(tracker.fwd.nodes))
      ensures var s, p := old(Now()), old(seg.Value());
              && seg.Value() == Redirect(p, relay)
              && Now() == s.(table := Added(s.table, TcpKey(p.sport, p.src.V6?), p.src, p.dst, p.dport, id, env.gen, env.now),
                             decided := s.decided + {p.sport})
    {
      Track(TcpKey(seg.sport, seg.src.V6?), seg.src, seg.dst, seg.dport, id, env.gen, env.now);
      SetDecided(seg.sport);
      SendToRelay(seg);
    }

    /** A policy toggle. */
    method Toggle()
      requires Valid()
      modifies bits.decided, bits.direct
      ensures Valid() && Now() == Next(old(Now()), relay, TcpPath.Step.Toggle)
    {
      bits.ClearAll();
    }
  }
}
