/**
 Admission, teardown, the pool-wide abort and the final free keep the invariant too, so it holds in
 every run.
 */
module RelayLifetime {
  import opened Basics
  import opened RelayPool
  import opened RelayInvariant
  import opened RelayList
  import RelaySteps

  /** A thread past the last reference is alone on its connection. */
  lemma Keeper(s: State, c: nat, k: nat)
    requires Inv(s) && c in s.conns && k < |s.conns[c].ending|
    ensures k == 0 && s.conns[c].ending == [s.conns[c].ending[0]] && s.conns[c].alive && Closing(s.conns[c])
    ensures !s.conns[c].fault && (c in s.list.order <==> s.conns[c].ending[0] == Unlink)
    ensures AbortOk(s.conns[c], WalkAt(s.walk, c))
    ensures FlowOk(s.conns[c].up, s.bufs.mem) && FlowOk(s.conns[c].down, s.bufs.mem)
  {
    assert ConnOk(s, c, s.conns[c]);
  }

  /** The next stage of a teardown; flows keep their history. */
  predicate Advances(conn: Conn, conn': Conn) {
    && conn'.up == conn.up.(buf := conn'.up.buf) && conn'.down == conn.down.(buf := conn'.down.buf)
    && Flags(conn') == Flags(conn) && conn'.closing == conn.closing
  }

  lemma GoneOk(f: Flow, b: Ref, mem: map<nat, seq<byte>>, mem': map<nat, seq<byte>>)
    requires FlowOk(f, mem) && f.gone && f.acts == []
    ensures FlowOk(f.(buf := b), mem')
  {
  }

  lemma AdvanceStep(s: State, c: nat, conn: Conn, bufs: Bufs)
    requires Inv(s) && c in s.conns && |s.conns[c].ending| == 1
    requires Advances(s.conns[c], conn) && Structure(conn, c in s.list.order)
    requires BufsOk(s.conns[c := conn], bufs) && OthersKept(s.bufs, bufs, c)
    ensures Inv(Put(s, c, conn).(bufs := bufs))
  {
    Keeper(s, c, 0);
    assert ConnOk(s, c, s.conns[c]);
    GoneOk(s.conns[c].up, conn.up.buf, s.bufs.mem, bufs.mem);
    GoneOk(s.conns[c].down, conn.down.buf, s.bufs.mem, bufs.mem);
    assert conn.up.acts == [] && conn.down.acts == [];
    PutKeeps(s, c, conn, bufs);
  }

  lemma StageIs(conn: Conn, next: Teardown)
    requires |conn.ending| == 1
    ensures SetStage(conn, 0, [next]) == conn.(ending := [next])
    ensures SetStage(conn, 0, []) == conn.(ending := [])
  {
    assert conn.ending[..0] + [next] + conn.ending[1..] == [next];
    assert conn.ending[..0] + [] + conn.ending[1..] == [];
  }

  lemma CloseStep(s: State, c: nat, side: Side)
    requires Inv(s) && c in s.conns && s.conns[c].ending == [if side == Client then CloseClient else CloseProxy]
    ensures Inv(Put(s, c, DoClose(s.conns[c], 0, side)))
  {
    Keeper(s, c, 0);
    var conn := s.conns[c];
    var conn' := DoClose(conn, 0, side);
    StageIs(conn.SetSock(side, conn.Sock(side).(closed := true)), if side == Client then CloseProxy else Give(Up));
    ClosedIs(conn, side);
    SameBufsKeeps(s.conns, c, conn', s.bufs);
    AdvanceStep(s, c, conn', s.bufs);
    assert Put(s, c, conn').(bufs := s.bufs) == Put(s, c, conn');
  }

  lemma ClosedIs(conn: Conn, side: Side)
    requires Closing(conn) && !conn.fault && conn.ending == [if side == Client then CloseClient else CloseProxy]
    ensures var conn' := DoClose(conn, 0, side);
            Advances(conn, conn') && Structure(conn', false) && SameBufs(conn, conn')
  {
    StageIs(conn.SetSock(side, conn.Sock(side).(closed := true)), if side == Client then CloseProxy else Give(Up));
  }

  /** The connection after dir[w] has given up its buffer. */
  function Gave(conn: Conn, w: Way, full: bool): Conn {
    var f := conn.Get(w);
    conn.Set(w, f.(buf := Nil)).(ending := [if f.buf.At? && full then Spill(w, f.buf.id) else AfterGive(w)])
  }

  lemma GiveIs(conn: Conn, w: Way, full: bool)
    requires Closing(conn) && !conn.fault && conn.ending == [Give(w)]
    ensures Advances(conn, Gave(conn, w, full)) && Structure(Gave(conn, w, full), false)
  {
  }

  lemma GiveBufs(conn: Conn, w: Way, full: bool)
    requires Closing(conn) && conn.ending == [Give(w)]
    ensures var f, conn' := conn.Get(w), Gave(conn, w, full);
            && HandOf(conn, w) == Nil && HandOf(conn', w) == (if f.buf.At? && full then f.buf else Nil)
            && Untouched(conn, conn', Other(w)) && conn'.Get(w).buf == Nil
  {
  }

  /** What the stage does to the pool. */
  lemma GiveDoes(s: State, c: nat, w: Way)
    requires c in s.conns && s.conns[c].alive && s.conns[c].ending == [Give(w)]
    ensures var b := s.conns[c].Get(w).buf;
            var s1 := Put(s, c, Gave(s.conns[c], w, |s.bufs.pool| >= POOL_KEEP));
            DoTearDown(s, c, 0) ==
            if b.Nil? then s1 else if !LockFree(s) then s else s1.(bufs := PushBuf(s.bufs, D(c, w), b.id))
  {
    var conn, f := s.conns[c], s.conns[c].Get(w);
    StageIs(conn.Set(w, f.(buf := Nil)), Gave(conn, w, |s.bufs.pool| >= POOL_KEEP).ending[0]);
    assert f.buf == Nil ==> conn.Set(w, f.(buf := Nil)) == conn;
  }

  lemma GiveStep(s: State, c: nat, w: Way)
    requires Inv(s) && c in s.conns && s.conns[c].ending == [Give(w)]
    ensures Inv(DoTearDown(s, c, 0))
  {
    Keeper(s, c, 0);
    GiveDoes(s, c, w);
    if s.conns[c].Get(w).buf.Nil? {
      NothingGiven(s, c, w, |s.bufs.pool| >= POOL_KEEP);
    } else if LockFree(s) {
      BufferGiven(s, c, w, s.conns[c].Get(w).buf.id);
    }
  }

  lemma NothingGiven(s: State, c: nat, w: Way, full: bool)
    requires Inv(s) && c in s.conns && s.conns[c].ending == [Give(w)] && s.conns[c].Get(w).buf == Nil
    ensures Inv(Put(s, c, Gave(s.conns[c], w, full)))
  {
    Keeper(s, c, 0);
    var conn' := Gave(s.conns[c], w, full);
    GiveIs(s.conns[c], w, full);
    GiveBufs(s.conns[c], w, full);
    SameBufsKeeps(s.conns, c, conn', s.bufs);
    AdvanceStep(s, c, conn', s.bufs);
    assert Put(s, c, conn').(bufs := s.bufs) == Put(s, c, conn');
  }

  lemma BufferGiven(s: State, c: nat, w: Way, b: nat)
    requires Inv(s) && c in s.conns && s.conns[c].ending == [Give(w)] && s.conns[c].Get(w).buf == At(b)
    ensures Inv(Put(s, c, Gave(s.conns[c], w, |s.bufs.pool| >= POOL_KEEP)).(bufs := PushBuf(s.bufs, D(c, w), b)))
  {
    Keeper(s, c, 0);
    var conn' := Gave(s.conns[c], w, |s.bufs.pool| >= POOL_KEEP);
    GiveIs(s.conns[c], w, |s.bufs.pool| >= POOL_KEEP);
    GiveBufs(s.conns[c], w, |s.bufs.pool| >= POOL_KEEP);
    PushKeeps(s.conns, s.bufs, c, w, conn', b);
    AdvanceStep(s, c, conn', PushBuf(s.bufs, D(c, w), b));
  }

  lemma SpillIs(conn: Conn, w: Way, b: nat)
    requires Closing(conn) && !conn.fault && conn.ending == [Spill(w, b)]
    ensures var conn' := conn.(ending := [AfterGive(w)]);
            && SetStage(conn, 0, [AfterGive(w)]) == conn'
            && Advances(conn, conn') && Structure(conn', false)
            && HandOf(conn, w) == At(b) && HandOf(conn', w) == Nil
            && Untouched(conn, conn', Other(w))
  {
    StageIs(conn, AfterGive(w));
  }

  lemma SpillStep(s: State, c: nat, w: Way, b: nat)
    requires Inv(s) && c in s.conns && s.conns[c].ending == [Spill(w, b)]
    ensures Inv(DoTearDown(s, c, 0))
  {
    Keeper(s, c, 0);
    var conn' := s.conns[c].(ending := [AfterGive(w)]);
    SpillIs(s.conns[c], w, b);
    FreeKeeps(s.conns, s.bufs, c, w, conn', b);
    AdvanceStep(s, c, conn', FreeBuf(s.bufs, b));
  }

  // ------------------------------------------------------------------ steps that change the list

  /** The list changed around connection c; the others are where they were. */
  lemma RelistKeeps(s: State, c: nat, conn: Conn, list: List)
    requires Inv(s) && c in s.conns && LockFree(s)
    requires ListOk(list) && (forall e :: e != c ==> (e in list.order <==> e in s.list.order))
    requires ConnOk(Put(s, c, conn).(list := list), c, conn) && SameBufs(s.conns[c], conn)
    requires s.aborted ==> !s.accepting && (c in list.order ==> conn.closing)
    ensures Inv(Put(s, c, conn).(list := list))
  {
    var s' := Put(s, c, conn).(list := list);
    SameBufsKeeps(s.conns, c, conn, s.bufs);
    RelistConns(s, c, conn, list);
    RelistClosing(s, c, conn, list);
    InvFrom(s');
  }

  /** Connection e is the same in both states, and so is where it stands. */
  predicate SamePlace(s: State, s': State, e: nat) {
    && e in s.conns && e in s'.conns && s'.conns[e] == s.conns[e]
    && (e in s'.list.order <==> e in s.list.order) && WalkAt(s'.walk, e) == WalkAt(s.walk, e)
  }

  ghost predicate AllConnsOk(s: State) { forall e :: e in s.conns ==> ConnOk(s, e, s.conns[e]) }

  ghost predicate AllRefsOk(s: State) {
    forall e :: e in s.conns ==> RefsOk(s.bufs, e, s.conns[e], Up) && RefsOk(s.bufs, e, s.conns[e], Down)
  }

  /** Connection c is fine; every other one is untouched by the step. */
  lemma ConnsStay(s: State, s': State, c: nat)
    requires AllConnsOk(s) && AllRefsOk(s) && OthersKept(s.bufs, s'.bufs, c) && s'.nextConn >= s.nextConn
    requires c in s'.conns && ConnOk(s', c, s'.conns[c]) && forall e :: e in s'.conns && e != c ==> SamePlace(s, s', e)
    ensures AllConnsOk(s')
  {
    forall e | e in s'.conns ensures ConnOk(s', e, s'.conns[e]) {
      if e != c {
        assert SamePlace(s, s', e);
        OtherKept(s, s', c, e);
      }
    }
  }

  lemma RelistConns(s: State, c: nat, conn: Conn, list: List)
    requires AllConnsOk(s) && AllRefsOk(s) && c in s.conns && ConnOk(Put(s, c, conn).(list := list), c, conn)
    requires forall e :: e != c ==> (e in list.order <==> e in s.list.order)
    ensures AllConnsOk(Put(s, c, conn).(list := list))
  {
    ConnsStay(s, Put(s, c, conn).(list := list), c);
  }

  lemma InvFrom(s: State)
    requires !s.fault && AllConnsOk(s) && (forall c :: c in s.list.order ==> c in s.conns)
    requires ListOk(s.list) && BufsOk(s.conns, s.bufs) && WalkOk(s)
    ensures Inv(s)
  {
  }

  lemma RelistClosing(s: State, c: nat, conn: Conn, list: List)
    requires WalkOk(s) && LockFree(s) && c in s.conns
    requires forall e :: e != c ==> (e in list.order <==> e in s.list.order)
    requires s.aborted ==> !s.accepting && (c in list.order ==> conn.closing)
    ensures WalkOk(Put(s, c, conn).(list := list))
  {
    var s' := Put(s, c, conn).(list := list);
    if s.aborted {
      forall i | 0 <= i < |list.order| ensures list.order[i] in s'.conns && s'.conns[list.order[i]].closing {
        var e := list.order[i];
        if e != c {
          assert e in s.list.order;
          var k :| 0 <= k < |s.list.order| && s.list.order[k] == e;
        }
      }
    }
  }

  lemma UnlinkedIs(conn: Conn, at: AbortAt)
    requires Closing(conn) && !conn.fault && conn.ending == [Unlink] && AbortOk(conn, at)
    ensures var conn' := conn.(ending := [CloseClient], hist := conn.hist.(unlinked := conn.hist.unlinked + 1));
            && SetStage(conn, 0, [CloseClient]).(hist := conn'.hist) == conn'
            && Structure(conn', false) && AbortOk(conn', at) && SameBufs(conn, conn')
  {
    StageIs(conn, CloseClient);
  }

  function Unlinked(conn: Conn): Conn {
    conn.(ending := [CloseClient], hist := conn.hist.(unlinked := conn.hist.unlinked + 1))
  }

  lemma UnlinkStep(s: State, c: nat)
    requires Inv(s) && c in s.conns && s.conns[c].ending == [Unlink]
    ensures Inv(DoTearDown(s, c, 0))
  {
    Keeper(s, c, 0);
    UnlinkDoes(s, c);
    if LockFree(s) { SplicedStep(s, c); }
  }

  lemma UnlinkDoes(s: State, c: nat)
    requires c in s.conns && s.conns[c].alive && s.conns[c].ending == [Unlink]
    ensures DoTearDown(s, c, 0) ==
            if LockFree(s) then Put(s, c, Unlinked(s.conns[c])).(list := UnlinkConn(s.list, c)) else s
  {
    StageIs(s.conns[c], CloseClient);
  }

  lemma SplicedStep(s: State, c: nat)
    requires Inv(s) && c in s.conns && s.conns[c].ending == [Unlink] && LockFree(s)
    ensures Inv(Put(s, c, Unlinked(s.conns[c])).(list := UnlinkConn(s.list, c)))
  {
    Keeper(s, c, 0);
    UnlinkedIs(s.conns[c], WalkAt(s.walk, c));
    UnlinkKeeps(s.list, c);
    assert ConnOk(s, c, s.conns[c]);
    RelistKeeps(s, c, Unlinked(s.conns[c]), UnlinkConn(s.list, c));
  }

  lemma FreeConnStep(s: State, c: nat)
    requires Inv(s) && c in s.conns && s.conns[c].ending == [FreeConn]
    ensures Inv(DoTearDown(s, c, 0))
  {
    Keeper(s, c, 0);
    var conn := s.conns[c];
    var conn' := DoFree(conn.(ending := []));
    StageIs(conn, FreeConn);
    var s1 := Put(s, c, conn');
    SameBufsKeeps(s.conns, c, conn', s.bufs);
    AdvanceStep(s, c, conn', s.bufs);
    assert s1.(bufs := s.bufs) == s1;
    ForgetLinks(s1, c);
  }

  /** Freeing an unlisted connection frees links nobody follows. */
  lemma ForgetLinks(s: State, c: nat)
    requires Inv(s) && c !in s.list.order
    ensures Inv(s.(list := s.list.(links := s.list.links - {c})))
  {
    var s' := s.(list := s.list.(links := s.list.links - {c}));
    forall j | 0 <= j < |s'.list.order| ensures LinkOk(s'.list, j) { assert LinkOk(s.list, j); }
    forall e | e in s'.conns ensures ConnOk(s', e, s'.conns[e]) { assert ConnOk(s, e, s.conns[e]); }
  }

  lemma TearDownStep(s: State, c: nat, k: nat)
    requires Inv(s)
    ensures Inv(DoTearDown(s, c, k))
  {
    if c in s.conns && k < |s.conns[c].ending| {
      Keeper(s, c, k);
      match s.conns[c].ending[0]
      case Unlink => UnlinkStep(s, c);
      case CloseClient => CloseStep(s, c, Client);
      case CloseProxy => CloseStep(s, c, Proxy);
      case Give(w) => GiveStep(s, c, w);
      case Spill(w, b) => SpillStep(s, c, w, b);
      case FreeConn => FreeConnStep(s, c);
    }
  }

  // ------------------------------------------------------------------ relay_start

  lemma NewConnBufs(conns: map<nat, Conn>, bufs: Bufs, c: nat)
    requires BufsOk(conns, bufs) && c !in conns
    ensures BufsOk(conns[c := NEW_CONN], bufs)
  {
    forall b | b in bufs.where ensures BufOk(conns[c := NEW_CONN], bufs, b, bufs.where[b]) {
      BufStays(conns, bufs, c, b, bufs.where[b]);
    }
    assert RefsOk(bufs, c, NEW_CONN, Up) && RefsOk(bufs, c, NEW_CONN, Down);
  }

  lemma BufStays(conns: map<nat, Conn>, bufs: Bufs, c: nat, b: nat, l: BufLoc)
    requires BufOk(conns, bufs, b, l) && c !in conns
    ensures BufOk(conns[c := NEW_CONN], bufs, b, l)
  {
  }

  function Started(s: State): State {
    s.(conns := s.conns[s.nextConn := NEW_CONN], nextConn := s.nextConn + 1, wires := s.wires[s.nextConn := SILENT])
  }

  lemma BeginStartStep(s: State)
    requires Inv(s)
    ensures Inv(Next(s, BeginStart))
  {
    StartedConns(s);
    StartedWalk(s);
    NewConnBufs(s.conns, s.bufs, s.nextConn);
    InvFrom(Started(s));
    assert Next(s, BeginStart) == Started(s);
  }

  lemma StartedConns(s: State)
    requires Inv(s)
    ensures AllConnsOk(Started(s)) && s.nextConn !in s.conns
  {
    FreshConnOk(s, Started(s));
    ConnsStay(s, Started(s), s.nextConn);
  }

  lemma StartedWalk(s: State)
    requires Inv(s)
    ensures WalkOk(Started(s))
  {
    assert s.nextConn !in s.conns;
  }

  lemma FreshConnOk(s: State, s': State)
    requires s'.nextConn == s.nextConn + 1 && s.nextConn !in s'.list.order && WalkAt(s'.walk, s.nextConn) == Cas
    ensures ConnOk(s', s.nextConn, NEW_CONN)
  {
  }

  function Refused(): Conn {
    NEW_CONN.(starting := 0, alive := false, hist := NEW_CONN.hist.(freed := 1),
              up := NEW_FLOW.(gone := true), down := NEW_FLOW.(gone := true))
  }

  function Admitted(): Conn {
    NEW_CONN.(starting := 0, up := NEW_FLOW.(acts := [Thread(GiveBuf, true)]), hist := NEW_CONN.hist.(linked := 1))
  }

  lemma NewConnOk(mem: map<nat, seq<byte>>)
    ensures Structure(Refused(), false) && Structure(Admitted(), true)
    ensures AbortOk(Refused(), Cas) && AbortOk(Admitted(), Cas)
    ensures FlowOk(Refused().up, mem) && FlowOk(Refused().down, mem)
    ensures FlowOk(Admitted().up, mem) && FlowOk(Admitted().down, mem)
    ensures SameBufs(NEW_CONN, Refused()) && SameBufs(NEW_CONN, Admitted())
  {
  }

  lemma Unpublished(s: State, c: nat)
    requires Inv(s) && c in s.conns && s.conns[c].starting != 0
    ensures s.conns[c] == NEW_CONN && c !in s.list.order && c < s.nextConn
  {
    assert ConnOk(s, c, s.conns[c]);
  }

  lemma AdmitIs(s: State, c: nat, running: bool)
    requires c in s.conns && s.conns[c] == NEW_CONN && LockFree(s)
    ensures DoAdmit(s, c, running) ==
            if !s.accepting || !running then Put(s, c, Refused())
            else Put(s, c, Admitted()).(list := LinkFirst(s.list, c))
  {
    assert [] + [Thread(GiveBuf, true)] == [Thread(GiveBuf, true)];
  }

  lemma AdmitStep(s: State, c: nat, running: bool)
    requires Inv(s)
    ensures Inv(DoAdmit(s, c, running))
  {
    if c in s.conns && s.conns[c].starting != 0 && LockFree(s) {
      Unpublished(s, c);
      AdmitIs(s, c, running);
      NewConnOk(s.bufs.mem);
      if !s.accepting || !running {
        SameBufsKeeps(s.conns, c, Refused(), s.bufs);
        PutKeeps(s, c, Refused(), s.bufs);
        assert Put(s, c, Refused()).(bufs := s.bufs) == Put(s, c, Refused());
      } else {
        LinkFirstKeeps(s.list, c);
        RelistKeeps(s, c, Admitted(), LinkFirst(s.list, c));
      }
    }
  }

  // ------------------------------------------------------------------ relay_pool_abort

  lemma BeginAbortStep(s: State)
    requires Inv(s)
    ensures Inv(DoBeginAbort(s))
  {
    var s' := DoBeginAbort(s);
    forall e | e in s'.conns ensures ConnOk(s', e, s'.conns[e]) { assert ConnOk(s, e, s.conns[e]); }
  }

  /** The walker on a connection whose last reference is already gone: nobody else is in relay_abort. */
  lemma EffectOnClosing(conn: Conn, p: AbortAt)
    requires Closing(conn) && !conn.fault && conn.ending == [Unlink] && AbortOk(conn, p)
    ensures var c' := AbortEffect(conn, p);
            && Closing(c') && !c'.fault && c'.ending == [Unlink]
            && AbortOk(c', if AbortEnds(p, conn.closing) then Cas else AbortNext(p))
  {
    assert CancelActs([], Up, Client) == [] && CancelActs([], Down, Client) == [];
    assert CancelActs([], Up, Proxy) == [] && CancelActs([], Down, Proxy) == [];
  }

  lemma WalkEffect(conn: Conn, p: AbortAt, mem: map<nat, seq<byte>>)
    requires Structure(conn, true) && AbortOk(conn, p) && FlowOk(conn.up, mem) && FlowOk(conn.down, mem)
    ensures var c' := AbortEffect(conn, p);
            && Structure(c', true) && c'.closing && SameBufs(conn, c')
            && AbortOk(c', if AbortEnds(p, conn.closing) then Cas else AbortNext(p))
            && FlowOk(c'.up, mem) && FlowOk(c'.down, mem)
  {
    RelaySteps.EffectOk(conn, p, mem);
    if Running(conn) {
      EffectAbortOk(conn, conn, p, p, if AbortEnds(p, conn.closing) then Cas else AbortNext(p));
    } else {
      EffectOnClosing(conn, p);
    }
  }

  function NextWalk(list: List, walk: Walker, closing: bool): Walker
    requires walk.Walk?
  {
    if !AbortEnds(walk.at, closing) then Walk(walk.c, AbortNext(walk.at), walk.j)
    else if walk.j + 1 < |list.order| then Walk(list.order[walk.j + 1], Cas, walk.j + 1)
    else NoWalk
  }

  /** The walker stands on a listed connection, and its link leads to the next one. */
  lemma WalkerOn(s: State)
    requires Inv(s) && s.walk.Walk?
    ensures var c, j := s.walk.c, s.walk.j;
            && c in s.conns && c in s.list.order && ConnOk(s, c, s.conns[c]) && c in s.list.links && s.conns[c].alive
            && j < |s.list.order|
            && s.list.links[c].next == (if j + 1 < |s.list.order| then At(s.list.order[j + 1]) else Nil)
  {
    assert LinkOk(s.list, s.walk.j);
    assert s.walk.c in s.list.order;
    assert ConnOk(s, s.walk.c, s.conns[s.walk.c]);
  }

  lemma WalkIs(s: State)
    requires s.walk.Walk? && s.walk.c in s.conns && s.conns[s.walk.c].alive && s.walk.c in s.list.links
    requires s.walk.j < |s.list.order|
    requires s.list.links[s.walk.c].next ==
             (if s.walk.j + 1 < |s.list.order| then At(s.list.order[s.walk.j + 1]) else Nil)
    ensures DoWalk(s) == (var walk := NextWalk(s.list, s.walk, s.conns[s.walk.c].closing);
                          Put(s, s.walk.c, AbortEffect(s.conns[s.walk.c], s.walk.at))
                            .(walk := walk, aborted := s.aborted || walk == NoWalk))
  {
  }

  lemma NextWalkAt(list: List, walk: Walker, closing: bool, e: nat)
    requires Distinct(list.order) && walk.Walk? && walk.j < |list.order| && list.order[walk.j] == walk.c
    ensures WalkAt(NextWalk(list, walk, closing), e) ==
            if e != walk.c then WalkAt(walk, e)
            else if AbortEnds(walk.at, closing) then Cas else AbortNext(walk.at)
  {
  }

  lemma WalkStep(s: State)
    requires Inv(s)
    ensures Inv(DoWalk(s))
  {
    if !LockFree(s) {
      WalkerOn(s);
      WalkIs(s);
      var c, at := s.walk.c, s.walk.at;
      var conn' := AbortEffect(s.conns[c], at);
      WalkEffect(s.conns[c], at, s.bufs.mem);
      SameBufsKeeps(s.conns, c, conn', s.bufs);
      WalkOnKeeps(s, conn');
    }
  }

  lemma WalkOnClosing(s: State, conn: Conn)
    requires WalkOk(s) && s.walk.Walk? && conn.closing
    requires forall c :: c in s.list.order ==> c in s.conns
    ensures var walk := NextWalk(s.list, s.walk, s.conns[s.walk.c].closing);
            WalkOk(Put(s, s.walk.c, conn).(walk := walk, aborted := s.aborted || walk == NoWalk))
  {
    var walk := NextWalk(s.list, s.walk, s.conns[s.walk.c].closing);
    var s' := Put(s, s.walk.c, conn).(walk := walk, aborted := s.aborted || walk == NoWalk);
    assert ClosingUpTo(s', s.walk.j + 1);
  }

  lemma WalkOnKeeps(s: State, conn: Conn)
    requires Inv(s) && s.walk.Walk? && s.walk.c in s.conns && s.walk.c in s.list.order
    requires var at, c := s.walk.at, s.walk.c;
             && Structure(conn, true) && conn.closing && BufsOk(s.conns[c := conn], s.bufs)
             && AbortOk(conn, if AbortEnds(at, s.conns[c].closing) then Cas else AbortNext(at))
             && FlowOk(conn.up, s.bufs.mem) && FlowOk(conn.down, s.bufs.mem)
    ensures var walk := NextWalk(s.list, s.walk, s.conns[s.walk.c].closing);
            Inv(Put(s, s.walk.c, conn).(walk := walk, aborted := s.aborted || walk == NoWalk))
  {
    var c := s.walk.c;
    var walk := NextWalk(s.list, s.walk, s.conns[c].closing);
    var s' := Put(s, c, conn).(walk := walk, aborted := s.aborted || walk == NoWalk);
    WalkOnClosing(s, conn);
    WalkedConns(s, conn, s');
    InvFrom(s');
  }

  lemma WalkedConns(s: State, conn: Conn, s': State)
    requires AllConnsOk(s) && AllRefsOk(s) && s.walk.Walk? && s.walk.c in s.conns && s.walk.c in s.list.order
    requires Distinct(s.list.order) && s.walk.j < |s.list.order| && s.list.order[s.walk.j] == s.walk.c
    requires s' == Put(s, s.walk.c, conn).(walk := NextWalk(s.list, s.walk, s.conns[s.walk.c].closing), aborted := s'.aborted)
    requires Structure(conn, true) && FlowOk(conn.up, s.bufs.mem) && FlowOk(conn.down, s.bufs.mem)
    requires AbortOk(conn, if AbortEnds(s.walk.at, s.conns[s.walk.c].closing) then Cas else AbortNext(s.walk.at))
    ensures AllConnsOk(s')
  {
    var c := s.walk.c;
    NextWalkAt(s.list, s.walk, s.conns[c].closing, c);
    assert ConnOk(s, c, s.conns[c]);
    forall e | e in s'.conns && e != c ensures SamePlace(s, s', e) {
      NextWalkAt(s.list, s.walk, s.conns[c].closing, e);
    }
    ConnsStay(s, s', c);
  }

  // ------------------------------------------------------------------ relay_pool_stop

  /** When the done event is set and no thread is busy, no connection is left. */
  lemma QuietIsDead(s: State, c: nat)
    requires Inv(s) && s.list.done && c in s.conns && Quiet(s.conns[c])
    ensures Dead(s.conns[c])
  {
    assert ConnOk(s, c, s.conns[c]);
  }

  lemma StopStep(s: State)
    requires Inv(s)
    ensures Inv(DoStopFree(s))
  {
    var s' := DoStopFree(s);
    forall b | b in s.bufs.pool ensures b in s.bufs.mem {
      assert BufOk(s.conns, s.bufs, b, s.bufs.where[b]);
    }
    if s' != s {
      forall c | c in s.conns ensures Dead(s.conns[c]) { QuietIsDead(s, c); }
      DrainedBufs(s.conns, s.bufs);
      forall e | e in s'.conns ensures ConnOk(s', e, s'.conns[e]) { DeadConnOk(s, s', e); }
    }
  }

  /** The buffers when those of the pool have been freed. */
  function Drained(bufs: Bufs): Bufs {
    bufs.(mem := map b | b in bufs.mem && b !in bufs.pool :: bufs.mem[b],
          where := map b | b in bufs.where :: if b in bufs.pool then Freed else bufs.where[b],
          pool := [])
  }

  lemma DrainedBufs(conns: map<nat, Conn>, bufs: Bufs)
    requires BufsOk(conns, bufs) && forall c :: c in conns ==> Dead(conns[c])
    ensures BufsOk(conns, Drained(bufs))
  {
    forall b | b in bufs.where ensures BufOk(conns, Drained(bufs), b, Drained(bufs).where[b]) {
      assert BufOk(conns, bufs, b, bufs.where[b]);
    }
  }

  lemma DeadConnOk(s: State, s': State, e: nat)
    requires e in s.conns && ConnOk(s, e, s.conns[e]) && Dead(s.conns[e])
    requires e in s'.conns && s'.conns[e] == s.conns[e] && s'.nextConn == s.nextConn
    requires s'.list.order == s.list.order && s'.walk == s.walk
    ensures ConnOk(s', e, s'.conns[e])
  {
    FlowFrame(s.conns[e].up, s.bufs.mem, s'.bufs.mem);
    FlowFrame(s.conns[e].down, s.bufs.mem, s'.bufs.mem);
  }

  // ------------------------------------------------------------------ all runs

  lemma NextKeeps(s: State, e: Step)
    requires Inv(s)
    ensures Inv(Next(s, e))
  {
    match e
    case Work(c, w, k, ok, out) => RelaySteps.WorkStep(s, c, w, k, ok, out);
    case TearDown(c, k) => TearDownStep(s, c, k);
    case BeginStart => BeginStartStep(s);
    case Admit(c, running) => AdmitStep(s, c, running);
    case BeginAbort => BeginAbortStep(s);
    case WalkOn => WalkStep(s);
    case StopFree => StopStep(s);
  }

  /** The invariant holds after every run. */
  lemma {:induction false} RunInv(es: seq<Step>)
    ensures Inv(Reach(es))
    decreases |es|
  {
    if es == [] {
    } else {
      RunInv(es[..|es| - 1]);
      NextKeeps(Reach(es[..|es| - 1]), es[|es| - 1]);
    }
  }
}
