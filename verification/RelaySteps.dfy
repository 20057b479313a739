/**
 Every step of the relay pool keeps the invariant.
 */
module RelaySteps {
  import opened Basics
  import opened RelayPool
  import opened RelayInvariant

  /** An activity exists only on a running connection, and it is the only one of its direction. */
  lemma Holder(s: State, c: nat, w: Way, k: nat)
    requires Inv(s) && c in s.conns && k < |s.conns[c].Get(w).acts|
    ensures k == 0 && |s.conns[c].Get(w).acts| == 1 && c in s.list.order && s.conns[c].alive
    ensures Good(s.conns[c], WalkAt(s.walk, c)) && !s.conns[c].Get(w).gone
    ensures FlowOk(s.conns[c].Get(w), s.bufs.mem) && FlowOk(s.conns[c].down, s.bufs.mem)
  {
    assert ConnOk(s, c, s.conns[c]);
  }

  /** The connection changed, the buffers did not. */
  lemma PutOnly(s: State, c: nat, conn: Conn)
    requires Inv(s) && c in s.conns && c in s.list.order
    requires Structure(conn, true) && AbortOk(conn, WalkAt(s.walk, c))
    requires FlowOk(conn.up, s.bufs.mem) && FlowOk(conn.down, s.bufs.mem)
    requires s.conns[c].closing ==> conn.closing
    requires SameBufs(s.conns[c], conn)
    ensures Inv(Put(s, c, conn))
  {
    assert ConnOk(s, c, s.conns[c]);
    SameBufsKeeps(s.conns, c, conn, s.bufs);
    PutKeeps(s, c, conn, s.bufs);
    assert Put(s, c, conn).(bufs := s.bufs) == Put(s, c, conn);
  }

  predicate IsTask(s: State, c: nat, w: Way, task: Task, more: bool) {
    c in s.conns && s.conns[c].Get(w).acts == [Thread(task, more)]
  }

  /** The direction goes on as g, which is again the work of one thread and changes no buffer. */
  predicate Moves(f: Flow, g: Flow) {
    && |f.acts| == 1 && |g.acts| == 1 && g.acts[0].Thread? && !g.gone
    && PosIn(f.acts) == Cas == PosIn(g.acts)
    && StartsDown(g.acts) == StartsDown(f.acts)
  }

  ghost predicate OtherDirKept(conn: Conn, w: Way, bufs: Bufs, bufs': Bufs) {
    var o := conn.Get(Other(w)).buf;
    o.At? && o.id in bufs.mem ==> o.id in bufs'.mem && bufs'.mem[o.id] == bufs.mem[o.id]
  }

  lemma MoveConnOk(s: State, c: nat, w: Way, g: Flow, bufs: Bufs)
    requires c in s.conns && ConnOk(s, c, s.conns[c]) && c in s.list.order && Good(s.conns[c], WalkAt(s.walk, c))
    requires Moves(s.conns[c].Get(w), g) && FlowOk(g, bufs.mem) && OtherDirKept(s.conns[c], w, s.bufs, bufs)
    ensures ConnOk(Put(s, c, s.conns[c].Set(w, g)).(bufs := bufs), c, s.conns[c].Set(w, g))
  {
    MoveKeeps(s.conns[c], w, g, WalkAt(s.walk, c));
    FlowFrame(s.conns[c].Get(Other(w)), s.bufs.mem, bufs.mem);
  }

  lemma MoveStep(s: State, c: nat, w: Way, g: Flow, bufs: Bufs)
    requires Inv(s) && c in s.conns && Moves(s.conns[c].Get(w), g) && FlowOk(g, bufs.mem)
    requires BufsOk(s.conns[c := s.conns[c].Set(w, g)], bufs)
    requires OthersKept(s.bufs, bufs, c) && OtherDirKept(s.conns[c], w, s.bufs, bufs)
    ensures Inv(Put(s, c, s.conns[c].Set(w, g)).(bufs := bufs))
  {
    Holder(s, c, w, 0);
    assert ConnOk(s, c, s.conns[c]);
    MoveConnOk(s, c, w, g, bufs);
    PutKeeps(s, c, s.conns[c].Set(w, g), bufs);
  }

  /** ... and changes no buffer. */
  lemma PlainMoveStep(s: State, c: nat, w: Way, g: Flow)
    requires Inv(s) && c in s.conns && Moves(s.conns[c].Get(w), g) && FlowOk(g, s.bufs.mem)
    requires SameBufs(s.conns[c], s.conns[c].Set(w, g))
    ensures Inv(Put(s, c, s.conns[c].Set(w, g)))
  {
    SameBufsKeeps(s.conns, c, s.conns[c].Set(w, g), s.bufs);
    MoveStep(s, c, w, g, s.bufs);
    assert Put(s, c, s.conns[c].Set(w, g)).(bufs := s.bufs) == Put(s, c, s.conns[c].Set(w, g));
  }

  predicate NoSpill(acts: seq<Act>) { |acts| == 1 && acts[0].Thread? ==> !acts[0].task.FreeSpill? }

  lemma HandFree(conn: Conn, w: Way, g: Flow)
    requires Running(conn) && NoSpill(conn.Get(w).acts) && NoSpill(g.acts)
    ensures HandOf(conn, w) == HandOf(conn.Set(w, g), w) == Nil
    ensures HandOf(conn, Other(w)) == HandOf(conn.Set(w, g), Other(w))
    ensures g.buf == conn.Get(w).buf ==> SameBufs(conn, conn.Set(w, g))
  {
  }

  lemma HandleStep(s: State, c: nat, w: Way, good: bool, n: nat, more: bool, ok: bool)
    requires Inv(s) && IsTask(s, c, w, Handle(good, n), more)
    ensures Inv(DoTask(s, c, w, 0, Handle(good, n), more, ok))
  {
    Holder(s, c, w, 0);
    var conn := s.conns[c];
    DispatchKeeps(conn.Get(w), good, n, more, s.bufs.mem);
    var (f, task) := Dispatch(conn.Get(w), good, n);
    var g := f.(acts := [Thread(task, more)]);
    BecomeIs(conn.Set(w, f), w, g.acts);
    HandFree(conn, w, g);
    PlainMoveStep(s, c, w, g);
  }

  /** A packet leaves the completion port. */
  lemma DequeueStep(s: State, c: nat, w: Way, good: bool, n: nat)
    requires Inv(s) && c in s.conns && s.conns[c].Get(w).acts == [Packet(good, n)]
    ensures Inv(Put(s, c, Goto(s.conns[c], w, 0, Handle(good, n), false)))
  {
    Holder(s, c, w, 0);
    var f := s.conns[c].Get(w);
    var g := f.(acts := [Thread(Handle(good, n), false)]);
    BecomeIs(s.conns[c], w, g.acts);
    HandFree(s.conns[c], w, g);
    DequeuedFlow(f, good, n, s.bufs.mem);
    PlainMoveStep(s, c, w, g);
  }

  lemma DequeuedFlow(f: Flow, good: bool, n: nat, mem: map<nat, seq<byte>>)
    requires FlowOk(f, mem) && f.acts == [Packet(good, n)] && !f.gone
    ensures var g := f.(acts := [Thread(Handle(good, n), false)]); FlowOk(g, mem) && Moves(f, g)
  {
  }

  lemma TakenIs(conn: Conn, w: Way, b: Ref, more: bool, mem: map<nat, seq<byte>>, mem': map<nat, seq<byte>>)
    requires Running(conn) && conn.Get(w).acts == [Thread(TakeBuf, more)] && FlowOk(conn.Get(w), mem)
    requires b.At? ==> b.id in mem'
    ensures var task := if b.At? then PostRead else Abort(Cas);
            var g := conn.Get(w).(buf := b, acts := [Thread(task, more)]);
            && Goto(conn.Set(w, conn.Get(w).(buf := b)), w, 0, task, more) == conn.Set(w, g)
            && Moves(conn.Get(w), g) && FlowOk(g, mem') && conn.Get(w).buf == Nil
            && HandOf(conn, w) == HandOf(conn.Set(w, g), w) == Nil
            && Untouched(conn, conn.Set(w, g), Other(w))
  {
    var task := if b.At? then PostRead else Abort(Cas);
    BecomeIs(conn.Set(w, conn.Get(w).(buf := b)), w, [Thread(task, more)]);
    HandFree(conn, w, conn.Get(w).(buf := b, acts := [Thread(task, more)]));
  }

  lemma PopMem(conns: map<nat, Conn>, bufs: Bufs, d: DirId, ok: bool)
    requires BufsOk(conns, bufs)
    ensures var (bufs', b) := PopBuf(bufs, d, ok);
            && (b.At? ==> b.id in bufs'.mem)
            && (forall x :: x in bufs.mem ==> x in bufs'.mem && bufs'.mem[x] == bufs.mem[x])
  {
    var (bufs', b) := PopBuf(bufs, d, ok);
    if b.At? && b.id in bufs.where { assert BufOk(conns, bufs, b.id, bufs.where[b.id]); }
  }

  lemma TakeBufStep(s: State, c: nat, w: Way, more: bool, ok: bool)
    requires Inv(s) && IsTask(s, c, w, TakeBuf, more)
    ensures Inv(DoTask(s, c, w, 0, TakeBuf, more, ok))
  {
    if LockFree(s) {
      var conn := s.conns[c];
      var (bufs, b) := PopBuf(s.bufs, D(c, w), ok);
      var g := conn.Get(w).(buf := b, acts := [Thread(if b.At? then PostRead else Abort(Cas), more)]);
      Holder(s, c, w, 0);
      PopMem(s.conns, s.bufs, D(c, w), ok);
      TakenIs(conn, w, b, more, s.bufs.mem, bufs.mem);
      PopKeeps(s.conns, s.bufs, c, w, conn.Set(w, g), ok);
      MoveStep(s, c, w, g, bufs);
    }
  }

  function Given(f: Flow, full: bool, more: bool): Flow {
    f.(buf := Nil, acts := [Thread(if f.buf.At? && full then FreeSpill(f.buf.id) else PostWait, more)])
  }

  lemma GivenFlow(f: Flow, full: bool, more: bool, mem: map<nat, seq<byte>>, mem': map<nat, seq<byte>>)
    requires FlowOk(f, mem) && f.acts == [Thread(GiveBuf, more)] && !f.gone
    ensures Moves(f, Given(f, full, more)) && FlowOk(Given(f, full, more), mem')
  {
  }

  lemma GivenIs(conn: Conn, w: Way, full: bool, more: bool)
    requires Running(conn) && conn.Get(w).acts == [Thread(GiveBuf, more)]
    ensures var f := conn.Get(w);
            var g := Given(f, full, more);
            && Goto(conn.Set(w, f.(buf := Nil)), w, 0, g.acts[0].task, more) == conn.Set(w, g)
            && HandOf(conn, w) == Nil && HandOf(conn.Set(w, g), w) == (if f.buf.At? && full then f.buf else Nil)
            && Untouched(conn, conn.Set(w, g), Other(w))
            && (f.buf == Nil ==> conn.Set(w, f.(buf := Nil)) == conn)
  {
    var f := conn.Get(w);
    BecomeIs(conn.Set(w, f.(buf := Nil)), w, Given(f, full, more).acts);
  }

  lemma GiveBufStep(s: State, c: nat, w: Way, more: bool, ok: bool)
    requires Inv(s) && IsTask(s, c, w, GiveBuf, more)
    ensures Inv(DoTask(s, c, w, 0, GiveBuf, more, ok))
  {
    Holder(s, c, w, 0);
    GiveBufIs(s, c, w, more, ok);
    if s.conns[c].Get(w).buf.Nil? {
      KeptStep(s, c, w, more);
    } else if LockFree(s) {
      GaveStep(s, c, w, more, s.conns[c].Get(w).buf.id);
    }
  }

  lemma GiveBufIs(s: State, c: nat, w: Way, more: bool, ok: bool)
    requires IsTask(s, c, w, GiveBuf, more) && Running(s.conns[c])
    ensures var conn, b := s.conns[c], s.conns[c].Get(w).buf;
            var s1 := Put(s, c, conn.Set(w, Given(conn.Get(w), |s.bufs.pool| >= POOL_KEEP, more)));
            DoTask(s, c, w, 0, GiveBuf, more, ok) ==
            if b.Nil? then s1 else if !LockFree(s) then s else s1.(bufs := PushBuf(s.bufs, D(c, w), b.id))
  {
    GivenIs(s.conns[c], w, |s.bufs.pool| >= POOL_KEEP, more);
  }

  lemma KeptStep(s: State, c: nat, w: Way, more: bool)
    requires Inv(s) && IsTask(s, c, w, GiveBuf, more) && s.conns[c].Get(w).buf == Nil
    ensures Inv(Put(s, c, s.conns[c].Set(w, Given(s.conns[c].Get(w), |s.bufs.pool| >= POOL_KEEP, more))))
  {
    Holder(s, c, w, 0);
    var conn := s.conns[c];
    var full := |s.bufs.pool| >= POOL_KEEP;
    GivenIs(conn, w, full, more);
    GivenFlow(conn.Get(w), full, more, s.bufs.mem, s.bufs.mem);
    PlainMoveStep(s, c, w, Given(conn.Get(w), full, more));
  }

  lemma GaveStep(s: State, c: nat, w: Way, more: bool, b: nat)
    requires Inv(s) && IsTask(s, c, w, GiveBuf, more) && s.conns[c].Get(w).buf == At(b)
    ensures Inv(Put(s, c, s.conns[c].Set(w, Given(s.conns[c].Get(w), |s.bufs.pool| >= POOL_KEEP, more)))
                  .(bufs := PushBuf(s.bufs, D(c, w), b)))
  {
    Holder(s, c, w, 0);
    var conn := s.conns[c];
    var full := |s.bufs.pool| >= POOL_KEEP;
    GivenIs(conn, w, full, more);
    GivenFlow(conn.Get(w), full, more, s.bufs.mem, s.bufs.mem);
    PushKeeps(s.conns, s.bufs, c, w, conn.Set(w, Given(conn.Get(w), full, more)), b);
    MoveStep(s, c, w, Given(conn.Get(w), full, more), PushBuf(s.bufs, D(c, w), b));
  }

  lemma FreedIs(conn: Conn, w: Way, b: nat, more: bool, mem: map<nat, seq<byte>>, mem': map<nat, seq<byte>>)
    requires Running(conn) && conn.Get(w).acts == [Thread(FreeSpill(b), more)] && FlowOk(conn.Get(w), mem)
    ensures var f := conn.Get(w);
            var g := f.(acts := [Thread(PostWait, more)]);
            && Goto(conn, w, 0, PostWait, more) == conn.Set(w, g)
            && Moves(f, g) && FlowOk(g, mem')
            && HandOf(conn, w) == At(b) && HandOf(conn.Set(w, g), w) == Nil
            && Untouched(conn, conn.Set(w, g), Other(w))
  {
    BecomeIs(conn, w, [Thread(PostWait, more)]);
  }

  lemma OwnBuf(s: State, c: nat, w: Way)
    requires Inv(s) && c in s.conns
    ensures s.conns[c].Get(w).buf.At? ==>
              BufIs(s.bufs, s.conns[c].Get(w).buf.id, Owned(D(c, w))) && s.conns[c].Get(w).buf.id in s.bufs.mem
    ensures HandOf(s.conns[c], w).At? ==>
              BufIs(s.bufs, HandOf(s.conns[c], w).id, InHand(D(c, w))) && HandOf(s.conns[c], w).id in s.bufs.mem
  {
    assert RefsOk(s.bufs, c, s.conns[c], Up) && RefsOk(s.bufs, c, s.conns[c], Down);
  }

  /** The buffer in a direction's hand is not the one its sibling owns. */
  lemma FreeOther(s: State, c: nat, w: Way, b: nat)
    requires Inv(s) && c in s.conns && HandOf(s.conns[c], w) == At(b)
    ensures OtherDirKept(s.conns[c], w, s.bufs, FreeBuf(s.bufs, b))
  {
    OwnBuf(s, c, w);
    OwnBuf(s, c, Other(w));
  }

  lemma FreeSpillStep(s: State, c: nat, w: Way, b: nat, more: bool, ok: bool)
    requires Inv(s) && IsTask(s, c, w, FreeSpill(b), more)
    ensures Inv(DoTask(s, c, w, 0, FreeSpill(b), more, ok))
  {
    Holder(s, c, w, 0);
    var conn := s.conns[c];
    FreedIs(conn, w, b, more, s.bufs.mem, FreeBuf(s.bufs, b).mem);
    var g := conn.Get(w).(acts := [Thread(PostWait, more)]);
    FreeOther(s, c, w, b);
    FreeKeeps(s.conns, s.bufs, c, w, conn.Set(w, g), b);
    assert DoTask(s, c, w, 0, FreeSpill(b), more, ok) == Put(s, c, conn.Set(w, g)).(bufs := FreeBuf(s.bufs, b));
    MoveStep(s, c, w, g, FreeBuf(s.bufs, b));
  }

  lemma PostedOk(conn: Conn, w: Way, op: Op, ok: bool, task: Task, more: bool, mem: map<nat, seq<byte>>)
    requires Running(conn) && conn.Get(w).acts == [Thread(task, more)] && PostTask(conn.Get(w), task, op)
    requires FlowOk(conn.up, mem) && FlowOk(conn.down, mem)
    ensures var c' := DoPost(conn, w, 0, op, ok, more);
            SameBufs(conn, c') && c'.closing == conn.closing && FlowOk(c'.up, mem) && FlowOk(c'.down, mem)
  {
    var f := conn.Get(w);
    PostIs(conn, w, op, ok, task, more);
    PostFlow(f, op, task, more, mem);
    if !ok || conn.Sock(Target(w, op)).shut {
      HandFree(conn, w, Posted(f, op, [Thread(Abort(Cas), more)]));
    } else if more {
      StartedOk(conn.down, mem);
      StartingBufs(conn, Posted(f, op, [Kernel(op, false)]));
    } else {
      HandFree(conn, w, Posted(f, op, [Kernel(op, false)]));
    }
  }

  lemma StartingBufs(conn: Conn, f: Flow)
    requires Running(conn) && NoSpill(conn.up.acts) && conn.down.acts == [] && NoSpill(f.acts) && f.buf == conn.up.buf
    ensures SameBufs(conn, conn.(up := f, down := conn.down.(acts := [Thread(GiveBuf, false)])))
  {
  }

  lemma StartedOk(f: Flow, mem: map<nat, seq<byte>>)
    requires FlowOk(f, mem) && f.acts == [] && !f.gone
    ensures FlowOk(f.(acts := [Thread(GiveBuf, false)]), mem)
  {
  }

  lemma PostStep(s: State, c: nat, w: Way, task: Task, op: Op, more: bool, ok: bool)
    requires Inv(s) && IsTask(s, c, w, task, more) && PostTask(s.conns[c].Get(w), task, op)
    ensures Inv(Put(s, c, DoPost(s.conns[c], w, 0, op, ok, more)))
  {
    Holder(s, c, w, 0);
    var conn := s.conns[c];
    assert ConnOk(s, c, conn);
    PostedOk(conn, w, op, ok, task, more, s.bufs.mem);
    PostKeeps(conn, w, op, ok, task, more, WalkAt(s.walk, c));
    PutOnly(s, c, DoPost(conn, w, 0, op, ok, more));
  }

  lemma HalfCloseOk(conn: Conn, w: Way, more: bool, mem: map<nat, seq<byte>>)
    requires Running(conn) && conn.Get(w).acts == [Thread(HalfClose, more)]
    requires FlowOk(conn.up, mem) && FlowOk(conn.down, mem)
    ensures var c' := DoHalfClose(conn, w, 0, more);
            SameBufs(conn, c') && c'.closing == conn.closing && FlowOk(c'.up, mem) && FlowOk(c'.down, mem)
  {
    HalfCloseIs(conn, w, more);
    var g := conn.Get(w).(eof := true, acts := [Thread(Release, more)]);
    HalfClosedFlow(conn.Get(w), more, mem);
    HandFree(conn, w, g);
    SetSwap(conn, w, g, Dst(w), conn.Sock(Dst(w)).(halfClosed := true));
    SockBufs(conn.Set(w, g), Dst(w), conn.Sock(Dst(w)).(halfClosed := true));
  }

  lemma HalfClosedFlow(f: Flow, more: bool, mem: map<nat, seq<byte>>)
    requires FlowOk(f, mem) && f.acts == [Thread(HalfClose, more)]
    ensures FlowOk(f.(eof := true, acts := [Thread(Release, more)]), mem)
  {
  }

  lemma SockBufs(conn: Conn, side: Side, k: Sock)
    ensures SameBufs(conn, conn.SetSock(side, k))
  {
  }

  lemma HalfCloseStep(s: State, c: nat, w: Way, more: bool, ok: bool)
    requires Inv(s) && IsTask(s, c, w, HalfClose, more)
    ensures Inv(DoTask(s, c, w, 0, HalfClose, more, ok))
  {
    Holder(s, c, w, 0);
    assert ConnOk(s, c, s.conns[c]);
    HalfCloseOk(s.conns[c], w, more, s.bufs.mem);
    HalfCloseKeeps(s.conns[c], w, more, WalkAt(s.walk, c));
    PutOnly(s, c, DoHalfClose(s.conns[c], w, 0, more));
  }

  lemma CancelFlow(f: Flow, w: Way, side: Side, mem: map<nat, seq<byte>>)
    requires FlowOk(f, mem) && |f.acts| <= 1
    ensures var acts := CancelActs(f.acts, w, side);
            && FlowOk(f.(acts := acts), mem) && |acts| == |f.acts|
            && (|acts| == 1 && acts[0].Thread? ==> acts == f.acts)
            && (|acts| == 1 ==> (acts[0].Thread? <==> f.acts[0].Thread?))
  {
    var acts := CancelActs(f.acts, w, side);
    if f.acts == [] {
      assert acts == f.acts;
    } else {
      var a := f.acts[0];
      assert acts == [if a.Kernel? && Target(w, a.op) == side then Kernel(a.op, true) else a];
      assert ActGap(f.(acts := acts), mem, acts[0]) by { assert ActGap(f, mem, a); }
    }
  }

  /** Cancelling marks operations in the kernel and nothing else. */
  lemma EffectOk(conn: Conn, p: AbortAt, mem: map<nat, seq<byte>>)
    requires Structure(conn, true) && FlowOk(conn.up, mem) && FlowOk(conn.down, mem)
    ensures var c' := AbortEffect(conn, p);
            SameBufs(conn, c') && (conn.closing ==> c'.closing) && FlowOk(c'.up, mem) && FlowOk(c'.down, mem)
  {
    if p == CancelClient || p == CancelProxy {
      var side := if p == CancelClient then Client else Proxy;
      CancelledOk(conn, side, mem);
      CancelEffectIs(conn, p, side);
      SockBufs(CancelIo(conn, side), side, conn.Sock(side).(cancelled := true));
    }
  }

  lemma CancelledOk(conn: Conn, side: Side, mem: map<nat, seq<byte>>)
    requires Structure(conn, true) && FlowOk(conn.up, mem) && FlowOk(conn.down, mem)
    ensures var c' := CancelIo(conn, side);
            SameBufs(conn, c') && c'.closing == conn.closing && FlowOk(c'.up, mem) && FlowOk(c'.down, mem)
  {
    CancelFlow(conn.up, Up, side, mem);
    CancelFlow(conn.down, Down, side, mem);
    CancelBufs(conn, side);
  }

  lemma CancelEffectIs(conn: Conn, p: AbortAt, side: Side)
    requires p == (if side == Client then CancelClient else CancelProxy) && !conn.Sock(side).closed
    ensures AbortEffect(conn, p) == CancelIo(conn, side).SetSock(side, conn.Sock(side).(cancelled := true))
  {
  }

  lemma CancelBufs(conn: Conn, side: Side)
    requires Structure(conn, true)
    ensures SameBufs(conn, CancelIo(conn, side))
  {
  }

  lemma AbortTaskOk(conn: Conn, w: Way, p: AbortAt, more: bool, mem: map<nat, seq<byte>>)
    requires Running(conn) && !conn.fault && conn.Get(w).acts == [Thread(Abort(p), more)]
    requires FlowOk(conn.up, mem) && FlowOk(conn.down, mem)
    ensures var c' := DoAbort(conn, w, 0, p, more);
            SameBufs(conn, c') && (conn.closing ==> c'.closing) && FlowOk(c'.up, mem) && FlowOk(c'.down, mem)
  {
    AbortIs(conn, w, p, more);
    var task := if AbortEnds(p, conn.closing) then Release else Abort(AbortNext(p));
    var c1 := conn.Set(w, conn.Get(w).(acts := [Thread(task, more)]));
    HandFree(conn, w, c1.Get(w));
    EffectOk(c1, p, mem);
  }

  lemma AbortStep(s: State, c: nat, w: Way, p: AbortAt, more: bool, ok: bool)
    requires Inv(s) && IsTask(s, c, w, Abort(p), more)
    ensures Inv(DoTask(s, c, w, 0, Abort(p), more, ok))
  {
    Holder(s, c, w, 0);
    assert ConnOk(s, c, s.conns[c]);
    AbortTaskOk(s.conns[c], w, p, more, s.bufs.mem);
    AbortKeeps(s.conns[c], w, p, more, WalkAt(s.walk, c));
    PutOnly(s, c, DoAbort(s.conns[c], w, 0, p, more));
  }

  lemma ReleaseOk(conn: Conn, w: Way, more: bool, mem: map<nat, seq<byte>>)
    requires Running(conn) && conn.Get(w).acts == [Thread(Release, more)]
    requires FlowOk(conn.up, mem) && FlowOk(conn.down, mem)
    ensures var c' := DoRelease(conn, w, 0, more);
            SameBufs(conn, c') && c'.closing == conn.closing && FlowOk(c'.up, mem) && FlowOk(c'.down, mem)
  {
    ReleaseIs(conn, w, more);
    var f := conn.Get(w).(gone := true, acts := []);
    EndedOk(conn.Get(w), more, mem);
    if more {
      StartedOk(conn.down, mem);
      StartedBufs(conn, f);
    } else {
      EndedBufs(conn, w, f);
    }
  }

  lemma EndedOk(f: Flow, more: bool, mem: map<nat, seq<byte>>)
    requires FlowOk(f, mem) && f.acts == [Thread(Release, more)]
    ensures FlowOk(f.(gone := true, acts := []), mem)
  {
  }

  lemma EndedBufs(conn: Conn, w: Way, f: Flow)
    requires Running(conn) && NoSpill(conn.Get(w).acts) && f.acts == [] && f.buf == conn.Get(w).buf
    ensures SameBufs(conn, conn.Set(w, f).(refs := 0, ending := [Unlink])) && SameBufs(conn, conn.Set(w, f).(refs := 1))
  {
  }

  lemma StartedBufs(conn: Conn, f: Flow)
    requires Running(conn) && NoSpill(conn.up.acts) && conn.down.acts == [] && f.acts == [] && f.buf == conn.up.buf
    ensures SameBufs(conn, conn.(up := f, down := conn.down.(acts := [Thread(GiveBuf, false)]), refs := 1))
  {
  }

  lemma ReleaseStep(s: State, c: nat, w: Way, more: bool, ok: bool)
    requires Inv(s) && IsTask(s, c, w, Release, more)
    ensures Inv(DoTask(s, c, w, 0, Release, more, ok))
  {
    Holder(s, c, w, 0);
    assert ConnOk(s, c, s.conns[c]);
    ReleaseOk(s.conns[c], w, more, s.bufs.mem);
    ReleaseKeeps(s.conns[c], w, more, WalkAt(s.walk, c));
    PutOnly(s, c, DoRelease(s.conns[c], w, 0, more));
  }

  // ------------------------------------------------------------------ the kernel

  /** The direction when its operation has completed: bytes read or sent now, a packet in the port. */
  lemma CompletedOk(conn: Conn, w: Way, g: Flow, at: AbortAt)
    requires Good(conn, at) && Done(conn.Get(w), g)
    ensures Good(conn.Set(w, g), at) && SameBufs(conn, conn.Set(w, g))
  {
    MoveKeeps(conn, w, g, at);
  }

  /** g is f with its operation completed: a packet instead, the same buffer. */
  predicate Done(f: Flow, g: Flow) {
    && |f.acts| == 1 && f.acts[0].Kernel? && |g.acts| == 1 && g.acts[0].Packet? && !g.gone && g.buf == f.buf
  }

  lemma CompleteWith(s: State, c: nat, w: Way, g: Flow, bufs: Bufs)
    requires Inv(s) && c in s.conns && Done(s.conns[c].Get(w), g)
    requires FlowOk(g, bufs.mem) && OtherDirKept(s.conns[c], w, s.bufs, bufs) && OthersKept(s.bufs, bufs, c)
    requires BufsOk(s.conns[c := s.conns[c].Set(w, g)], bufs)
    ensures Inv(Put(s, c, s.conns[c].Set(w, g)).(bufs := bufs))
  {
    Holder(s, c, w, 0);
    var conn := s.conns[c];
    assert ConnOk(s, c, conn);
    CompletedOk(conn, w, g, WalkAt(s.walk, c));
    FlowFrame(conn.Get(Other(w)), s.bufs.mem, bufs.mem);
    PutKeeps(s, c, conn.Set(w, g), bufs);
  }

  function AfterRead(f: Flow, out: Outcome): Flow {
    f.(read := if out.Fine? then f.read + out.data else f.read,
       acts := [Packet(out.Fine?, if out.Fine? then |out.data| else 0)])
  }

  lemma ReadFlow(f: Flow, b: nat, cancelled: bool, out: Outcome, mem: map<nat, seq<byte>>)
    requires FlowOk(f, mem) && f.acts == [Kernel(OpRead(b), cancelled)] && !f.gone
    ensures FlowOk(AfterRead(f, out), mem[b := out.data]) && f.buf == At(b) && Done(f, AfterRead(f, out))
  {
    assert out.data[0..|out.data|] == out.data;
  }

  lemma ReadIs(s: State, c: nat, w: Way, b: nat, out: Outcome)
    requires c in s.conns && |s.conns[c].Get(w).acts| == 1 && b in s.bufs.mem && |out.data| <= BUF_SIZE
    ensures DoComplete(s, c, w, 0, OpRead(b), out) ==
            Put(s, c, s.conns[c].Set(w, AfterRead(s.conns[c].Get(w), out))).(bufs := s.bufs.(mem := s.bufs.mem[b := out.data]))
  {
    var conn := s.conns[c];
    var g := AfterRead(conn.Get(w), out);
    BecomeIs(conn.Set(w, conn.Get(w).(read := g.read)), w, g.acts);
    BecomeIs(conn, w, g.acts);
  }

  lemma ReadStep(s: State, c: nat, w: Way, b: nat, cancelled: bool, out: Outcome)
    requires Inv(s) && c in s.conns && s.conns[c].Get(w).acts == [Kernel(OpRead(b), cancelled)]
    ensures Inv(DoComplete(s, c, w, 0, OpRead(b), out))
  {
    Holder(s, c, w, 0);
    var f := s.conns[c].Get(w);
    ReadFlow(f, b, cancelled, out, s.bufs.mem);
    ReadInto(s, c, w, b);
    if |out.data| <= BUF_SIZE {
      ReadIs(s, c, w, b, out);
      FillStep(s, c, w, b, AfterRead(f, out), out.data);
    }
  }

  lemma ReadInto(s: State, c: nat, w: Way, b: nat)
    requires Inv(s) && c in s.conns && s.conns[c].Get(w).buf == At(b)
    ensures b in s.bufs.mem && s.conns[c].Get(Other(w)).buf != At(b)
  {
    OwnBuf(s, c, w);
    OwnBuf(s, c, Other(w));
  }

  /** A read fills the direction's buffer. */
  lemma FillStep(s: State, c: nat, w: Way, b: nat, g: Flow, data: seq<byte>)
    requires Inv(s) && c in s.conns && Done(s.conns[c].Get(w), g) && FlowOk(g, s.bufs.mem[b := data])
    requires g.buf == At(b) && b in s.bufs.mem && s.conns[c].Get(Other(w)).buf != At(b)
    ensures Inv(Put(s, c, s.conns[c].Set(w, g)).(bufs := s.bufs.(mem := s.bufs.mem[b := data])))
  {
    Holder(s, c, w, 0);
    CompletedOk(s.conns[c], w, g, WalkAt(s.walk, c));
    WriteKeeps(s.conns, s.bufs, c, w, s.conns[c].Set(w, g), b, data);
    CompleteWith(s, c, w, g, s.bufs.(mem := s.bufs.mem[b := data]));
  }

  function AfterSend(f: Flow, bytes: seq<byte>, fine: bool, n: nat): Flow {
    f.(sent := f.sent + bytes, acts := [Packet(fine, n)])
  }

  lemma SendRange(f: Flow, b: nat, off: nat, len: nat, cancelled: bool, mem: map<nat, seq<byte>>)
    requires FlowOk(f, mem) && f.acts == [Kernel(OpSend(b, off, len), cancelled)]
    ensures b in mem && off <= len <= |mem[b]|
  {
  }

  lemma SendFlow(f: Flow, b: nat, off: nat, len: nat, cancelled: bool, fine: bool, n: nat, mem: map<nat, seq<byte>>)
    requires FlowOk(f, mem) && f.acts == [Kernel(OpSend(b, off, len), cancelled)] && n <= len - off && !f.gone
    requires b in mem && off <= len <= |mem[b]|
    ensures var g := AfterSend(f, mem[b][off..off + n], fine, n); FlowOk(g, mem) && Done(f, g)
  {
    assert mem[b][off..len] == mem[b][off..off + n] + mem[b][off + n..len];
    assert f.read == (f.sent + mem[b][off..off + n]) + mem[b][off + n..len];
  }

  lemma SendIs(s: State, c: nat, w: Way, b: nat, off: nat, len: nat, out: Outcome)
    requires c in s.conns && |s.conns[c].Get(w).acts| == 1
    requires b in s.bufs.mem && off <= len <= |s.bufs.mem[b]| && out.n <= len - off
    ensures DoComplete(s, c, w, 0, OpSend(b, off, len), out) ==
            Put(s, c, s.conns[c].Set(w, AfterSend(s.conns[c].Get(w), s.bufs.mem[b][off..off + out.n], out.Fine?, out.n)))
  {
    var conn := s.conns[c];
    var g := AfterSend(conn.Get(w), s.bufs.mem[b][off..off + out.n], out.Fine?, out.n);
    BecomeIs(conn.Set(w, conn.Get(w).(sent := g.sent)), w, g.acts);
  }

  /** A completion that touches no buffer. */
  lemma PlainComplete(s: State, c: nat, w: Way, g: Flow)
    requires Inv(s) && c in s.conns && Done(s.conns[c].Get(w), g)
    requires FlowOk(g, s.bufs.mem)
    ensures Inv(Put(s, c, s.conns[c].Set(w, g)))
  {
    Holder(s, c, w, 0);
    CompletedOk(s.conns[c], w, g, WalkAt(s.walk, c));
    SameBufsKeeps(s.conns, c, s.conns[c].Set(w, g), s.bufs);
    CompleteWith(s, c, w, g, s.bufs);
    assert Put(s, c, s.conns[c].Set(w, g)).(bufs := s.bufs) == Put(s, c, s.conns[c].Set(w, g));
  }

  lemma SendStep(s: State, c: nat, w: Way, b: nat, off: nat, len: nat, cancelled: bool, out: Outcome)
    requires Inv(s) && c in s.conns && s.conns[c].Get(w).acts == [Kernel(OpSend(b, off, len), cancelled)]
    ensures Inv(DoComplete(s, c, w, 0, OpSend(b, off, len), out))
  {
    Holder(s, c, w, 0);
    if out.n <= len - off {
      var g := SendDone(s, c, w, b, off, len, cancelled, out);
      PlainComplete(s, c, w, g);
    } else {
      SendRange(s.conns[c].Get(w), b, off, len, cancelled, s.bufs.mem);
    }
  }

  /** The direction after a send has moved some bytes. */
  lemma SendDone(s: State, c: nat, w: Way, b: nat, off: nat, len: nat, cancelled: bool, out: Outcome) returns (g: Flow)
    requires c in s.conns && s.conns[c].Get(w).acts == [Kernel(OpSend(b, off, len), cancelled)]
    requires FlowOk(s.conns[c].Get(w), s.bufs.mem) && !s.conns[c].Get(w).gone && out.n <= len - off
    ensures DoComplete(s, c, w, 0, OpSend(b, off, len), out) == Put(s, c, s.conns[c].Set(w, g))
    ensures Done(s.conns[c].Get(w), g) && FlowOk(g, s.bufs.mem)
  {
    var f, mem := s.conns[c].Get(w), s.bufs.mem;
    SendRange(f, b, off, len, cancelled, mem);
    SendFlow(f, b, off, len, cancelled, out.Fine?, out.n, mem);
    SendIs(s, c, w, b, off, len, out);
    g := AfterSend(f, mem[b][off..off + out.n], out.Fine?, out.n);
  }

  lemma WaitStep(s: State, c: nat, w: Way, cancelled: bool, out: Outcome)
    requires Inv(s) && c in s.conns && s.conns[c].Get(w).acts == [Kernel(OpWait, cancelled)]
    ensures Inv(DoComplete(s, c, w, 0, OpWait, out))
  {
    Holder(s, c, w, 0);
    BecomeIs(s.conns[c], w, [Packet(out.Fine?, 0)]);
    PlainComplete(s, c, w, s.conns[c].Get(w).(acts := [Packet(out.Fine?, 0)]));
  }

  /** Whatever an activity does next keeps the invariant. */
  lemma WorkStep(s: State, c: nat, w: Way, k: nat, ok: bool, out: Outcome)
    requires Inv(s)
    ensures Inv(DoWork(s, c, w, k, ok, out))
  {
    if c in s.conns && k < |s.conns[c].Get(w).acts| {
      Holder(s, c, w, k);
      var f := s.conns[c].Get(w);
      assert f.acts == [f.acts[0]];
      match f.acts[0]
      case Packet(good, n) => DequeueStep(s, c, w, good, n);
      case Kernel(op, x) => KernelStep(s, c, w, op, x, out);
      case Thread(task, more) => TaskStep(s, c, w, task, more, ok);
    }
  }

  lemma KernelStep(s: State, c: nat, w: Way, op: Op, cancelled: bool, out: Outcome)
    requires Inv(s) && c in s.conns && s.conns[c].Get(w).acts == [Kernel(op, cancelled)]
    ensures Inv(DoComplete(s, c, w, 0, op, out).(wires := Carried(s, c, w, op, out)))
  {
    CompleteStep(s, c, w, op, cancelled, out);
    InvWires(DoComplete(s, c, w, 0, op, out), Carried(s, c, w, op, out));
  }

  lemma CompleteStep(s: State, c: nat, w: Way, op: Op, cancelled: bool, out: Outcome)
    requires Inv(s) && c in s.conns && s.conns[c].Get(w).acts == [Kernel(op, cancelled)]
    ensures Inv(DoComplete(s, c, w, 0, op, out))
  {
    match op
    case OpWait => WaitStep(s, c, w, cancelled, out);
    case OpRead(b) => ReadStep(s, c, w, b, cancelled, out);
    case OpSend(b, off, len) => SendStep(s, c, w, b, off, len, cancelled, out);
  }

  lemma PostTaskStep(s: State, c: nat, w: Way, task: Task, more: bool, ok: bool)
    requires Inv(s) && IsTask(s, c, w, task, more) && (task.PostRead? || task.PostSend? || task.PostWait?)
    ensures Inv(DoTask(s, c, w, 0, task, more, ok))
  {
    Holder(s, c, w, 0);
    var op := PostTaskIs(s, c, w, task, more, ok);
    PostStep(s, c, w, task, op, more, ok);
  }

  lemma PostTaskIs(s: State, c: nat, w: Way, task: Task, more: bool, ok: bool) returns (op: Op)
    requires IsTask(s, c, w, task, more) && (task.PostRead? || task.PostSend? || task.PostWait?)
    requires FlowOk(s.conns[c].Get(w), s.bufs.mem)
    ensures PostTask(s.conns[c].Get(w), task, op)
    ensures DoTask(s, c, w, 0, task, more, ok) == Put(s, c, DoPost(s.conns[c], w, 0, op, ok, more))
  {
    var f := s.conns[c].Get(w);
    op := if task.PostWait? then OpWait else if task.PostRead? then OpRead(f.buf.id) else OpSend(f.buf.id, f.off, f.len);
  }

  lemma TaskStep(s: State, c: nat, w: Way, task: Task, more: bool, ok: bool)
    requires Inv(s) && IsTask(s, c, w, task, more)
    ensures Inv(DoTask(s, c, w, 0, task, more, ok))
  {
    match task
    case Handle(good, n) => HandleStep(s, c, w, good, n, more, ok);
    case TakeBuf => TakeBufStep(s, c, w, more, ok);
    case PostRead => PostTaskStep(s, c, w, task, more, ok);
    case PostSend => PostTaskStep(s, c, w, task, more, ok);
    case PostWait => PostTaskStep(s, c, w, task, more, ok);
    case GiveBuf => GiveBufStep(s, c, w, more, ok);
    case FreeSpill(b) => FreeSpillStep(s, c, w, b, more, ok);
    case HalfClose => HalfCloseStep(s, c, w, more, ok);
    case Abort(at) => AbortStep(s, c, w, at, more, ok);
    case Release => ReleaseStep(s, c, w, more, ok);
  }
}
