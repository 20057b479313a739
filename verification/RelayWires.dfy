/**
 What the peers of a relayed connection see: the client's bytes reach the proxy and the proxy's bytes
 reach the client, in order and unharmed, and the end of one stream is passed on to the other side.
 */
module RelayWires {
  import opened Basics
  import opened RelayPool
  import opened RelayInvariant
  import RelaySteps
  import RelayLifetime
  import RelayTheorems
  import RelayDelivery

  /** The histories of the directions are those of the sockets: Up is from client to proxy, Down the reverse. */
  predicate WireIs(conn: Conn, wire: Wire) {
    && wire.fromClient == conn.up.read && wire.toProxy == conn.up.sent && conn.proxy.halfClosed == conn.up.eof
    && wire.fromProxy == conn.down.read && wire.toClient == conn.down.sent && conn.client.halfClosed == conn.down.eof
  }

  ghost predicate WiresOk(s: State) { forall c :: c in s.conns ==> c in s.wires && WireIs(s.conns[c], s.wires[c]) }

  /** What was read, sent and half-closed. */
  datatype Tape = Tape(wire: Wire, upEof: bool, downEof: bool, clientHalf: bool, proxyHalf: bool)

  function TapeOf(conn: Conn): Tape {
    Tape(Wire(conn.up.read, conn.down.sent, conn.down.read, conn.up.sent), conn.up.eof, conn.down.eof,
         conn.client.halfClosed, conn.proxy.halfClosed)
  }

  predicate SameStreams(conn: Conn, conn': Conn) { TapeOf(conn) == TapeOf(conn') }

  // ------------------------------------------------------------------ steps that move no bytes

  lemma SetStreams(conn: Conn, w: Way, g: Flow)
    requires g.read == conn.Get(w).read && g.sent == conn.Get(w).sent && g.eof == conn.Get(w).eof
    ensures SameStreams(conn, conn.Set(w, g))
  {
  }

  lemma ThenSame(a: Conn, b: Conn, c: Conn)
    requires SameStreams(a, b) && SameStreams(b, c)
    ensures SameStreams(a, c)
  {
  }

  lemma BecomeStreams(conn: Conn, w: Way, k: nat, news: seq<Act>, startDown: bool)
    requires k < |conn.Get(w).acts|
    ensures SameStreams(conn, Become(conn, w, k, news, startDown))
  {
  }

  /** A direction is replaced by one with the same streams and then takes up another activity. */
  lemma MoveStreams(conn: Conn, w: Way, g: Flow, news: seq<Act>, startDown: bool)
    requires g.read == conn.Get(w).read && g.sent == conn.Get(w).sent && g.eof == conn.Get(w).eof && |g.acts| > 0
    ensures SameStreams(conn, Become(conn.Set(w, g), w, 0, news, startDown))
  {
    SetStreams(conn, w, g);
    BecomeStreams(conn.Set(w, g), w, 0, news, startDown);
    ThenSame(conn, conn.Set(w, g), Become(conn.Set(w, g), w, 0, news, startDown));
  }

  lemma PostStreams(conn: Conn, w: Way, op: Op, ok: bool, more: bool)
    requires |conn.Get(w).acts| > 0
    ensures SameStreams(conn, DoPost(conn, w, 0, op, ok, more))
  {
    var kind := match op case OpWait => Wait case OpRead(_) => Read case OpSend(_, _, _) => Send;
    var g := conn.Get(w).(state := kind);
    if conn.Sock(Target(w, op)).closed {
    } else if !ok || conn.Sock(Target(w, op)).shut {
      MoveStreams(conn, w, g, [Thread(Abort(Cas), more)], false);
    } else {
      MoveStreams(conn, w, g, [Kernel(op, false)], more);
    }
  }

  lemma HandleStreams(conn: Conn, w: Way, ok: bool, n: nat, more: bool)
    requires |conn.Get(w).acts| > 0
    ensures SameStreams(conn, DoHandle(conn, w, 0, ok, n, more))
  {
    var (f, task) := Dispatch(conn.Get(w), ok, n);
    MoveStreams(conn, w, f.(acts := conn.Get(w).acts), [Thread(task, more)], false);
  }

  lemma CancelStreams(conn: Conn, side: Side)
    ensures SameStreams(conn, CancelIo(conn, side))
  {
  }

  lemma EffectStreams(conn: Conn, p: AbortAt)
    ensures SameStreams(conn, AbortEffect(conn, p))
  {
    match p
    case CancelClient => CancelStreams(conn.(client := conn.client.(cancelled := true)), Client);
    case CancelProxy => CancelStreams(conn.(proxy := conn.proxy.(cancelled := true)), Proxy);
    case _ =>
  }

  lemma AbortStreams(conn: Conn, w: Way, p: AbortAt, more: bool)
    requires |conn.Get(w).acts| > 0
    ensures SameStreams(conn, DoAbort(conn, w, 0, p, more))
  {
    var task := if AbortEnds(p, conn.closing) then Release else Abort(AbortNext(p));
    BecomeStreams(conn, w, 0, [Thread(task, more)], false);
    EffectStreams(Goto(conn, w, 0, task, more), p);
    ThenSame(conn, Goto(conn, w, 0, task, more), DoAbort(conn, w, 0, p, more));
  }

  lemma ReleaseStreams(conn: Conn, w: Way, more: bool)
    requires |conn.Get(w).acts| > 0
    ensures SameStreams(conn, DoRelease(conn, w, 0, more))
  {
    var c1 := conn.(refs := conn.refs - 1);
    MoveStreams(c1, w, c1.Get(w).(gone := true), [], more);
  }

  ghost predicate Silent(s: State, s': State, c: nat)
    requires c in s.conns
  { c in s'.conns && SameStreams(s.conns[c], s'.conns[c]) }

  lemma TakeStreams(s: State, c: nat, w: Way, more: bool, ok: bool)
    requires c in s.conns && |s.conns[c].Get(w).acts| > 0
    ensures Silent(s, DoTask(s, c, w, 0, TakeBuf, more, ok), c)
  {
    var b := PopBuf(s.bufs, D(c, w), ok).1;
    MoveStreams(s.conns[c], w, s.conns[c].Get(w).(buf := b), [Thread(if b.At? then PostRead else Abort(Cas), more)], false);
  }

  lemma GaveStreams(s: State, c: nat, w: Way, more: bool, ok: bool)
    requires c in s.conns && Running(s.conns[c]) && s.conns[c].Get(w).acts == [Thread(GiveBuf, more)]
    ensures Silent(s, DoTask(s, c, w, 0, GiveBuf, more, ok), c)
  {
    RelaySteps.GiveBufIs(s, c, w, more, ok);
    SetStreams(s.conns[c], w, RelaySteps.Given(s.conns[c].Get(w), |s.bufs.pool| >= POOL_KEEP, more));
  }

  lemma SpillStreams(s: State, c: nat, w: Way, b: nat, more: bool, ok: bool)
    requires c in s.conns && |s.conns[c].Get(w).acts| > 0
    ensures Silent(s, DoTask(s, c, w, 0, FreeSpill(b), more, ok), c)
  {
    BecomeStreams(s.conns[c], w, 0, [Thread(PostWait, more)], false);
  }

  lemma PostTaskStreams(s: State, c: nat, w: Way, task: Task, more: bool, ok: bool)
    requires c in s.conns && |s.conns[c].Get(w).acts| > 0 && (task.PostRead? || task.PostSend? || task.PostWait?)
    ensures Silent(s, DoTask(s, c, w, 0, task, more, ok), c)
  {
    var f := s.conns[c].Get(w);
    if task.PostWait? {
      PostStreams(s.conns[c], w, OpWait, ok, more);
    } else if f.buf.At? {
      PostStreams(s.conns[c], w, if task.PostRead? then OpRead(f.buf.id) else OpSend(f.buf.id, f.off, f.len), ok, more);
    }
  }

  lemma EndTaskStreams(s: State, c: nat, w: Way, task: Task, more: bool, ok: bool)
    requires c in s.conns && |s.conns[c].Get(w).acts| > 0 && (task.Handle? || task.Abort? || task.Release?)
    ensures Silent(s, DoTask(s, c, w, 0, task, more, ok), c)
  {
    match task
    case Handle(good, n) => HandleStreams(s.conns[c], w, good, n, more);
    case Abort(p) => AbortStreams(s.conns[c], w, p, more);
    case Release => ReleaseStreams(s.conns[c], w, more);
  }

  lemma TaskStreams(s: State, c: nat, w: Way, task: Task, more: bool, ok: bool)
    requires c in s.conns && Running(s.conns[c]) && s.conns[c].Get(w).acts == [Thread(task, more)] && !task.HalfClose?
    ensures Silent(s, DoTask(s, c, w, 0, task, more, ok), c)
  {
    if task.Handle? || task.Abort? || task.Release? {
      EndTaskStreams(s, c, w, task, more, ok);
    } else if task.PostRead? || task.PostSend? || task.PostWait? {
      PostTaskStreams(s, c, w, task, more, ok);
    } else if task.TakeBuf? {
      TakeStreams(s, c, w, more, ok);
    } else if task.GiveBuf? {
      GaveStreams(s, c, w, more, ok);
    } else {
      SpillStreams(s, c, w, task.b, more, ok);
    }
  }

  lemma CloseStreams(conn: Conn, k: nat, side: Side)
    requires k < |conn.ending|
    ensures SameStreams(conn, DoClose(conn, k, side))
  {
  }

  lemma GiveStreams(conn: Conn, w: Way, k: nat, next: Teardown)
    requires k < |conn.ending|
    ensures SameStreams(conn, SetStage(conn, k, [next]))
    ensures SameStreams(conn, SetStage(conn.Set(w, conn.Get(w).(buf := Nil)), k, [next]))
  {
    SetStreams(conn, w, conn.Get(w).(buf := Nil));
  }

  lemma StageStreams(s: State, c: nat, k: nat)
    requires c in s.conns && k < |s.conns[c].ending|
    ensures Silent(s, DoTearDown(s, c, k), c)
  {
    if s.conns[c].ending[k].Give? || s.conns[c].ending[k].Spill? {
      GiveStageStreams(s, c, k, s.conns[c].ending[k].w);
    } else {
      PlainStageStreams(s, c, k);
    }
  }

  lemma FirstAndLast(conn: Conn, k: nat)
    requires k < |conn.ending|
    ensures SameStreams(conn, SetStage(conn, k, [CloseClient]).(hist := conn.hist.(unlinked := conn.hist.unlinked + 1)))
    ensures SameStreams(conn, DoFree(SetStage(conn, k, [])))
  {
  }

  lemma PlainStageStreams(s: State, c: nat, k: nat)
    requires c in s.conns && k < |s.conns[c].ending| && !s.conns[c].ending[k].Give? && !s.conns[c].ending[k].Spill?
    ensures Silent(s, DoTearDown(s, c, k), c)
  {
    FirstAndLast(s.conns[c], k);
    CloseStreams(s.conns[c], k, Client);
    CloseStreams(s.conns[c], k, Proxy);
  }

  lemma GiveStageStreams(s: State, c: nat, k: nat, w: Way)
    requires c in s.conns && k < |s.conns[c].ending|
    requires (s.conns[c].ending[k].Give? || s.conns[c].ending[k].Spill?) && s.conns[c].ending[k].w == w
    ensures Silent(s, DoTearDown(s, c, k), c)
  {
    var f, full := s.conns[c].Get(w), |s.bufs.pool| >= POOL_KEEP;
    GiveStreams(s.conns[c], w, k, AfterGive(w));
    if f.buf.At? { GiveStreams(s.conns[c], w, k, Spill(w, f.buf.id)); }
  }

  // ------------------------------------------------------------------ the half-close and the completions

  /** The half-close of dir[0] lands on the proxy's socket, that of dir[1] on the client's. */
  lemma HalfCloseWires(conn: Conn, w: Way, more: bool, wire: Wire)
    requires Running(conn) && conn.Get(w).acts == [Thread(HalfClose, more)] && WireIs(conn, wire)
    ensures WireIs(DoHalfClose(conn, w, 0, more), wire)
  {
    HalfCloseIs(conn, w, more);
  }

  lemma ReadWires(s: State, c: nat, w: Way, b: nat, out: Outcome)
    requires c in s.conns && c in s.wires && WireIs(s.conns[c], s.wires[c])
    requires |s.conns[c].Get(w).acts| == 1 && b in s.bufs.mem && |out.data| <= BUF_SIZE
    ensures var s', wires := DoComplete(s, c, w, 0, OpRead(b), out), Carried(s, c, w, OpRead(b), out);
            c in s'.conns && c in wires && WireIs(s'.conns[c], wires[c])
  {
    RelaySteps.ReadIs(s, c, w, b, out);
  }

  lemma SendWires(s: State, c: nat, w: Way, b: nat, off: nat, len: nat, out: Outcome)
    requires c in s.conns && c in s.wires && WireIs(s.conns[c], s.wires[c]) && |s.conns[c].Get(w).acts| == 1
    requires b in s.bufs.mem && off <= len <= |s.bufs.mem[b]| && out.n <= len - off
    ensures var s', wires := DoComplete(s, c, w, 0, OpSend(b, off, len), out), Carried(s, c, w, OpSend(b, off, len), out);
            c in s'.conns && c in wires && WireIs(s'.conns[c], wires[c])
  {
    RelaySteps.SendIs(s, c, w, b, off, len, out);
  }

  lemma CompleteWires(s: State, c: nat, w: Way, op: Op, x: bool, out: Outcome)
    requires Inv(s) && c in s.conns && c in s.wires && WireIs(s.conns[c], s.wires[c])
    requires s.conns[c].Get(w).acts == [Kernel(op, x)]
    ensures var s', wires := DoComplete(s, c, w, 0, op, out), Carried(s, c, w, op, out);
            c in s'.conns && c in wires && WireIs(s'.conns[c], wires[c])
  {
    RelaySteps.Holder(s, c, w, 0);
    match op
    case OpWait => BecomeStreams(s.conns[c], w, 0, [Packet(out.Fine?, 0)], false);
    case OpRead(b) =>
      RelaySteps.OwnBuf(s, c, w);
      if |out.data| <= BUF_SIZE { ReadWires(s, c, w, b, out); }
    case OpSend(b, off, len) =>
      RelaySteps.SendRange(s.conns[c].Get(w), b, off, len, x, s.bufs.mem);
      if out.n <= len - off { SendWires(s, c, w, b, off, len, out); }
  }

  // ------------------------------------------------------------------ all steps

  lemma TaskWires(s: State, c: nat, w: Way, task: Task, more: bool, ok: bool, wire: Wire)
    requires Inv(s) && c in s.conns && WireIs(s.conns[c], wire) && s.conns[c].Get(w).acts == [Thread(task, more)]
    ensures var s' := DoTask(s, c, w, 0, task, more, ok); c in s'.conns && WireIs(s'.conns[c], wire)
  {
    RelaySteps.Holder(s, c, w, 0);
    if task.HalfClose? {
      HalfTaskWires(s, c, w, more, ok, wire);
    } else {
      TaskStreams(s, c, w, task, more, ok);
      SameWire(s.conns[c], DoTask(s, c, w, 0, task, more, ok).conns[c], wire);
    }
  }

  lemma HalfTaskWires(s: State, c: nat, w: Way, more: bool, ok: bool, wire: Wire)
    requires c in s.conns && Running(s.conns[c]) && WireIs(s.conns[c], wire)
    requires s.conns[c].Get(w).acts == [Thread(HalfClose, more)]
    ensures var s' := DoTask(s, c, w, 0, HalfClose, more, ok); c in s'.conns && WireIs(s'.conns[c], wire)
  {
    HalfCloseWires(s.conns[c], w, more, wire);
  }

  lemma SameWire(conn: Conn, conn': Conn, wire: Wire)
    requires SameStreams(conn, conn') && WireIs(conn, wire)
    ensures WireIs(conn', wire)
  {
  }

  lemma TaskSilent(s: State, c: nat, w: Way, k: nat, task: Task, more: bool, ok: bool)
    requires c in s.conns && k < |s.conns[c].Get(w).acts|
    ensures DoTask(s, c, w, k, task, more, ok).wires == s.wires
  {
  }

  /** The wire of c is what its connection says, and no other wire has changed. */
  ghost predicate Wired(s: State, s': State, c: nat) {
    && c in s'.conns && c in s'.wires && WireIs(s'.conns[c], s'.wires[c]) && s'.wires == s.wires[c := s'.wires[c]]
  }

  lemma WorkWires(s: State, c: nat, w: Way, k: nat, ok: bool, out: Outcome)
    requires Inv(s) && c in s.conns && c in s.wires && WireIs(s.conns[c], s.wires[c])
    ensures Wired(s, DoWork(s, c, w, k, ok, out), c)
  {
    if k < |s.conns[c].Get(w).acts| {
      RelaySteps.Holder(s, c, w, k);
      var f := s.conns[c].Get(w);
      assert f.acts == [f.acts[0]];
      match f.acts[0]
      case Packet(good, n) => PacketWired(s, c, w, good, n);
      case Kernel(op, x) =>
        CompleteWires(s, c, w, op, x, out);
        KernelWired(s, c, w, op, out);
      case Thread(task, more) =>
        TaskWires(s, c, w, task, more, ok, s.wires[c]);
        TaskSilent(s, c, w, 0, task, more, ok);
        ThreadWired(s, c, w, task, more, ok);
    }
  }

  lemma PacketWired(s: State, c: nat, w: Way, good: bool, n: nat)
    requires c in s.conns && c in s.wires && WireIs(s.conns[c], s.wires[c]) && |s.conns[c].Get(w).acts| > 0
    ensures Wired(s, Put(s, c, Goto(s.conns[c], w, 0, Handle(good, n), false)), c)
  {
    BecomeStreams(s.conns[c], w, 0, [Thread(Handle(good, n), false)], false);
  }

  lemma KernelWired(s: State, c: nat, w: Way, op: Op, out: Outcome)
    requires c in s.conns && c in s.wires && |s.conns[c].Get(w).acts| > 0
    requires var s', wires := DoComplete(s, c, w, 0, op, out), Carried(s, c, w, op, out);
             c in s'.conns && c in wires && WireIs(s'.conns[c], wires[c])
    ensures Wired(s, DoComplete(s, c, w, 0, op, out).(wires := Carried(s, c, w, op, out)), c)
  {
    CarriedOnly(s, c, w, op, out);
  }

  lemma CarriedOnly(s: State, c: nat, w: Way, op: Op, out: Outcome)
    requires c in s.wires
    ensures c in Carried(s, c, w, op, out) && Carried(s, c, w, op, out) == s.wires[c := Carried(s, c, w, op, out)[c]]
  {
  }

  lemma ThreadWired(s: State, c: nat, w: Way, task: Task, more: bool, ok: bool)
    requires c in s.conns && c in s.wires && |s.conns[c].Get(w).acts| > 0
    requires var s' := DoTask(s, c, w, 0, task, more, ok);
             c in s'.conns && WireIs(s'.conns[c], s.wires[c]) && s'.wires == s.wires
    ensures Wired(s, DoTask(s, c, w, 0, task, more, ok), c)
  {
  }

  /** Only connection c changed, and its wire with it. */
  lemma OneWire(s: State, s': State, c: nat)
    requires WiresOk(s) && c in s.conns && c in s'.conns && s'.conns == s.conns[c := s'.conns[c]]
    requires c in s'.wires && s'.wires == s.wires[c := s'.wires[c]] && WireIs(s'.conns[c], s'.wires[c])
    ensures WiresOk(s')
  {
  }

  lemma WorkStepWires(s: State, c: nat, w: Way, k: nat, ok: bool, out: Outcome)
    requires Inv(s) && WiresOk(s)
    ensures WiresOk(DoWork(s, c, w, k, ok, out))
  {
    if c in s.conns {
      WorkWires(s, c, w, k, ok, out);
      RelayTheorems.WorkAdvances(s, c, w, k, ok, out);
      OneWire(s, DoWork(s, c, w, k, ok, out), c);
    }
  }

  lemma TearDownSilent(s: State, c: nat, k: nat)
    ensures DoTearDown(s, c, k).wires == s.wires
  {
  }

  lemma TearDownStepWires(s: State, c: nat, k: nat)
    requires Inv(s) && WiresOk(s)
    ensures WiresOk(DoTearDown(s, c, k))
  {
    if c in s.conns && k < |s.conns[c].ending| {
      StageStreams(s, c, k);
      TearDownSilent(s, c, k);
      RelayTheorems.TearDownAdvances(s, c, k);
      OneWire(s, DoTearDown(s, c, k), c);
    }
  }

  lemma WalkStepWires(s: State)
    requires Inv(s) && WiresOk(s)
    ensures WiresOk(DoWalk(s))
  {
    if s.walk.Walk? {
      RelayLifetime.WalkerOn(s);
      RelayLifetime.WalkIs(s);
      EffectStreams(s.conns[s.walk.c], s.walk.at);
      OneWire(s, DoWalk(s), s.walk.c);
    }
  }

  lemma AdmitStepWires(s: State, c: nat, running: bool)
    requires Inv(s) && WiresOk(s)
    ensures WiresOk(DoAdmit(s, c, running))
  {
    if c in s.conns && s.conns[c].starting != 0 && LockFree(s) {
      RelayLifetime.Unpublished(s, c);
      RelayLifetime.AdmitIs(s, c, running);
      OneWire(s, DoAdmit(s, c, running), c);
    }
  }

  lemma SameWires(s: State, s': State)
    requires WiresOk(s) && s'.conns == s.conns && s'.wires == s.wires
    ensures WiresOk(s')
  {
  }

  lemma QuietWires(s: State)
    ensures DoBeginAbort(s).conns == s.conns && DoBeginAbort(s).wires == s.wires
    ensures DoStopFree(s).conns == s.conns && DoStopFree(s).wires == s.wires
  {
  }

  lemma NextWires(s: State, e: Step)
    requires Inv(s) && WiresOk(s)
    ensures WiresOk(Next(s, e))
  {
    match e
    case Work(c, w, k, ok, out) => WorkStepWires(s, c, w, k, ok, out);
    case TearDown(c, k) => TearDownStepWires(s, c, k);
    case Admit(c, running) => AdmitStepWires(s, c, running);
    case WalkOn => WalkStepWires(s);
    case BeginStart =>
    case BeginAbort => QuietWires(s); SameWires(s, DoBeginAbort(s));
    case StopFree => QuietWires(s); SameWires(s, DoStopFree(s));
  }

  lemma {:induction false} RunWires(es: seq<Step>)
    ensures WiresOk(Reach(es))
    decreases |es|
  {
    if es == [] {
    } else {
      RunWires(es[..|es| - 1]);
      RelayLifetime.RunInv(es[..|es| - 1]);
      NextWires(Reach(es[..|es| - 1]), es[|es| - 1]);
    }
  }

  /**
   In every state of every run the bytes handed to the proxy's socket are a prefix of those received from the
   client's socket, and vice versa; and a socket is half-closed only when everything received from the other
   one has been handed to it.
   */
  lemma EndToEnd(es: seq<Step>, c: nat)
    requires c in Reach(es).conns
    ensures var s := Reach(es);
            && c in s.wires
            && s.wires[c].toProxy <= s.wires[c].fromClient
            && s.wires[c].toClient <= s.wires[c].fromProxy
            && (s.conns[c].proxy.halfClosed ==> s.wires[c].toProxy == s.wires[c].fromClient)
            && (s.conns[c].client.halfClosed ==> s.wires[c].toClient == s.wires[c].fromProxy)
  {
    RunWires(es);
    RelayTheorems.StreamIntegrity(es, c, Up);
    RelayTheorems.StreamIntegrity(es, c, Down);
  }

  /**
   Delivery as the peers see it: a chunk that one side sends while the relay's own posts succeed arrives at
   the other side whole and in order, whatever all other threads do meanwhile.
   */
  lemma DeliversAcross(pre: seq<Step>, es: seq<Step>, c: nat, w: Way, b: nat, data: seq<byte>, sizes: seq<nat>)
    requires c in Reach(pre).conns && |Reach(pre).conns[c].Get(w).acts| == 1
    requires Reach(pre).conns[c].Get(w).acts[0].Kernel? && Reach(pre).conns[c].Get(w).acts[0].op == OpRead(b)
    requires 0 < |data| <= BUF_SIZE
    requires sizes != [] && (forall i :: 0 <= i < |sizes| ==> sizes[i] > 0) && RelayDelivery.Total(sizes) == |data|
    requires RelayDelivery.OwnSteps(es, c, w) == RelayDelivery.Chunk(c, w, data, sizes)
    requires c in Reach(pre + es).conns
    requires w == Up ==> !Reach(pre + es).conns[c].proxy.shut
    requires w == Down ==> !Reach(pre + es).conns[c].client.shut
    ensures c in Reach(pre).wires && c in Reach(pre + es).wires
    ensures var x, y := Reach(pre).wires[c], Reach(pre + es).wires[c];
            && (w == Up ==> y.fromClient == x.fromClient + data && y.toProxy == x.toProxy + data)
            && (w == Down ==> y.fromProxy == x.fromProxy + data && y.toClient == x.toClient + data)
  {
    RunWires(pre);
    RunWires(pre + es);
    RelayTheorems.ContinueReach(pre, es);
    RelayDelivery.Delivers(pre, es, c, w, b, data, sizes);
  }

  /** The end of one side's stream is passed on to the other side, whatever all other threads do meanwhile. */
  lemma EofAcross(pre: seq<Step>, es: seq<Step>, c: nat, w: Way, b: nat)
    requires c in Reach(pre).conns && |Reach(pre).conns[c].Get(w).acts| == 1
    requires Reach(pre).conns[c].Get(w).acts[0].Kernel? && Reach(pre).conns[c].Get(w).acts[0].op == OpRead(b)
    requires RelayDelivery.OwnSteps(es, c, w) == RelayDelivery.Part(c, w, Fine([], 0))
    requires c in Reach(pre + es).conns
    requires w == Up ==> !Reach(pre + es).conns[c].proxy.shut
    requires w == Down ==> !Reach(pre + es).conns[c].client.shut
    ensures var t := Reach(pre + es).conns[c];
            && t.Get(w) == Reach(pre).conns[c].Get(w).(eof := true, acts := [Thread(Release, false)])
            && (w == Up ==> t.proxy.halfClosed) && (w == Down ==> t.client.halfClosed)
  {
    RunWires(pre + es);
    RelayTheorems.ContinueReach(pre, es);
    RelayDelivery.PassesEof(pre, es, c, w, b);
  }
}
