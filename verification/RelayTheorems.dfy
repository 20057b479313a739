/**
 What the relay pool guarantees over whole runs: byte streams arrive unharmed, every connection is
 released exactly once, aborted connections drain, and no buffer is lost or shared.
 */
module RelayTheorems {
  import opened Basics
  import opened RelayPool
  import opened RelayInvariant
  import RelayLifetime
  import RelaySteps

  // ------------------------------------------------------------------ streams

  /** With an operation outstanding, the bytes read and not yet sent are exactly buf[off..len] in SEND, and none otherwise. */
  predicate GapIsBuffer(f: Flow, mem: map<nat, seq<byte>>) {
    |f.acts| == 1 && f.acts[0].Kernel? ==>
      if f.state == Send then
        && f.buf.At? && f.buf.id in mem && f.off < f.len <= |mem[f.buf.id]|
        && f.read == f.sent + mem[f.buf.id][f.off..f.len]
      else f.read == f.sent
  }

  /**
   In every state of every run: what was sent is a prefix of what was read, the gap is what the
   direction's buffer still holds (also while a packet is queued or a thread is at work, as ActGap says
   for each of them), and once the send side is half-closed nothing is missing.
   */
  lemma StreamIntegrity(es: seq<Step>, c: nat, w: Way)
    requires c in Reach(es).conns
    ensures var s := Reach(es);
            var f := s.conns[c].Get(w);
            && f.sent <= f.read
            && (f.eof ==> f.sent == f.read)
            && GapIsBuffer(f, s.bufs.mem) && (|f.acts| == 1 ==> ActGap(f, s.bufs.mem, f.acts[0]))
  {
    RelayLifetime.RunInv(es);
    assert ConnOk(Reach(es), c, Reach(es).conns[c]);
  }

  /** Streams only grow, and a half-closed one is final. */
  predicate Grows(f: Flow, f': Flow) {
    && f.read <= f'.read && f.sent <= f'.sent && (f.gone ==> f'.gone)
    && (f.eof ==> f'.eof && f'.sent == f.sent && f'.read == f.read)
  }

  predicate BothGrow(conn: Conn, conn': Conn) { Grows(conn.up, conn'.up) && Grows(conn.down, conn'.down) }

  // ------------------------------------------------------------------ progress of one connection

  function TaskRank(task: Task): nat {
    match task
    case Release => 1
    case HalfClose => 2
    case Abort(CancelProxy) => 2
    case Abort(CancelClient) => 3
    case Abort(ShutProxy) => 4
    case Abort(ShutClient) => 5
    case Abort(Cas) => 6
    case PostWait => 7
    case PostRead => 7
    case PostSend => 7
    case FreeSpill(_) => 8
    case TakeBuf => 8
    case GiveBuf => 9
    case Handle(_, _) => 10
  }

  function ActRank(act: Act): nat {
    match act
    case Thread(task, _) => TaskRank(task)
    case Packet(_, _) => 11
    case Kernel(_, _) => 12
  }

  function FlowRank(f: Flow): nat {
    if f.gone then 0 else if f.acts == [] then 10 else ActRank(f.acts[0])
  }

  function StageRank(stage: Teardown): nat {
    match stage
    case Unlink => 8
    case CloseClient => 7
    case CloseProxy => 6
    case Give(Up) => 5
    case Spill(Up, _) => 4
    case Give(Down) => 3
    case Spill(Down, _) => 2
    case FreeConn => 1
  }

  /** An upper bound on the actions left on a connection whose sockets are both shut down. */
  function Rank(conn: Conn): nat {
    if !conn.alive then 0
    else FlowRank(conn.up) + FlowRank(conn.down) + if conn.ending == [] then 9 else StageRank(conn.ending[0])
  }

  predicate BothShut(conn: Conn) { conn.client.shut && conn.proxy.shut }

  /** The connection can only go down: both sockets are shut, its teardown has begun, or it is freed. */
  predicate Sinks(conn: Conn) { BothShut(conn) || conn.ending != [] || !conn.alive }

  predicate KeepsShut(conn: Conn, conn': Conn) {
    (conn.client.shut ==> conn'.client.shut) && (conn.proxy.shut ==> conn'.proxy.shut)
  }

  /** What an action on a connection does to its streams and, after an abort, to what is left to do. */
  predicate Progress(conn: Conn, conn': Conn) {
    && BothGrow(conn, conn')
    && KeepsShut(conn, conn')
    && (Sinks(conn) ==> Sinks(conn') && Rank(conn') < Rank(conn))
  }

  lemma MoveProgress(conn: Conn, w: Way, g: Flow)
    requires Running(conn) && |conn.Get(w).acts| == 1 == |g.acts| && !g.gone && Grows(conn.Get(w), g)
    requires ActRank(g.acts[0]) < ActRank(conn.Get(w).acts[0])
    ensures Progress(conn, conn.Set(w, g))
  {
  }

  lemma HandleProgress(conn: Conn, w: Way, ok: bool, n: nat, more: bool, mem: map<nat, seq<byte>>)
    requires Running(conn) && FlowOk(conn.Get(w), mem) && conn.Get(w).acts == [Thread(Handle(ok, n), more)]
    ensures Progress(conn, DoHandle(conn, w, 0, ok, n, more))
  {
    DispatchKeeps(conn.Get(w), ok, n, more, mem);
    var (f, task) := Dispatch(conn.Get(w), ok, n);
    BecomeIs(conn.Set(w, f), w, [Thread(task, more)]);
    MoveProgress(conn, w, f.(acts := [Thread(task, more)]));
  }

  /** Replacing a thread's task, and possibly its buffer, by a later one. */
  lemma GotoProgress(conn: Conn, w: Way, b: Ref, task: Task, task': Task, more: bool)
    requires Running(conn) && conn.Get(w).acts == [Thread(task, more)] && TaskRank(task') < TaskRank(task)
    ensures var c1 := conn.Set(w, conn.Get(w).(buf := b)); Progress(conn, Goto(c1, w, 0, task', more))
  {
    var c1 := conn.Set(w, conn.Get(w).(buf := b));
    BecomeIs(c1, w, [Thread(task', more)]);
    MoveProgress(conn, w, conn.Get(w).(buf := b, acts := [Thread(task', more)]));
  }

  lemma PostProgress(conn: Conn, w: Way, op: Op, ok: bool, task: Task, more: bool)
    requires Running(conn) && conn.Get(w).acts == [Thread(task, more)] && TaskRank(task) == 7
    ensures Progress(conn, DoPost(conn, w, 0, op, ok, more))
  {
    if !ok || conn.Sock(Target(w, op)).shut {
      PostFails(conn, w, op, ok, task, more);
      MoveProgress(conn, w, Posted(conn.Get(w), op, [Thread(Abort(Cas), more)]));
    } else {
      PostGoes(conn, w, op, task, more);
      PostedProgress(conn, w, op, task, more);
    }
  }

  /** A post that succeeds means that the connection is not yet going down. */
  lemma PostedProgress(conn: Conn, w: Way, op: Op, task: Task, more: bool)
    requires Running(conn) && conn.Get(w).acts == [Thread(task, more)] && !conn.Sock(Target(w, op)).shut
    ensures more ==> Progress(conn, conn.(up := Posted(conn.up, op, [Kernel(op, false)]),
                                          down := conn.down.(acts := [Thread(GiveBuf, false)])))
    ensures Progress(conn, conn.Set(w, Posted(conn.Get(w), op, [Kernel(op, false)])))
  {
  }

  lemma HalfCloseProgress(conn: Conn, w: Way, more: bool)
    requires Running(conn) && conn.Get(w).acts == [Thread(HalfClose, more)]
    ensures Progress(conn, DoHalfClose(conn, w, 0, more))
  {
    HalfCloseIs(conn, w, more);
    MoveProgress(conn, w, conn.Get(w).(eof := true, acts := [Thread(Release, more)]));
  }

  lemma EffectRank(conn: Conn, p: AbortAt)
    requires Running(conn) && !conn.fault
    ensures var c' := AbortEffect(conn, p);
            && BothGrow(conn, c') && Rank(c') == Rank(conn) && KeepsShut(conn, c')
            && c'.ending == conn.ending && c'.alive == conn.alive
  {
    if p == CancelClient || p == CancelProxy {
      var side := if p == CancelClient then Client else Proxy;
      var c1 := if p == CancelClient then conn.(client := conn.client.(cancelled := true))
                else conn.(proxy := conn.proxy.(cancelled := true));
      CancelIs(c1, Up, side);
      CancelIs(c1, Down, side);
    }
  }

  lemma AbortProgress(conn: Conn, w: Way, p: AbortAt, more: bool)
    requires Running(conn) && !conn.fault && conn.Get(w).acts == [Thread(Abort(p), more)]
    ensures Progress(conn, DoAbort(conn, w, 0, p, more))
  {
    AbortIs(conn, w, p, more);
    var task := if AbortEnds(p, conn.closing) then Release else Abort(AbortNext(p));
    EffectProgress(conn, w, p, task, more);
  }

  lemma EffectProgress(conn: Conn, w: Way, p: AbortAt, task: Task, more: bool)
    requires Running(conn) && !conn.fault && conn.Get(w).acts == [Thread(Abort(p), more)]
    requires TaskRank(task) < TaskRank(Abort(p)) && Running(conn.Set(w, conn.Get(w).(acts := [Thread(task, more)])))
    ensures Progress(conn, AbortEffect(conn.Set(w, conn.Get(w).(acts := [Thread(task, more)])), p))
  {
    var c1 := conn.Set(w, conn.Get(w).(acts := [Thread(task, more)]));
    MoveProgress(conn, w, c1.Get(w));
    EffectRank(c1, p);
    ThenEffect(conn, c1, AbortEffect(c1, p));
  }

  lemma ThenEffect(conn: Conn, c1: Conn, c2: Conn)
    requires Progress(conn, c1) && BothGrow(c1, c2) && Rank(c2) == Rank(c1) && KeepsShut(c1, c2)
    requires c2.ending == c1.ending && c2.alive == c1.alive
    ensures Progress(conn, c2)
  {
    GrowsOn(conn, c1, c2);
  }

  lemma ReleaseProgress(conn: Conn, w: Way, more: bool)
    requires Running(conn) && conn.Get(w).acts == [Thread(Release, more)]
    ensures Progress(conn, DoRelease(conn, w, 0, more))
  {
    ReleaseIs(conn, w, more);
    ReleaseRank(conn, w, more);
    ReleaseGrows(conn, w);
  }

  lemma ReleaseGrows(conn: Conn, w: Way)
    ensures var f := conn.Get(w).(gone := true, acts := []);
            && BothGrow(conn, conn.Set(w, f).(refs := 0, ending := [Unlink]))
            && BothGrow(conn, conn.Set(w, f).(refs := 1))
            && (w == Up ==> BothGrow(conn, conn.(up := f, down := conn.down.(acts := [Thread(GiveBuf, false)]), refs := 1)))
  {
  }

  lemma ReleaseRank(conn: Conn, w: Way, more: bool)
    requires Running(conn) && conn.Get(w).acts == [Thread(Release, more)]
    ensures var f := conn.Get(w).(gone := true, acts := []);
            && Rank(conn.Set(w, f).(refs := 0, ending := [Unlink])) < Rank(conn)
            && Rank(conn.Set(w, f).(refs := 1)) < Rank(conn)
            && (more ==> Rank(conn.(up := f, down := conn.down.(acts := [Thread(GiveBuf, false)]), refs := 1)) < Rank(conn))
  {
    assert more ==> FlowRank(conn.down) == 10;
  }

  // ------------------------------------------------------------------ progress of the pool

  /** Only connection c changed, with progress; or nothing did, which takes a reason to be `stuck`. */
  predicate Advanced(s: State, s': State, c: nat, stuck: bool)
    requires c in s.conns
  {
    (stuck && s' == s) || (c in s'.conns && s'.conns == s.conns[c := s'.conns[c]] && Progress(s.conns[c], s'.conns[c]))
  }

  lemma PutAdvances(s: State, c: nat, conn: Conn, bufs: Bufs)
    requires c in s.conns && Progress(s.conns[c], conn)
    ensures Advanced(s, Put(s, c, conn).(bufs := bufs), c, false) && Advanced(s, Put(s, c, conn), c, false)
  {
  }

  lemma TakeBufAdvances(s: State, c: nat, w: Way, more: bool, ok: bool)
    requires c in s.conns && Running(s.conns[c]) && s.conns[c].Get(w).acts == [Thread(TakeBuf, more)]
    ensures Advanced(s, DoTask(s, c, w, 0, TakeBuf, more, ok), c, !LockFree(s))
  {
    var conn := s.conns[c];
    var (bufs, b) := PopBuf(s.bufs, D(c, w), ok);
    var task := if b.At? then PostRead else Abort(Cas);
    GotoProgress(conn, w, b, TakeBuf, task, more);
    PutAdvances(s, c, Goto(conn.Set(w, conn.Get(w).(buf := b)), w, 0, task, more), bufs);
  }

  lemma GiveBufAdvances(s: State, c: nat, w: Way, more: bool, ok: bool)
    requires c in s.conns && Running(s.conns[c]) && s.conns[c].Get(w).acts == [Thread(GiveBuf, more)]
    ensures Advanced(s, DoTask(s, c, w, 0, GiveBuf, more, ok), c, !LockFree(s))
  {
    var conn := s.conns[c];
    var f := conn.Get(w);
    var full := f.buf.At? && |s.bufs.pool| >= POOL_KEEP;
    var task := if full then FreeSpill(f.buf.id) else PostWait;
    GotoProgress(conn, w, Nil, GiveBuf, task, more);
    var c1 := conn.Set(w, f.(buf := Nil));
    assert f.buf.Nil? ==> c1 == conn;
    PutAdvances(s, c, Goto(c1, w, 0, task, more), if f.buf.At? then PushBuf(s.bufs, D(c, w), f.buf.id) else s.bufs);
  }

  lemma FreeSpillAdvances(s: State, c: nat, w: Way, b: nat, more: bool, ok: bool)
    requires c in s.conns && Running(s.conns[c]) && s.conns[c].Get(w).acts == [Thread(FreeSpill(b), more)]
    ensures Advanced(s, DoTask(s, c, w, 0, FreeSpill(b), more, ok), c, !LockFree(s))
  {
    var conn := s.conns[c];
    assert conn.Set(w, conn.Get(w).(buf := conn.Get(w).buf)) == conn;
    GotoProgress(conn, w, conn.Get(w).buf, FreeSpill(b), PostWait, more);
    PutAdvances(s, c, Goto(conn, w, 0, PostWait, more), FreeBuf(s.bufs, b));
  }

  lemma TaskAdvances(s: State, c: nat, w: Way, task: Task, more: bool, ok: bool)
    requires Inv(s) && c in s.conns && s.conns[c].Get(w).acts == [Thread(task, more)]
    ensures Advanced(s, DoTask(s, c, w, 0, task, more, ok), c, !LockFree(s))
  {
    RelaySteps.Holder(s, c, w, 0);
    HeldAdvances(s, c, w, task, more, ok);
  }

  lemma HeldAdvances(s: State, c: nat, w: Way, task: Task, more: bool, ok: bool)
    requires c in s.conns && s.conns[c].Get(w).acts == [Thread(task, more)]
    requires Running(s.conns[c]) && !s.conns[c].fault && FlowOk(s.conns[c].Get(w), s.bufs.mem)
    ensures Advanced(s, DoTask(s, c, w, 0, task, more, ok), c, !LockFree(s))
  {
    match task
    case TakeBuf => TakeBufAdvances(s, c, w, more, ok);
    case GiveBuf => GiveBufAdvances(s, c, w, more, ok);
    case FreeSpill(b) => FreeSpillAdvances(s, c, w, b, more, ok);
    case _ =>
      var conn' := DoTask(s, c, w, 0, task, more, ok).conns[c];
      OwnProgress(s, c, w, task, more, ok);
      PutAdvances(s, c, conn', s.bufs);
  }

  /** The tasks that touch neither the lock nor the buffers. */
  lemma OwnProgress(s: State, c: nat, w: Way, task: Task, more: bool, ok: bool)
    requires c in s.conns && s.conns[c].Get(w).acts == [Thread(task, more)]
    requires Running(s.conns[c]) && !s.conns[c].fault && FlowOk(s.conns[c].Get(w), s.bufs.mem)
    requires !task.TakeBuf? && !task.GiveBuf? && !task.FreeSpill?
    ensures var s' := DoTask(s, c, w, 0, task, more, ok);
            c in s'.conns && s' == Put(s, c, s'.conns[c]) && Progress(s.conns[c], s'.conns[c])
  {
    var conn := s.conns[c];
    var f := conn.Get(w);
    match task
    case Handle(good, n) => HandleProgress(conn, w, good, n, more, s.bufs.mem);
    case PostRead => PostProgress(conn, w, OpRead(f.buf.id), ok, task, more);
    case PostSend => PostProgress(conn, w, OpSend(f.buf.id, f.off, f.len), ok, task, more);
    case PostWait => PostProgress(conn, w, OpWait, ok, task, more);
    case HalfClose => HalfCloseProgress(conn, w, more);
    case Abort(at) => AbortProgress(conn, w, at, more);
    case Release => ReleaseProgress(conn, w, more);
  }

  lemma ReadAdvances(s: State, c: nat, w: Way, b: nat, x: bool, out: Outcome)
    requires c in s.conns && Running(s.conns[c]) && s.conns[c].Get(w).acts == [Kernel(OpRead(b), x)]
    requires b in s.bufs.mem && !s.conns[c].Get(w).eof
    ensures Advanced(s, DoComplete(s, c, w, 0, OpRead(b), out), c, out != Fine([], 0))
  {
    if |out.data| <= BUF_SIZE {
      RelaySteps.ReadIs(s, c, w, b, out);
      MoveProgress(s.conns[c], w, RelaySteps.AfterRead(s.conns[c].Get(w), out));
      PutAdvances(s, c, s.conns[c].Set(w, RelaySteps.AfterRead(s.conns[c].Get(w), out)),
                  s.bufs.(mem := s.bufs.mem[b := out.data]));
    }
  }

  lemma SendAdvances(s: State, c: nat, w: Way, b: nat, off: nat, len: nat, x: bool, out: Outcome)
    requires c in s.conns && Running(s.conns[c]) && s.conns[c].Get(w).acts == [Kernel(OpSend(b, off, len), x)]
    requires b in s.bufs.mem && off <= len <= |s.bufs.mem[b]| && !s.conns[c].Get(w).eof
    ensures Advanced(s, DoComplete(s, c, w, 0, OpSend(b, off, len), out), c, out != Fine([], 0))
  {
    if out.n <= len - off {
      var g := RelaySteps.AfterSend(s.conns[c].Get(w), s.bufs.mem[b][off..off + out.n], out.Fine?, out.n);
      RelaySteps.SendIs(s, c, w, b, off, len, out);
      MoveProgress(s.conns[c], w, g);
      PutAdvances(s, c, s.conns[c].Set(w, g), s.bufs);
    }
  }

  lemma WaitAdvances(s: State, c: nat, w: Way, x: bool, out: Outcome)
    requires c in s.conns && Running(s.conns[c]) && s.conns[c].Get(w).acts == [Kernel(OpWait, x)]
    ensures Advanced(s, DoComplete(s, c, w, 0, OpWait, out), c, out != Fine([], 0))
  {
    BecomeIs(s.conns[c], w, [Packet(out.Fine?, 0)]);
    MoveProgress(s.conns[c], w, s.conns[c].Get(w).(acts := [Packet(out.Fine?, 0)]));
  }

  lemma CompleteAdvances(s: State, c: nat, w: Way, op: Op, x: bool, out: Outcome)
    requires Inv(s) && c in s.conns && s.conns[c].Get(w).acts == [Kernel(op, x)]
    ensures Advanced(s, DoComplete(s, c, w, 0, op, out), c, out != Fine([], 0))
  {
    RelaySteps.Holder(s, c, w, 0);
    match op
    case OpWait => WaitAdvances(s, c, w, x, out);
    case OpRead(b) =>
      RelaySteps.OwnBuf(s, c, w);
      ReadAdvances(s, c, w, b, x, out);
    case OpSend(b, off, len) =>
      RelaySteps.SendRange(s.conns[c].Get(w), b, off, len, x, s.bufs.mem);
      SendAdvances(s, c, w, b, off, len, x, out);
  }

  /** An operation that does not complete moves no bytes. */
  lemma NothingCarried(s: State, c: nat, w: Way, op: Op, x: bool, out: Outcome)
    requires c in s.conns && s.conns[c].Get(w).acts == [Kernel(op, x)] && DoComplete(s, c, w, 0, op, out) == s
    ensures Carried(s, c, w, op, out) == s.wires
  {
    match op
    case OpWait =>
    case OpRead(b) => if b in s.bufs.mem && |out.data| <= BUF_SIZE { RelaySteps.ReadIs(s, c, w, b, out); }
    case OpSend(b, off, len) =>
      if b in s.bufs.mem && off <= len <= |s.bufs.mem[b]| && out.n <= len - off { RelaySteps.SendIs(s, c, w, b, off, len, out); }
  }

  lemma KernelAdvances(s: State, c: nat, w: Way, op: Op, x: bool, out: Outcome)
    requires Inv(s) && c in s.conns && s.conns[c].Get(w).acts == [Kernel(op, x)]
    ensures Advanced(s, DoComplete(s, c, w, 0, op, out).(wires := Carried(s, c, w, op, out)), c, out != Fine([], 0))
  {
    CompleteAdvances(s, c, w, op, x, out);
    if DoComplete(s, c, w, 0, op, out) == s { NothingCarried(s, c, w, op, x, out); }
  }

  lemma PacketAdvances(s: State, c: nat, w: Way, good: bool, n: nat)
    requires c in s.conns && Running(s.conns[c]) && s.conns[c].Get(w).acts == [Packet(good, n)]
    ensures Advanced(s, Put(s, c, Goto(s.conns[c], w, 0, Handle(good, n), false)), c, false)
  {
    BecomeIs(s.conns[c], w, [Thread(Handle(good, n), false)]);
    MoveProgress(s.conns[c], w, s.conns[c].Get(w).(acts := [Thread(Handle(good, n), false)]));
  }

  lemma WorkAdvances(s: State, c: nat, w: Way, k: nat, ok: bool, out: Outcome)
    requires Inv(s) && c in s.conns
    ensures Advanced(s, DoWork(s, c, w, k, ok, out), c,
                     !LockFree(s) || k >= |s.conns[c].Get(w).acts| || out != Fine([], 0))
  {
    if k < |s.conns[c].Get(w).acts| {
      RelaySteps.Holder(s, c, w, k);
      var f := s.conns[c].Get(w);
      assert f.acts == [f.acts[0]];
      match f.acts[0]
      case Packet(good, n) => PacketAdvances(s, c, w, good, n);
      case Kernel(op, x) => KernelAdvances(s, c, w, op, x, out);
      case Thread(task, more) => TaskAdvances(s, c, w, task, more, ok);
    }
  }

  lemma StageProgress(conn: Conn, conn': Conn)
    requires Closing(conn) && RelayLifetime.Advances(conn, conn')
    requires !conn'.alive || (conn'.alive && |conn'.ending| == 1 && StageRank(conn'.ending[0]) < StageRank(conn.ending[0]))
    ensures Progress(conn, conn')
  {
  }

  lemma GiveAdvances(s: State, c: nat, w: Way)
    requires c in s.conns && Closing(s.conns[c]) && !s.conns[c].fault && s.conns[c].ending == [Give(w)]
    ensures Advanced(s, DoTearDown(s, c, 0), c, !LockFree(s))
  {
    var full := |s.bufs.pool| >= POOL_KEEP;
    var conn' := RelayLifetime.Gave(s.conns[c], w, full);
    RelayLifetime.GiveDoes(s, c, w);
    GiveProgress(s.conns[c], w, full);
    PutAdvances(s, c, conn', if s.conns[c].Get(w).buf.At? then PushBuf(s.bufs, D(c, w), s.conns[c].Get(w).buf.id) else s.bufs);
  }

  lemma GiveProgress(conn: Conn, w: Way, full: bool)
    requires Closing(conn) && !conn.fault && conn.ending == [Give(w)]
    ensures Progress(conn, RelayLifetime.Gave(conn, w, full))
  {
    RelayLifetime.GiveIs(conn, w, full);
    StageProgress(conn, RelayLifetime.Gave(conn, w, full));
  }

  lemma CloseProgress(conn: Conn, side: Side)
    requires Closing(conn) && !conn.fault && conn.ending == [if side == Client then CloseClient else CloseProxy]
    ensures Progress(conn, DoClose(conn, 0, side))
  {
    RelayLifetime.ClosedIs(conn, side);
    StageProgress(conn, DoClose(conn, 0, side));
  }

  lemma UnlinkProgress(conn: Conn)
    requires Closing(conn) && !conn.fault && conn.ending == [Unlink]
    ensures Progress(conn, SetStage(conn, 0, [CloseClient]).(hist := conn.hist.(unlinked := conn.hist.unlinked + 1)))
  {
    RelayLifetime.StageIs(conn, CloseClient);
    StageProgress(conn, conn.(ending := [CloseClient], hist := conn.hist.(unlinked := conn.hist.unlinked + 1)));
  }

  lemma SpillProgress(conn: Conn, w: Way, b: nat)
    requires Closing(conn) && !conn.fault && conn.ending == [Spill(w, b)]
    ensures Progress(conn, SetStage(conn, 0, [AfterGive(w)]))
  {
    RelayLifetime.SpillIs(conn, w, b);
    StageProgress(conn, conn.(ending := [AfterGive(w)]));
  }

  lemma FreeProgress(conn: Conn)
    requires Closing(conn) && !conn.fault && conn.ending == [FreeConn]
    ensures Progress(conn, DoFree(SetStage(conn, 0, [])))
  {
    RelayLifetime.StageIs(conn, FreeConn);
    StageProgress(conn, DoFree(conn.(ending := [])));
  }

  /** The stages that involve no choice. */
  lemma PlainStageAdvances(s: State, c: nat)
    requires c in s.conns && Closing(s.conns[c]) && !s.conns[c].fault && !s.conns[c].ending[0].Give?
    ensures Advanced(s, DoTearDown(s, c, 0), c, !LockFree(s))
  {
    var conn := s.conns[c];
    assert conn.ending == [conn.ending[0]];
    match conn.ending[0]
    case Unlink => UnlinkProgress(conn);
    case CloseClient =>
      CloseProgress(conn, Client);
    case CloseProxy =>
      CloseProgress(conn, Proxy);
    case Spill(w, b) => SpillProgress(conn, w, b);
    case FreeConn => FreeProgress(conn);
  }

  lemma TearDownAdvances(s: State, c: nat, k: nat)
    requires Inv(s) && c in s.conns
    ensures Advanced(s, DoTearDown(s, c, k), c, !LockFree(s) || k >= |s.conns[c].ending|)
  {
    if k < |s.conns[c].ending| {
      RelayLifetime.Keeper(s, c, k);
      if s.conns[c].ending[0].Give? {
        GiveAdvances(s, c, s.conns[c].ending[0].w);
      } else {
        PlainStageAdvances(s, c);
      }
    }
  }

  lemma WalkAdvances(s: State)
    requires Inv(s) && s.walk.Walk?
    ensures var c, s' := s.walk.c, DoWalk(s);
            && c in s.conns && c in s'.conns && s'.conns == s.conns[c := s'.conns[c]] && BothGrow(s.conns[c], s'.conns[c])
            && KeepsShut(s.conns[c], s'.conns[c]) && Rank(s'.conns[c]) == Rank(s.conns[c])
            && (Sinks(s.conns[c]) ==> Sinks(s'.conns[c]))
  {
    RelayLifetime.WalkerOn(s);
    RelayLifetime.WalkIs(s);
    WalkRank(s.conns[s.walk.c], s.walk.at);
  }

  lemma WalkRank(conn: Conn, p: AbortAt)
    requires Structure(conn, true) && AbortOk(conn, p)
    ensures var c' := AbortEffect(conn, p);
            && BothGrow(conn, c') && Rank(c') == Rank(conn) && KeepsShut(conn, c')
            && c'.ending == conn.ending && c'.alive == conn.alive
  {
    if Running(conn) {
      EffectRank(conn, p);
    } else {
      RelayLifetime.EffectOnClosing(conn, p);
    }
  }

  /** The steps that work on connection c. */
  predicate WorksOn(e: Step, c: nat) { (e.Work? && e.c == c) || (e.TearDown? && e.c == c) }

  /** ... and what they may do to it. */
  ghost predicate Fares(s: State, s': State, c: nat, works: bool)
    requires c in s.conns
  {
    && c in s'.conns && BothGrow(s.conns[c], s'.conns[c]) && KeepsShut(s.conns[c], s'.conns[c])
    && (Sinks(s.conns[c]) ==>
          && Sinks(s'.conns[c]) && Rank(s'.conns[c]) <= Rank(s.conns[c])
          && (works && s' != s ==> Rank(s'.conns[c]) < Rank(s.conns[c])))
  }

  lemma WorkFares(s: State, e: Step, c: nat)
    requires Inv(s) && c in s.conns && (e.Work? || e.TearDown?)
    ensures Fares(s, Next(s, e), c, WorksOn(e, c))
  {
    match e
    case Work(c', w, k, ok, out) =>
      if c' == c { WorkAdvances(s, c, w, k, ok, out); } else { WorkElsewhere(s, c', w, k, ok, out, c); }
    case TearDown(c', k) =>
      if c' == c { TearDownAdvances(s, c, k); } else { TearDownElsewhere(s, c', k, c); }
  }

  /**
   One step of any kind: streams of c only grow and are final after the half-close; a shut socket
   stays shut; and once both are shut, every step that works on c lowers its rank while no other
   step raises it.
   */
  lemma StepOn(s: State, e: Step, c: nat)
    requires Inv(s) && c in s.conns
    ensures Fares(s, Next(s, e), c, WorksOn(e, c))
  {
    match e
    case Work(_, _, _, _, _) => WorkFares(s, e, c);
    case TearDown(_, _) => WorkFares(s, e, c);
    case Admit(c', running) => AdmitGrows(s, c', running, c);
    case WalkOn => WalkFares(s, c);
    case _ => assert ConnOk(s, c, s.conns[c]); ConnsKept(s, e, c);
  }

  lemma ReachLast(es: seq<Step>, more: seq<Step>)
    requires more != []
    ensures Reach(es + more) == Next(Reach(es + more[..|more| - 1]), more[|more| - 1])
  {
    LastOf(es, more);
  }

  lemma LastOf(es: seq<Step>, more: seq<Step>)
    requires more != []
    ensures var all := es + more; all[..|all| - 1] == es + more[..|more| - 1] && all[|all| - 1] == more[|more| - 1]
  {
  }

  /** Going on from a reachable state is a longer run. */
  lemma {:induction false} ContinueReach(es: seq<Step>, more: seq<Step>)
    ensures Continue(Reach(es), more) == Reach(es + more)
    decreases |more|
  {
    if more == [] {
      assert es + more == es;
    } else {
      ReachLast(es, more[..1]);
      assert es + more[..1][..0] == es && (es + more[..1]) + more[1..] == es + more;
      ContinueReach(es + more[..1], more[1..]);
    }
  }

  /** From any point of a run on, streams only grow; after the half-close nothing more is read or sent. */
  lemma {:induction false} RunGrows(es: seq<Step>, more: seq<Step>, c: nat)
    requires c in Reach(es).conns
    ensures c in Reach(es + more).conns && BothGrow(Reach(es).conns[c], Reach(es + more).conns[c])
    decreases |more|
  {
    if more == [] {
      assert es + more == es;
    } else {
      var init := more[..|more| - 1];
      RunGrows(es, init, c);
      RelayLifetime.RunInv(es + init);
      StepOn(Reach(es + init), more[|more| - 1], c);
      ReachLast(es, more);
      GrowsOn(Reach(es).conns[c], Reach(es + init).conns[c], Reach(es + more).conns[c]);
    }
  }

  lemma GrowsOn(a: Conn, b: Conn, c: Conn)
    requires BothGrow(a, b) && BothGrow(b, c)
    ensures BothGrow(a, c)
  {
  }

  lemma WalkFares(s: State, c: nat)
    requires Inv(s) && c in s.conns
    ensures Fares(s, DoWalk(s), c, false)
  {
    if s.walk.Walk? { WalkAdvances(s); }
  }

  lemma ConnsKept(s: State, e: Step, c: nat)
    requires c in s.conns && c < s.nextConn && (e.BeginStart? || e.BeginAbort? || e.StopFree?)
    ensures c in Next(s, e).conns && Next(s, e).conns[c] == s.conns[c]
  {
  }

  lemma AdmitGrows(s: State, c': nat, running: bool, c: nat)
    requires Inv(s) && c in s.conns
    ensures var s' := DoAdmit(s, c', running);
            && c in s'.conns && BothGrow(s.conns[c], s'.conns[c])
            && KeepsShut(s.conns[c], s'.conns[c])
            && (Sinks(s.conns[c]) ==> s'.conns[c] == s.conns[c])
  {
    if c' == c && s.conns[c].starting != 0 && LockFree(s) {
      RelayLifetime.Unpublished(s, c);
      RelayLifetime.AdmitIs(s, c, running);
    } else {
      AdmitOther(s, c', running, c);
    }
  }

  /** How many of the steps do work on c. */
  function Worked(s: State, es: seq<Step>, c: nat): nat
    decreases |es|
  {
    if es == [] then 0
    else (if WorksOn(es[0], c) && Next(s, es[0]) != s then 1 else 0) + Worked(Next(s, es[0]), es[1..], c)
  }

  /**
   Drain of one connection: once it can only go down, no continuation, however scheduled, can work
   on it more often than its rank (at most 33).
   */
  lemma {:induction false} DrainBound(s: State, es: seq<Step>, c: nat)
    requires Inv(s) && c in s.conns && Sinks(s.conns[c])
    ensures var t := Continue(s, es); c in t.conns && Worked(s, es, c) + Rank(t.conns[c]) <= Rank(s.conns[c])
    decreases |es|
  {
    if es == [] {
    } else {
      StepOn(s, es[0], c);
      RelayLifetime.NextKeeps(s, es[0]);
      DrainBound(Next(s, es[0]), es[1..], c);
    }
  }

  lemma RankBound(conn: Conn, listed: bool)
    requires Structure(conn, listed)
    ensures Rank(conn) <= 33 && (Rank(conn) == 0 <==> !conn.alive)
  {
  }

  /** ... and as long as c is not freed and the lock is free, some step does work on it. */
  lemma DrainMoves(s: State, c: nat) returns (e: Step)
    requires Inv(s) && c in s.conns && s.conns[c].alive && Sinks(s.conns[c]) && LockFree(s)
    ensures WorksOn(e, c) && Next(s, e) != s
  {
    var conn := s.conns[c];
    assert ConnOk(s, c, conn);
    if |conn.ending| > 0 {
      e := TearDown(c, 0);
      TearDownAdvances(s, c, 0);
    } else if |conn.up.acts| > 0 {
      e := Work(c, Up, 0, true, Fine([], 0));
      WorkAdvances(s, c, Up, 0, true, Fine([], 0));
    } else {
      e := Work(c, Down, 0, true, Fine([], 0));
      WorkAdvances(s, c, Down, 0, true, Fine([], 0));
    }
  }

  // ------------------------------------------------------------------ lifetime

  predicate Counted(conn: Conn) {
    conn.alive && conn.starting == 0 ==> conn.refs == Live(conn.up) + Live(conn.down)
  }

  predicate HeldOnce(conn: Conn, w: Way) {
    && (conn.Get(w).gone ==> conn.Get(w).acts == [])
    && (conn.alive && conn.starting == 0 && !conn.Get(w).gone ==>
          |conn.Get(w).acts| == 1 || (w == Down && conn.down.acts == [] && StartsDown(conn.up.acts)))
  }

  predicate ReleasedOnce(conn: Conn) {
    var h := conn.hist;
    && h.unlinked <= 1 && h.closedClient <= 1 && h.closedProxy <= 1 && h.freed <= 1
    && (!conn.alive <==> h.freed == 1)
    && (!conn.alive && h.linked == 1 ==> h == Hist(1, 1, 1, 1, 1))
    && (h.linked == 0 ==> h.unlinked == 0 && h.closedClient == 0 && h.closedProxy == 0)
  }

  /**
   In every state of every run: nothing freed is touched, nothing is freed twice and no closed socket
   is used; a published connection counts its live directions in refs; a live direction is held by
   exactly one thread, one kernel operation or one packet (dir[1] may still be waiting for
   relay_start); and a freed connection was unlinked, closed on both sides and freed exactly once.
   */
  lemma Lifetime(es: seq<Step>, c: nat, w: Way)
    requires c in Reach(es).conns
    ensures var s := Reach(es);
            var conn := s.conns[c];
            && !s.fault && !s.list.fault && !s.bufs.fault && !conn.fault
            && Counted(conn) && HeldOnce(conn, w) && ReleasedOnce(conn)
  {
    RelayLifetime.RunInv(es);
    assert ConnOk(Reach(es), c, Reach(es).conns[c]);
    LifeOf(Reach(es).conns[c], c in Reach(es).list.order, w);
  }

  lemma LifeOf(conn: Conn, listed: bool, w: Way)
    requires Structure(conn, listed)
    ensures !conn.fault && Counted(conn) && HeldOnce(conn, w) && ReleasedOnce(conn)
  {
  }

  /** A freed connection is never touched again, not even by a pool abort walking the list. */
  lemma DeadStays(es: seq<Step>, e: Step, c: nat)
    requires c in Reach(es).conns && !Reach(es).conns[c].alive
    ensures var s' := Next(Reach(es), e); c in s'.conns && s'.conns[c] == Reach(es).conns[c] && !s'.fault
    ensures Reach(es).walk.Walk? ==> Reach(es).walk.c != c
  {
    var s := Reach(es);
    RelayLifetime.RunInv(es);
    RelayLifetime.NextKeeps(s, e);
    assert ConnOk(s, c, s.conns[c]);
    if s.walk.Walk? { RelayLifetime.WalkerOn(s); RelayLifetime.WalkIs(s); }
    OnlyTouched(s, e, c);
  }

  lemma WorkElsewhere(s: State, c': nat, w: Way, k: nat, ok: bool, out: Outcome, c: nat)
    requires Inv(s) && c in s.conns && c != c'
    ensures var s' := DoWork(s, c', w, k, ok, out); c in s'.conns && s'.conns[c] == s.conns[c]
  {
    if c' in s.conns { WorkAdvances(s, c', w, k, ok, out); }
  }

  lemma TearDownElsewhere(s: State, c': nat, k: nat, c: nat)
    requires Inv(s) && c in s.conns && c != c'
    ensures var s' := DoTearDown(s, c', k); c in s'.conns && s'.conns[c] == s.conns[c]
  {
    if c' in s.conns { TearDownAdvances(s, c', k); }
  }

  lemma OnlyTouched(s: State, e: Step, c: nat)
    requires Inv(s) && c in s.conns && c < s.nextConn && Dead(s.conns[c])
    requires s.walk.Walk? ==> s.walk.c != c
    ensures c in Next(s, e).conns && Next(s, e).conns[c] == s.conns[c]
  {
    match e
    case Work(c', w, k, ok, out) => if c' != c { WorkElsewhere(s, c', w, k, ok, out, c); }
    case TearDown(c', k) => if c' != c { TearDownElsewhere(s, c', k, c); }
    case _ => NotTouched(s, e, c);
  }

  lemma NotTouched(s: State, e: Step, c: nat)
    requires c in s.conns && c < s.nextConn && Dead(s.conns[c]) && !e.Work? && !e.TearDown?
    requires s.walk.Walk? ==> s.walk.c != c
    ensures c in Next(s, e).conns && Next(s, e).conns[c] == s.conns[c]
  {
    match e
    case Admit(c', running) => AdmitOther(s, c', running, c);
    case WalkOn => WalkOther(s, c);
    case _ => ConnsKept(s, e, c);
  }

  lemma AdmitOther(s: State, c': nat, running: bool, c: nat)
    requires c in s.conns && (c' == c ==> s.conns[c].starting == 0 || !LockFree(s))
    ensures c in DoAdmit(s, c', running).conns && DoAdmit(s, c', running).conns[c] == s.conns[c]
  {
  }

  lemma WalkOther(s: State, c: nat)
    requires c in s.conns && (s.walk.Walk? ==> s.walk.c != c)
    ensures c in DoWalk(s).conns && DoWalk(s).conns[c] == s.conns[c]
  {
  }

  /**
   The list holds exactly the connections that are published and not yet unlinked, correctly linked
   both ways; the counter is its length and the done event is signalled exactly when it is empty.
   */
  lemma LiveList(es: seq<Step>)
    ensures var s := Reach(es);
            && ListOk(s.list)
            && (forall c :: c in s.conns ==>
                  (c in s.list.order <==> s.conns[c].hist.linked == 1 && s.conns[c].hist.unlinked == 0))
  {
    RelayLifetime.RunInv(es);
    var s := Reach(es);
    forall c | c in s.conns
      ensures c in s.list.order <==> s.conns[c].hist.linked == 1 && s.conns[c].hist.unlinked == 0
    {
      assert ConnOk(s, c, s.conns[c]);
    }
  }

  /** After relay_pool_abort nothing is admitted any more. */
  lemma NoAdmission(es: seq<Step>, e: Step)
    requires Reach(es).aborted
    ensures var s, s' := Reach(es), Next(Reach(es), e);
            s'.aborted && !s'.accepting && |s'.list.order| <= |s.list.order|
  {
    RelayLifetime.RunInv(es);
    ListShrinks(Reach(es), e);
  }

  /** Nothing of what the pool's lock protects has changed but the links of freed connections. */
  predicate SameWalk(s: State, s': State) {
    s'.walk == s.walk && s'.list.order == s.list.order && s'.aborted == s.aborted && s'.accepting == s.accepting
  }

  lemma TaskWalk(s: State, c: nat, w: Way, k: nat, task: Task, more: bool, ok: bool)
    requires c in s.conns && k < |s.conns[c].Get(w).acts|
    ensures SameWalk(s, DoTask(s, c, w, k, task, more, ok))
  {
  }

  lemma CompleteWalk(s: State, c: nat, w: Way, k: nat, op: Op, out: Outcome)
    requires c in s.conns && k < |s.conns[c].Get(w).acts|
    ensures SameWalk(s, DoComplete(s, c, w, k, op, out))
  {
  }

  lemma WorkWalk(s: State, c: nat, w: Way, k: nat, ok: bool, out: Outcome)
    ensures SameWalk(s, DoWork(s, c, w, k, ok, out))
  {
    if c in s.conns && k < |s.conns[c].Get(w).acts| {
      match s.conns[c].Get(w).acts[k]
      case Thread(task, more) => TaskWalk(s, c, w, k, task, more, ok);
      case Kernel(op, _) => CompleteWalk(s, c, w, k, op, out);
      case Packet(_, _) =>
    }
  }

  predicate Shrinks(s: State, s': State) { s'.aborted && !s'.accepting && |s'.list.order| <= |s.list.order| }

  lemma TearDownShrinks(s: State, c: nat, k: nat)
    requires s.aborted && !s.accepting
    ensures Shrinks(s, DoTearDown(s, c, k))
  {
    ShorterWithout(s.list.order, c);
  }

  lemma AdmitShrinks(s: State, c: nat, running: bool)
    requires s.aborted && !s.accepting
    ensures Shrinks(s, DoAdmit(s, c, running))
  {
  }

  lemma ListShrinks(s: State, e: Step)
    requires s.aborted && !s.accepting
    ensures Next(s, e).aborted && !Next(s, e).accepting && |Next(s, e).list.order| <= |s.list.order|
  {
    if e.Work? {
      WorkWalk(s, e.c, e.w, e.k, e.ok, e.out);
    } else if e.TearDown? {
      TearDownShrinks(s, e.c, e.k);
    } else if e.Admit? {
      AdmitShrinks(s, e.c, e.running);
    }
  }

  lemma {:induction false} ShorterWithout(order: seq<nat>, c: nat)
    ensures |Without(order, c)| <= |order|
  {
    if order == [] {
    } else {
      ShorterWithout(order[1..], c);
    }
  }

  // ------------------------------------------------------------------ buffers

  /**
   In every state of every run a buffer is in exactly one place: no two directions and no direction
   and the pool share one, the pool holds each at most once and never more than 256, every buffer in
   use is allocated, and a direction waiting for data owns none.
   */
  lemma BufferPlaces(es: seq<Step>, d: DirId, d': DirId, i: nat, j: nat)
    requires d.c in Reach(es).conns && d'.c in Reach(es).conns
    ensures var s := Reach(es);
            var f, f' := s.conns[d.c].Get(d.w), s.conns[d'.c].Get(d'.w);
            && |s.bufs.pool| <= POOL_KEEP
            && (f.buf.At? && f.buf == f'.buf ==> d == d')
            && (f.buf.At? ==> f.buf.id !in s.bufs.pool && f.buf.id in s.bufs.mem)
            && (i < |s.bufs.pool| && j < |s.bufs.pool| && s.bufs.pool[i] == s.bufs.pool[j] ==> i == j)
            && (|f.acts| == 1 && f.acts[0].Kernel? && f.acts[0].op == OpWait ==> f.buf == Nil)
  {
    RelayLifetime.RunInv(es);
    PlacesOf(Reach(es).conns, Reach(es).bufs, d, d', i, j);
    assert ConnOk(Reach(es), d.c, Reach(es).conns[d.c]);
  }

  lemma PlacesOf(conns: map<nat, Conn>, bufs: Bufs, d: DirId, d': DirId, i: nat, j: nat)
    requires BufsOk(conns, bufs) && d.c in conns && d'.c in conns
    ensures var f, f' := conns[d.c].Get(d.w), conns[d'.c].Get(d'.w);
            && |bufs.pool| <= POOL_KEEP
            && (f.buf.At? && f.buf == f'.buf ==> d == d')
            && (f.buf.At? ==> f.buf.id !in bufs.pool && f.buf.id in bufs.mem)
            && (i < |bufs.pool| && j < |bufs.pool| && bufs.pool[i] == bufs.pool[j] ==> i == j)
  {
    assert RefsOk(bufs, d.c, conns[d.c], d.w) && RefsOk(bufs, d'.c, conns[d'.c], d'.w);
  }

  /** ... and one that a thread is about to free is in no other place either. */
  lemma TransitPlaces(es: seq<Step>, d: DirId, d': DirId)
    requires d.c in Reach(es).conns && d'.c in Reach(es).conns && HandOf(Reach(es).conns[d.c], d.w).At?
    ensures var s := Reach(es);
            var b := HandOf(s.conns[d.c], d.w).id;
            && b in s.bufs.mem && b !in s.bufs.pool && s.conns[d'.c].Get(d'.w).buf != At(b)
            && (HandOf(s.conns[d'.c], d'.w) == At(b) ==> d == d')
  {
    var s := Reach(es);
    RelayLifetime.RunInv(es);
    InTransit(s.conns, s.bufs, d, d');
  }

  lemma InTransit(conns: map<nat, Conn>, bufs: Bufs, d: DirId, d': DirId)
    requires BufsOk(conns, bufs) && d.c in conns && d'.c in conns && HandOf(conns[d.c], d.w).At?
    ensures var b := HandOf(conns[d.c], d.w).id;
            && b in bufs.mem && b !in bufs.pool && conns[d'.c].Get(d'.w).buf != At(b)
            && (HandOf(conns[d'.c], d'.w) == At(b) ==> d == d')
  {
    assert RefsOk(bufs, d.c, conns[d.c], d.w) && RefsOk(bufs, d'.c, conns[d'.c], d'.w);
    assert BufOk(conns, bufs, HandOf(conns[d.c], d.w).id, InHand(d));
  }

  /** Every allocated buffer can be accounted for: pooled, owned by a direction, or about to be freed. */
  lemma NoLeak(es: seq<Step>, b: nat)
    requires b in Reach(es).bufs.mem
    ensures var s := Reach(es);
            || b in s.bufs.pool
            || (exists d: DirId :: d.c in s.conns && (s.conns[d.c].Get(d.w).buf == At(b) || HandOf(s.conns[d.c], d.w) == At(b)))
  {
    RelayLifetime.RunInv(es);
    var s := Reach(es);
    assert BufOk(s.conns, s.bufs, b, s.bufs.where[b]);
  }

  ghost predicate Stoppable(s: State) {
    s.aborted && s.list.done && LockFree(s) && (forall c :: c in s.conns ==> Quiet(s.conns[c]))
  }

  lemma AllPooled(es: seq<Step>, b: nat)
    requires Stoppable(Reach(es)) && b in Reach(es).bufs.mem
    ensures b in Reach(es).bufs.pool
  {
    var s := Reach(es);
    RelayLifetime.RunInv(es);
    assert BufOk(s.conns, s.bufs, b, s.bufs.where[b]);
    if s.bufs.where[b].Owned? || s.bufs.where[b].InHand? {
      RelayLifetime.QuietIsDead(s, s.bufs.where[b].d.c);
    }
  }

  /** Once relay_pool_stop has freed the pool, every connection and every buffer is freed. */
  lemma StopFreesAll(es: seq<Step>)
    requires Stoppable(Reach(es))
    ensures var s' := Next(Reach(es), StopFree);
            && !s'.fault && s'.bufs.pool == [] && s'.bufs.mem == map[]
            && (forall c :: c in s'.conns ==> !s'.conns[c].alive)
  {
    var s := Reach(es);
    RelayLifetime.RunInv(es);
    forall c | c in s.conns ensures !s.conns[c].alive { RelayLifetime.QuietIsDead(s, c); }
    forall b | b in s.bufs.mem ensures b in s.bufs.pool { AllPooled(es, b); }
    forall b | b in s.bufs.pool ensures b in s.bufs.mem { assert BufOk(s.conns, s.bufs, b, s.bufs.where[b]); }
    StopIs(s);
  }

  lemma StopIs(s: State)
    requires Stoppable(s) && !s.fault && (forall b :: b in s.bufs.pool <==> b in s.bufs.mem)
    ensures var s' := DoStopFree(s);
            !s'.fault && s'.bufs.pool == [] && s'.bufs.mem == map[] && s'.conns == s.conns
  {
  }

  // ------------------------------------------------------------------ half-close and the other direction

  /** A clean end of stream in one direction leaves the other one exactly as it was, able to receive and send. */
  lemma ReverseUnaffected(es: seq<Step>, c: nat, w: Way, more: bool, ok: bool, out: Outcome)
    requires c in Reach(es).conns && Reach(es).conns[c].Get(w).acts == [Thread(HalfClose, more)]
    ensures var s, s' := Reach(es), Next(Reach(es), Work(c, w, 0, ok, out));
            var conn, conn' := s.conns[c], s'.conns[c];
            && conn'.Get(RelayInvariant.Other(w)) == conn.Get(RelayInvariant.Other(w))
            && Flags(conn') == Flags(conn) && conn'.closing == conn.closing && conn'.refs == conn.refs
            && conn'.Get(w).eof && conn'.Get(w).sent == conn'.Get(w).read
  {
    RelayLifetime.RunInv(es);
    RelaySteps.Holder(Reach(es), c, w, 0);
    HalfCloseReverse(Reach(es).conns[c], w, more, Reach(es).bufs.mem);
  }

  lemma HalfCloseReverse(conn: Conn, w: Way, more: bool, mem: map<nat, seq<byte>>)
    requires Running(conn) && conn.Get(w).acts == [Thread(HalfClose, more)] && FlowOk(conn.Get(w), mem)
    ensures var conn' := DoHalfClose(conn, w, 0, more);
            && conn'.Get(RelayInvariant.Other(w)) == conn.Get(RelayInvariant.Other(w))
            && Flags(conn') == Flags(conn) && conn'.closing == conn.closing && conn'.refs == conn.refs
            && conn'.Get(w).eof && conn'.Get(w).sent == conn'.Get(w).read
  {
    HalfCloseIs(conn, w, more);
  }
}
