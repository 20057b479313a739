/**
 The invariant of the relay pool: what every step of every connection keeps.

 It is split by concern. Structure, AbortOk and FlowOk speak about one connection, so a step only
 has to establish them for the connection it works on; ListOk and BufsOk tie the connections to the
 shared list and the shared buffers.
 */
module RelayInvariant {
  import opened Basics
  import opened RelayPool

  // ------------------------------------------------------------------ one connection: who works on it

  predicate StartsDown(acts: seq<Act>) { |acts| == 1 && acts[0].Thread? && acts[0].more }

  /**
   Every direction that has not ended has exactly one activity: one thread, one operation in the
   kernel, or one packet. Only dir[1] of a connection being started has none yet.
   */
  predicate ActsOk(conn: Conn) {
    && |conn.up.acts| == (if conn.up.gone then 0 else 1)
    && |conn.down.acts| == (if conn.down.gone || StartsDown(conn.up.acts) then 0 else 1)
    && (StartsDown(conn.up.acts) ==> !conn.down.gone)
    && !StartsDown(conn.down.acts)
  }

  function Live(f: Flow): int { if f.gone then 0 else 1 }

  predicate Dead(conn: Conn) {
    && !conn.alive && conn.starting == 0 && conn.ending == []
    && conn.up.gone && conn.down.gone && conn.up.acts == [] && conn.down.acts == []
    && conn.up.buf == Nil && conn.down.buf == Nil
    && (conn.hist == Hist(1, 1, 1, 1, 1) || conn.hist == Hist(0, 0, 0, 0, 1))
  }

  predicate Running(conn: Conn) {
    && conn.alive && conn.starting == 0 && conn.ending == []
    && conn.refs == Live(conn.up) + Live(conn.down) && conn.refs > 0
    && ActsOk(conn)
    && conn.hist == Hist(1, 0, 0, 0, 0) && !conn.client.closed && !conn.proxy.closed
  }

  /** The history and the sockets of a connection whose teardown is about to do `stage`. */
  predicate StageOk(conn: Conn, stage: Teardown) {
    && conn.hist == Hist(1, if stage == Unlink then 0 else 1,
                         if stage == Unlink || stage == CloseClient then 0 else 1,
                         if stage == Unlink || stage == CloseClient || stage == CloseProxy then 0 else 1, 0)
    && conn.client.closed == (conn.hist.closedClient == 1)
    && conn.proxy.closed == (conn.hist.closedProxy == 1)
    && (stage == Give(Down) || stage.Spill? || stage == FreeConn ==> conn.up.buf == Nil)
    && ((stage.Spill? && stage.w == Down) || stage == FreeConn ==> conn.down.buf == Nil)
  }

  predicate Closing(conn: Conn) {
    && conn.alive && conn.starting == 0 && conn.refs == 0
    && conn.up.gone && conn.down.gone && conn.up.acts == [] && conn.down.acts == []
    && |conn.ending| == 1 && StageOk(conn, conn.ending[0])
  }

  predicate Structure(conn: Conn, listed: bool) {
    && !conn.fault
    && (|| (conn == NEW_CONN && !listed)
        || (Running(conn) && listed)
        || (Closing(conn) && (listed <==> conn.ending[0] == Unlink))
        || (Dead(conn) && !listed))
  }

  // ------------------------------------------------------------------ one connection: the one-shot abort

  function Flags(conn: Conn): (bool, bool, bool, bool) {
    (conn.client.shut, conn.proxy.shut, conn.client.cancelled, conn.proxy.cancelled)
  }

  /** The socket flags that the winner of relay_abort has set when it is about to do `at`. */
  function FlagsBefore(at: AbortAt): (bool, bool, bool, bool) {
    match at
    case Cas => (false, false, false, false)
    case ShutClient => (false, false, false, false)
    case ShutProxy => (true, false, false, false)
    case CancelClient => (true, true, false, false)
    case CancelProxy => (true, true, true, false)
  }

  function PosIn(acts: seq<Act>): AbortAt {
    if |acts| == 1 && acts[0].Thread? && acts[0].task.Abort? then acts[0].task.at else Cas
  }

  /** No thread is past the compare-exchange, or one thread is, at `p`. */
  predicate OnlyWinner(a: AbortAt, b: AbortAt, c: AbortAt, p: AbortAt) {
    || (a == p && b == Cas && c == Cas)
    || (a == Cas && b == p && c == Cas)
    || (a == Cas && b == Cas && c == p)
  }

  function Pos(conn: Conn, walk: AbortAt): AbortAt {
    if PosIn(conn.up.acts) != Cas then PosIn(conn.up.acts)
    else if PosIn(conn.down.acts) != Cas then PosIn(conn.down.acts)
    else walk
  }

  predicate CancelOk(conn: Conn, w: Way, acts: seq<Act>) {
    |acts| == 1 && acts[0].Kernel? && conn.Sock(Target(w, acts[0].op)).cancelled ==> acts[0].cancelled
  }

  /** `walk` is where relay_pool_abort is in this connection, Cas if it is not past the exchange. */
  predicate AbortOk(conn: Conn, walk: AbortAt) {
    var p := Pos(conn, walk);
    && OnlyWinner(PosIn(conn.up.acts), PosIn(conn.down.acts), walk, p)
    && (p != Cas ==> conn.closing && Flags(conn) == FlagsBefore(p))
    && (p == Cas && !conn.closing ==> Flags(conn) == (false, false, false, false))
    && (p == Cas && conn.closing ==> Flags(conn) == (true, true, true, true))
    && CancelOk(conn, Up, conn.up.acts) && CancelOk(conn, Down, conn.down.acts)
  }

  // ------------------------------------------------------------------ one direction: its stream

  predicate Settled(f: Flow) { f.read == f.sent }

  /** The unsent rest of what was read is exactly mem[buf][from..to]. */
  predicate Unsent(f: Flow, mem: map<nat, seq<byte>>, from: nat, to: nat) {
    && f.buf.At? && f.buf.id in mem && from <= to <= |mem[f.buf.id]|
    && f.read == f.sent + mem[f.buf.id][from..to]
  }

  /** After an operation that succeeded with n bytes, before the worker has looked at it. */
  predicate DoneGap(f: Flow, mem: map<nat, seq<byte>>, ok: bool, n: nat) {
    ok ==>
      match f.state
      case Wait => f.buf == Nil && Settled(f)
      case Read => Unsent(f, mem, 0, n)
      case Send => f.off + n <= f.len && Unsent(f, mem, f.off + n, f.len)
  }

  predicate TaskGap(f: Flow, mem: map<nat, seq<byte>>, task: Task) {
    match task
    case Handle(ok, n) => DoneGap(f, mem, ok, n)
    case TakeBuf => f.buf == Nil && Settled(f)
    case PostRead => f.buf.At? && Settled(f)
    case PostSend => f.off < f.len && Unsent(f, mem, f.off, f.len)
    case GiveBuf => Settled(f)
    case FreeSpill(_) => f.buf == Nil && Settled(f)
    case PostWait => f.buf == Nil && Settled(f)
    case HalfClose => Settled(f)
    case Abort(_) => true
    case Release => true
  }

  predicate ActGap(f: Flow, mem: map<nat, seq<byte>>, act: Act) {
    match act
    case Thread(task, _) => TaskGap(f, mem, task)
    case Packet(ok, n) => DoneGap(f, mem, ok, n)
    case Kernel(OpWait, _) => f.state == Wait && f.buf == Nil && Settled(f)
    case Kernel(OpRead(b), _) => f.state == Read && f.buf == At(b) && Settled(f)
    case Kernel(OpSend(b, off, len), _) =>
      && f.state == Send && f.buf == At(b) && f.off == off && f.len == len && off < len
      && Unsent(f, mem, off, len)
  }

  predicate FlowOk(f: Flow, mem: map<nat, seq<byte>>) {
    && f.sent <= f.read
    && (f.eof ==> Settled(f))
    && (f.eof && !f.gone ==> |f.acts| == 1 && f.acts[0].Thread? && f.acts[0].task == Release)
    && (!f.gone && |f.acts| == 0 ==> f.buf == Nil && Settled(f))
    && (|f.acts| == 1 ==> ActGap(f, mem, f.acts[0]))
  }

  // ------------------------------------------------------------------ the live list

  ghost predicate Distinct(order: seq<nat>) {
    forall i, j :: 0 <= i < j < |order| ==> order[i] != order[j]
  }

  ghost predicate LinkOk(list: List, j: int)
    requires 0 <= j < |list.order|
  {
    && list.order[j] in list.links
    && list.links[list.order[j]].prev == (if j == 0 then Nil else At(list.order[j - 1]))
    && list.links[list.order[j]].next == (if j + 1 < |list.order| then At(list.order[j + 1]) else Nil)
  }

  ghost predicate ListOk(list: List) {
    && !list.fault
    && Distinct(list.order)
    && (forall j :: 0 <= j < |list.order| ==> LinkOk(list, j))
    && list.head == (if list.order == [] then Nil else At(list.order[0]))
    && list.active == |list.order|
    && (list.done <==> list.active == 0)
  }

  // ------------------------------------------------------------------ the buffers

  /** The buffer that a thread took off direction w and has still to free. */
  function HandOf(conn: Conn, w: Way): Ref {
    var acts := conn.Get(w).acts;
    if |acts| == 1 && acts[0].Thread? && acts[0].task.FreeSpill? then At(acts[0].task.b)
    else if |conn.ending| == 1 && conn.ending[0].Spill? && conn.ending[0].w == w then At(conn.ending[0].b)
    else Nil
  }

  ghost predicate BufIs(bufs: Bufs, b: nat, l: BufLoc) { b in bufs.where && bufs.where[b] == l }

  /** A buffer is where the history says. */
  ghost predicate BufOk(conns: map<nat, Conn>, bufs: Bufs, b: nat, l: BufLoc) {
    && b < bufs.next
    && (b in bufs.mem <==> l != Freed)
    && match l
       case Pooled(j) => j < |bufs.pool| && bufs.pool[j] == b
       case Owned(d) => d.c in conns && conns[d.c].Get(d.w).buf == At(b)
       case InHand(d) => d.c in conns && HandOf(conns[d.c], d.w) == At(b)
       case Freed => true
  }

  /** ... and the history knows the buffers of a connection. */
  ghost predicate RefsOk(bufs: Bufs, c: nat, conn: Conn, w: Way) {
    && (conn.Get(w).buf.At? ==> BufIs(bufs, conn.Get(w).buf.id, Owned(D(c, w))))
    && (HandOf(conn, w).At? ==> BufIs(bufs, HandOf(conn, w).id, InHand(D(c, w))))
  }

  ghost predicate PoolOk(bufs: Bufs) {
    && !bufs.fault
    && |bufs.pool| <= POOL_KEEP
    && (forall j :: 0 <= j < |bufs.pool| ==> BufIs(bufs, bufs.pool[j], Pooled(j)))
    && (forall b :: b in bufs.mem ==> b in bufs.where)
  }

  ghost predicate BufsOk(conns: map<nat, Conn>, bufs: Bufs) {
    && PoolOk(bufs)
    && (forall b :: b in bufs.where ==> BufOk(conns, bufs, b, bufs.where[b]))
    && (forall c :: c in conns ==> RefsOk(bufs, c, conns[c], Up) && RefsOk(bufs, c, conns[c], Down))
  }

  // ------------------------------------------------------------------ the whole pool

  function WalkAt(walk: Walker, c: nat): AbortAt { if walk.Walk? && walk.c == c then walk.at else Cas }

  ghost predicate ConnOk(s: State, c: nat, conn: Conn) {
    && c < s.nextConn
    && Structure(conn, c in s.list.order)
    && AbortOk(conn, WalkAt(s.walk, c))
    && FlowOk(conn.up, s.bufs.mem) && FlowOk(conn.down, s.bufs.mem)
  }

  ghost predicate ClosingUpTo(s: State, n: int)
    requires n <= |s.list.order|
  { forall i :: 0 <= i < n ==> s.list.order[i] in s.conns && s.conns[s.list.order[i]].closing }

  ghost predicate WalkOk(s: State) {
    && (s.walk.Walk? ==>
          && !s.accepting && s.walk.j < |s.list.order| && s.list.order[s.walk.j] == s.walk.c
          && ClosingUpTo(s, s.walk.j))
    && (s.aborted ==> !s.accepting && ClosingUpTo(s, |s.list.order|))
  }

  ghost predicate Inv(s: State) {
    && !s.fault
    && (forall c :: c in s.conns ==> ConnOk(s, c, s.conns[c]))
    && (forall c :: c in s.list.order ==> c in s.conns)
    && ListOk(s.list)
    && BufsOk(s.conns, s.bufs)
    && WalkOk(s)
  }

  /** The history of the sockets plays no part in it. */
  lemma InvWires(s: State, wires: map<nat, Wire>)
    requires Inv(s)
    ensures Inv(s.(wires := wires))
  {
    var s' := s.(wires := wires);
    forall c | c in s'.conns ensures ConnOk(s', c, s'.conns[c]) { SameConnOk(s, wires, c); }
  }

  lemma SameConnOk(s: State, wires: map<nat, Wire>, c: nat)
    requires c in s.conns && ConnOk(s, c, s.conns[c])
    ensures ConnOk(s.(wires := wires), c, s.conns[c])
  {
  }

  // ------------------------------------------------------------------ steps of one connection

  ghost predicate Good(conn: Conn, at: AbortAt) { Running(conn) && !conn.fault && AbortOk(conn, at) }

  lemma BecomeIs(conn: Conn, w: Way, news: seq<Act>)
    requires |conn.Get(w).acts| == 1
    ensures Become(conn, w, 0, news, false) == conn.Set(w, conn.Get(w).(acts := news))
  {
    assert Replace(conn.Get(w).acts, 0, news) == news;
  }

  /** Replacing the one activity of a direction by another one keeps the rest of the connection intact. */
  lemma MoveKeeps(conn: Conn, w: Way, f: Flow, at: AbortAt)
    requires Good(conn, at)
    requires |conn.Get(w).acts| == 1 && |f.acts| == 1 && !f.gone
    requires PosIn(conn.Get(w).acts) == Cas == PosIn(f.acts)
    requires StartsDown(f.acts) == StartsDown(conn.Get(w).acts)
    requires CancelOk(conn, w, f.acts)
    ensures Good(conn.Set(w, f), at)
  {
  }

  lemma DispatchKeeps(f: Flow, ok: bool, n: nat, more: bool, mem: map<nat, seq<byte>>)
    requires FlowOk(f, mem) && f.acts == [Thread(Handle(ok, n), more)]
    ensures var (g, task) := Dispatch(f, ok, n);
            && g == f.(len := g.len, off := g.off)
            && FlowOk(g.(acts := [Thread(task, more)]), mem)
            && !task.FreeSpill? && (task.Abort? ==> task.at == Cas)
  {
  }

  lemma StartDownKeeps(conn: Conn, f: Flow, at: AbortAt)
    requires Good(conn, at) && StartsDown(conn.up.acts)
    requires PosIn(conn.up.acts) == Cas == PosIn(f.acts)
    requires CancelOk(conn, Up, f.acts) && !StartsDown(f.acts)
    requires if f.gone then |f.acts| == 0 else |f.acts| == 1
    ensures var c' := conn.(up := f, down := conn.down.(acts := [Thread(GiveBuf, false)]),
                            refs := if f.gone then 1 else conn.refs);
            Good(c', at)
  {
  }

  lemma PostedIs(conn: Conn, w: Way, news: seq<Act>, more: bool)
    requires Running(conn) && |conn.Get(w).acts| == 1
    requires more == StartsDown(conn.Get(w).acts)
    ensures Become(conn, w, 0, news, more) ==
            if more then conn.(up := conn.up.(acts := news), down := conn.down.(acts := [Thread(GiveBuf, false)]))
            else conn.Set(w, conn.Get(w).(acts := news))
  {
    assert Replace(conn.Get(w).acts, 0, news) == news;
  }

  /** A direction as it is right after a call that posted `op`. */
  function Posted(f: Flow, op: Op, news: seq<Act>): Flow {
    f.(state := match op case OpWait => Wait case OpRead(_) => Read case OpSend(_, _, _) => Send, acts := news)
  }

  predicate PostTask(f: Flow, task: Task, op: Op) {
    || (task == PostWait && op == OpWait)
    || (task == PostRead && f.buf.At? && op == OpRead(f.buf.id))
    || (task == PostSend && f.buf.At? && op == OpSend(f.buf.id, f.off, f.len))
  }

  lemma PostFlow(f: Flow, op: Op, task: Task, more: bool, mem: map<nat, seq<byte>>)
    requires FlowOk(f, mem) && f.acts == [Thread(task, more)] && PostTask(f, task, op) && !f.gone
    ensures FlowOk(Posted(f, op, [Kernel(op, false)]), mem)
    ensures FlowOk(Posted(f, op, [Thread(Abort(Cas), more)]), mem)
  {
  }

  /** The connection after a failed post, and after a successful one. */
  lemma PostIs(conn: Conn, w: Way, op: Op, ok: bool, task: Task, more: bool)
    requires Running(conn) && conn.Get(w).acts == [Thread(task, more)]
    ensures var f := conn.Get(w);
            DoPost(conn, w, 0, op, ok, more) ==
            if !ok || conn.Sock(Target(w, op)).shut then conn.Set(w, Posted(f, op, [Thread(Abort(Cas), more)]))
            else if more then
              conn.(up := Posted(conn.up, op, [Kernel(op, false)]),
                    down := conn.down.(acts := [Thread(GiveBuf, false)]))
            else conn.Set(w, Posted(f, op, [Kernel(op, false)]))
  {
    if !ok || conn.Sock(Target(w, op)).shut {
      PostFails(conn, w, op, ok, task, more);
    } else {
      PostGoes(conn, w, op, task, more);
    }
  }

  lemma PostFails(conn: Conn, w: Way, op: Op, ok: bool, task: Task, more: bool)
    requires Running(conn) && conn.Get(w).acts == [Thread(task, more)] && (!ok || conn.Sock(Target(w, op)).shut)
    ensures DoPost(conn, w, 0, op, ok, more) == conn.Set(w, Posted(conn.Get(w), op, [Thread(Abort(Cas), more)]))
  {
    BecomeIs(conn.Set(w, Posted(conn.Get(w), op, conn.Get(w).acts)), w, [Thread(Abort(Cas), more)]);
  }

  lemma PostGoes(conn: Conn, w: Way, op: Op, task: Task, more: bool)
    requires Running(conn) && conn.Get(w).acts == [Thread(task, more)] && !conn.Sock(Target(w, op)).shut
    ensures DoPost(conn, w, 0, op, true, more) ==
            if more then
              conn.(up := Posted(conn.up, op, [Kernel(op, false)]),
                    down := conn.down.(acts := [Thread(GiveBuf, false)]))
            else conn.Set(w, Posted(conn.Get(w), op, [Kernel(op, false)]))
  {
    PostedIs(conn.Set(w, Posted(conn.Get(w), op, conn.Get(w).acts)), w, [Kernel(op, false)], more);
  }

  lemma PostKeeps(conn: Conn, w: Way, op: Op, ok: bool, task: Task, more: bool, at: AbortAt)
    requires Good(conn, at)
    requires conn.Get(w).acts == [Thread(task, more)] && PostTask(conn.Get(w), task, op)
    ensures Good(DoPost(conn, w, 0, op, ok, more), at)
  {
    var f := conn.Get(w);
    PostIs(conn, w, op, ok, task, more);
    if !ok || conn.Sock(Target(w, op)).shut {
      MoveKeeps(conn, w, Posted(f, op, [Thread(Abort(Cas), more)]), at);
    } else {
      NotCancelled(conn, Target(w, op), at);
      if more {
        StartDownKeeps(conn, Posted(f, op, [Kernel(op, false)]), at);
      } else {
        MoveKeeps(conn, w, Posted(f, op, [Kernel(op, false)]), at);
      }
    }
  }

  lemma NotCancelled(conn: Conn, side: Side, at: AbortAt)
    requires AbortOk(conn, at) && !conn.Sock(side).shut
    ensures !conn.Sock(side).cancelled
  {
  }

  lemma HalfCloseIs(conn: Conn, w: Way, more: bool)
    requires Running(conn) && conn.Get(w).acts == [Thread(HalfClose, more)]
    ensures DoHalfClose(conn, w, 0, more) ==
            conn.SetSock(Dst(w), conn.Sock(Dst(w)).(halfClosed := true))
                .Set(w, conn.Get(w).(eof := true, acts := [Thread(Release, more)]))
  {
    var c1 := conn.SetSock(Dst(w), conn.Sock(Dst(w)).(halfClosed := true));
    BecomeIs(c1.Set(w, conn.Get(w).(eof := true)), w, [Thread(Release, more)]);
  }

  lemma HalfCloseKeeps(conn: Conn, w: Way, more: bool, at: AbortAt)
    requires Good(conn, at)
    requires conn.Get(w).acts == [Thread(HalfClose, more)]
    ensures Good(DoHalfClose(conn, w, 0, more), at)
  {
    var f := conn.Get(w).(eof := true, acts := [Thread(Release, more)]);
    MoveKeeps(conn, w, f, at);
    HalfClosedKeeps(conn.Set(w, f), Dst(w), at);
    HalfCloseIs(conn, w, more);
    SetSwap(conn, w, f, Dst(w), conn.Sock(Dst(w)).(halfClosed := true));
  }

  lemma SetSwap(conn: Conn, w: Way, f: Flow, side: Side, k: Sock)
    ensures conn.SetSock(side, k).Set(w, f) == conn.Set(w, f).SetSock(side, k)
  {
  }

  lemma HalfClosedKeeps(conn: Conn, side: Side, at: AbortAt)
    requires Good(conn, at)
    ensures Good(conn.SetSock(side, conn.Sock(side).(halfClosed := true)), at)
  {
  }

  lemma CancelIs(conn: Conn, w: Way, side: Side)
    requires Running(conn)
    ensures var c' := CancelIo(conn, side);
            && c' == conn.(up := conn.up.(acts := c'.up.acts), down := conn.down.(acts := c'.down.acts))
            && |c'.Get(w).acts| == |conn.Get(w).acts|
            && (|c'.Get(w).acts| == 1 ==>
                  var a, a' := conn.Get(w).acts[0], c'.Get(w).acts[0];
                  a' == if a.Kernel? && Target(w, a.op) == side then Kernel(a.op, true) else a)
  {
  }

  /** One action of the winner of relay_abort, or of a caller at the compare-exchange. */
  lemma EffectKeeps(conn: Conn, p: AbortAt)
    requires Running(conn) && !conn.fault
    ensures Running(AbortEffect(conn, p)) && !AbortEffect(conn, p).fault
    ensures PosIn(AbortEffect(conn, p).up.acts) == PosIn(conn.up.acts)
    ensures PosIn(AbortEffect(conn, p).down.acts) == PosIn(conn.down.acts)
  {
    if p == CancelClient || p == CancelProxy {
      var side := if p == CancelClient then Client else Proxy;
      var c1 := if p == CancelClient then conn.(client := conn.client.(cancelled := true))
                else conn.(proxy := conn.proxy.(cancelled := true));
      CancelIs(c1, Up, side);
      CancelIs(c1, Down, side);
    }
  }

  lemma AbortIs(conn: Conn, w: Way, p: AbortAt, more: bool)
    requires Running(conn) && conn.Get(w).acts == [Thread(Abort(p), more)]
    ensures var task := if AbortEnds(p, conn.closing) then Release else Abort(AbortNext(p));
            var c1 := conn.Set(w, conn.Get(w).(acts := [Thread(task, more)]));
            Running(c1) && DoAbort(conn, w, 0, p, more) == AbortEffect(c1, p)
  {
    var task := if AbortEnds(p, conn.closing) then Release else Abort(AbortNext(p));
    BecomeIs(conn, w, [Thread(task, more)]);
  }

  /** AbortOk after one action of relay_abort, for whoever is at position p and moves on to `next`. */
  lemma EffectAbortOk(conn: Conn, c1: Conn, p: AbortAt, at: AbortAt, at1: AbortAt)
    requires Good(conn, at) && Running(c1) && !c1.fault
    requires c1.closing == conn.closing && c1.client == conn.client && c1.proxy == conn.proxy
    requires CancelOk(c1, Up, c1.up.acts) && CancelOk(c1, Down, c1.down.acts)
    requires p == Cas || p == Pos(conn, at)
    requires var next := if AbortEnds(p, conn.closing) then Cas else AbortNext(p);
             if p == Cas && conn.closing then
               PosIn(c1.up.acts) == PosIn(conn.up.acts) && PosIn(c1.down.acts) == PosIn(conn.down.acts) && at1 == at
             else OnlyWinner(PosIn(c1.up.acts), PosIn(c1.down.acts), at1, next)
    ensures Good(AbortEffect(c1, p), at1)
  {
    EffectKeeps(c1, p);
    if p == CancelClient || p == CancelProxy {
      EffectCancels(c1, p, Up);
      EffectCancels(c1, p, Down);
    }
  }

  /** A cancellation marks exactly the operations on its socket. */
  lemma EffectCancels(conn: Conn, p: AbortAt, w: Way)
    requires Running(conn) && (p == CancelClient || p == CancelProxy)
    ensures var c', side := AbortEffect(conn, p), if p == CancelClient then Client else Proxy;
            && c'.closing == conn.closing
            && c'.client == (if side == Client then conn.client.(cancelled := true) else conn.client)
            && c'.proxy == (if side == Proxy then conn.proxy.(cancelled := true) else conn.proxy)
            && |c'.Get(w).acts| == |conn.Get(w).acts|
            && (|c'.Get(w).acts| == 1 ==>
                  var a, a' := conn.Get(w).acts[0], c'.Get(w).acts[0];
                  a' == if a.Kernel? && Target(w, a.op) == side then Kernel(a.op, true) else a)
  {
    var side := if p == CancelClient then Client else Proxy;
    var c2 := if p == CancelClient then conn.(client := conn.client.(cancelled := true))
              else conn.(proxy := conn.proxy.(cancelled := true));
    CancelIs(c2, w, side);
  }

  lemma AbortKeeps(conn: Conn, w: Way, p: AbortAt, more: bool, at: AbortAt)
    requires Good(conn, at)
    requires conn.Get(w).acts == [Thread(Abort(p), more)]
    ensures Good(DoAbort(conn, w, 0, p, more), at)
  {
    AbortIs(conn, w, p, more);
    var task := if AbortEnds(p, conn.closing) then Release else Abort(AbortNext(p));
    EffectAbortOk(conn, conn.Set(w, conn.Get(w).(acts := [Thread(task, more)])), p, at, at);
  }

  lemma ReleaseKeeps(conn: Conn, w: Way, more: bool, at: AbortAt)
    requires Good(conn, at)
    requires conn.Get(w).acts == [Thread(Release, more)]
    ensures var c' := DoRelease(conn, w, 0, more);
            Structure(c', true) && AbortOk(c', at)
  {
    ReleaseIs(conn, w, more);
    if more {
      StartDownKeeps(conn, conn.up.(gone := true, acts := []), at);
    } else {
      ReleasedKeeps(conn, w, at);
    }
  }

  lemma ReleaseIs(conn: Conn, w: Way, more: bool)
    requires Running(conn) && conn.Get(w).acts == [Thread(Release, more)]
    ensures var f := conn.Get(w).(gone := true, acts := []);
            DoRelease(conn, w, 0, more) ==
            if more then conn.(up := f, down := conn.down.(acts := [Thread(GiveBuf, false)]), refs := 1)
            else if conn.Get(Other(w)).gone then conn.Set(w, f).(refs := 0, ending := [Unlink])
            else conn.Set(w, f).(refs := 1)
  {
    assert Replace(conn.Get(w).acts, 0, []) == [];
  }

  lemma ReleasedKeeps(conn: Conn, w: Way, at: AbortAt)
    requires Good(conn, at) && conn.Get(w).acts == [Thread(Release, false)]
    ensures var c' := conn.Set(w, conn.Get(w).(gone := true, acts := []));
            var c'' := if conn.Get(Other(w)).gone then c'.(refs := 0, ending := [Unlink]) else c'.(refs := 1);
            Structure(c'', true) && AbortOk(c'', at)
  {
  }

  // ------------------------------------------------------------------ frames

  lemma FlowFrame(f: Flow, mem: map<nat, seq<byte>>, mem': map<nat, seq<byte>>)
    requires FlowOk(f, mem)
    requires f.buf.At? && f.buf.id in mem ==> f.buf.id in mem' && mem'[f.buf.id] == mem[f.buf.id]
    ensures FlowOk(f, mem')
  {
  }

  /** Buffers of other connections keep their contents. */
  ghost predicate OthersKept(bufs: Bufs, bufs': Bufs, c: nat) {
    forall b :: b in bufs.where && bufs.where[b].Owned? && bufs.where[b].d.c != c && b in bufs.mem ==>
      b in bufs'.mem && bufs'.mem[b] == bufs.mem[b]
  }

  lemma OtherKept(s: State, s': State, c: nat, e: nat)
    requires e in s.conns && ConnOk(s, e, s.conns[e]) && e != c
    requires RefsOk(s.bufs, e, s.conns[e], Up) && RefsOk(s.bufs, e, s.conns[e], Down)
    requires OthersKept(s.bufs, s'.bufs, c) && s'.nextConn >= s.nextConn
    requires (e in s'.list.order <==> e in s.list.order) && WalkAt(s'.walk, e) == WalkAt(s.walk, e)
    ensures ConnOk(s', e, s.conns[e])
  {
    FlowFrame(s.conns[e].up, s.bufs.mem, s'.bufs.mem);
    FlowFrame(s.conns[e].down, s.bufs.mem, s'.bufs.mem);
  }

  /** A step on connection c that leaves the list alone only has to care about c and the buffers. */
  lemma PutKeeps(s: State, c: nat, conn: Conn, bufs: Bufs)
    requires Inv(s) && c in s.conns
    requires ConnOk(Put(s, c, conn).(bufs := bufs), c, conn)
    requires s.conns[c].closing ==> conn.closing
    requires BufsOk(s.conns[c := conn], bufs) && OthersKept(s.bufs, bufs, c)
    ensures Inv(Put(s, c, conn).(bufs := bufs))
  {
    var s' := Put(s, c, conn).(bufs := bufs);
    PutWalkOk(s, c, conn);
    forall e | e in s'.conns ensures ConnOk(s', e, s'.conns[e]) { PutConnOk(s, c, conn, bufs, e); }
  }

  lemma PutConnOk(s: State, c: nat, conn: Conn, bufs: Bufs, e: nat)
    requires c in s.conns && e in s.conns && ConnOk(s, e, s.conns[e])
    requires RefsOk(s.bufs, e, s.conns[e], Up) && RefsOk(s.bufs, e, s.conns[e], Down)
    requires ConnOk(Put(s, c, conn).(bufs := bufs), c, conn) && OthersKept(s.bufs, bufs, c)
    ensures var s' := Put(s, c, conn).(bufs := bufs); ConnOk(s', e, s'.conns[e])
  {
    if e != c { OtherKept(s, Put(s, c, conn).(bufs := bufs), c, e); }
  }

  lemma PutWalkOk(s: State, c: nat, conn: Conn)
    requires WalkOk(s) && c in s.conns && (s.conns[c].closing ==> conn.closing)
    ensures WalkOk(Put(s, c, conn))
  {
  }

  /** What the buffer bookkeeping sees of a connection. */
  predicate SameBufs(a: Conn, b: Conn) {
    && a.up.buf == b.up.buf && a.down.buf == b.down.buf
    && HandOf(a, Up) == HandOf(b, Up) && HandOf(a, Down) == HandOf(b, Down)
  }

  lemma SameBufsKeeps(conns: map<nat, Conn>, c: nat, conn: Conn, bufs: Bufs)
    requires BufsOk(conns, bufs) && c in conns && SameBufs(conns[c], conn)
    ensures BufsOk(conns[c := conn], bufs)
  {
    var conns' := conns[c := conn];
    forall b | b in bufs.where ensures BufOk(conns', bufs, b, bufs.where[b]) {
      SameBufOk(conns, c, conn, bufs, b, bufs.where[b]);
    }
    assert RefsOk(bufs, c, conns[c], Up) && RefsOk(bufs, c, conns[c], Down);
  }

  lemma SameBufOk(conns: map<nat, Conn>, c: nat, conn: Conn, bufs: Bufs, b: nat, l: BufLoc)
    requires BufOk(conns, bufs, b, l) && c in conns && SameBufs(conns[c], conn)
    ensures BufOk(conns[c := conn], bufs, b, l)
  {
  }

  // ------------------------------------------------------------------ the buffer operations

  predicate KeepsRef(a: Ref, a': Ref, b: nat) { a' == a || (a == At(b) && a' == Nil) || (a == Nil && a' == At(b)) }

  /** Between the two connections only buffer b appears or disappears. */
  predicate OnlyBuf(a: Conn, a': Conn, w: Way, b: nat) {
    KeepsRef(a.Get(w).buf, a'.Get(w).buf, b) && KeepsRef(HandOf(a, w), HandOf(a', w), b)
  }

  predicate MayMove(bufs: Bufs, b: nat, c: nat) {
    b in bufs.where ==>
      || bufs.where[b].Pooled?
      || (bufs.where[b].Owned? && bufs.where[b].d.c == c)
      || (bufs.where[b].InHand? && bufs.where[b].d.c == c)
  }

  /** Buffer b goes to l; contents and pool positions of all others stay. */
  ghost predicate OnlyMoves(bufs: Bufs, bufs': Bufs, b: nat, l: BufLoc) {
    && bufs'.where == bufs.where[b := l] && bufs.next <= bufs'.next
    && (forall x :: x != b ==> (x in bufs'.mem <==> x in bufs.mem))
    && (forall x :: x != b && x in bufs.mem ==> bufs'.mem[x] == bufs.mem[x])
    && (forall j :: 0 <= j < |bufs.pool| && bufs.pool[j] != b ==> j < |bufs'.pool| && bufs'.pool[j] == bufs.pool[j])
  }

  /** One buffer moves from the pool or connection c to a new place; every other buffer stays. */
  lemma MoveBuf(conns: map<nat, Conn>, bufs: Bufs, bufs': Bufs, c: nat, conn: Conn, b: nat, l: BufLoc)
    requires BufsOk(conns, bufs) && c in conns
    requires OnlyMoves(bufs, bufs', b, l) && PoolOk(bufs') && MayMove(bufs, b, c)
    requires BufOk(conns[c := conn], bufs', b, l)
    requires OnlyBuf(conns[c], conn, Up, b) && OnlyBuf(conns[c], conn, Down, b)
    requires RefsOk(bufs', c, conn, Up) && RefsOk(bufs', c, conn, Down)
    ensures BufsOk(conns[c := conn], bufs') && OthersKept(bufs, bufs', c)
  {
    var conns' := conns[c := conn];
    forall x | x in bufs'.where ensures BufOk(conns', bufs', x, bufs'.where[x]) {
      if x != b {
        StillOk(conns, bufs, bufs', c, conn, b, x);
      }
    }
    MoveBufRefs(conns, bufs, bufs', c, conn, b, l);
  }

  lemma StillOk(conns: map<nat, Conn>, bufs: Bufs, bufs': Bufs, c: nat, conn: Conn, b: nat, x: nat)
    requires c in conns && x != b && x in bufs.where && BufOk(conns, bufs, x, bufs.where[x])
    requires bufs.next <= bufs'.next && (x in bufs'.mem <==> x in bufs.mem)
    requires forall j :: 0 <= j < |bufs.pool| && bufs.pool[j] != b ==> j < |bufs'.pool| && bufs'.pool[j] == bufs.pool[j]
    requires OnlyBuf(conns[c], conn, Up, b) && OnlyBuf(conns[c], conn, Down, b)
    ensures BufOk(conns[c := conn], bufs', x, bufs.where[x])
  {
  }

  lemma MoveBufRefs(conns: map<nat, Conn>, bufs: Bufs, bufs': Bufs, c: nat, conn: Conn, b: nat, l: BufLoc)
    requires forall e :: e in conns ==> RefsOk(bufs, e, conns[e], Up) && RefsOk(bufs, e, conns[e], Down)
    requires bufs'.where == bufs.where[b := l] && MayMove(bufs, b, c)
    requires RefsOk(bufs', c, conn, Up) && RefsOk(bufs', c, conn, Down)
    ensures forall e :: e in conns && e != c ==> RefsOk(bufs', e, conns[e], Up) && RefsOk(bufs', e, conns[e], Down)
  {
    forall e | e in conns && e != c ensures RefsOk(bufs', e, conns[e], Up) && RefsOk(bufs', e, conns[e], Down) {
      assert RefsOk(bufs, e, conns[e], Up) && RefsOk(bufs, e, conns[e], Down);
    }
  }

  predicate Untouched(a: Conn, a': Conn, w: Way) { a.Get(w).buf == a'.Get(w).buf && HandOf(a, w) == HandOf(a', w) }

  function Other(w: Way): Way { if w == Up then Down else Up }

  lemma PopKeeps(conns: map<nat, Conn>, bufs: Bufs, c: nat, w: Way, conn: Conn, ok: bool)
    requires BufsOk(conns, bufs) && c in conns && Untouched(conns[c], conn, Other(w))
    requires conns[c].Get(w).buf == Nil && HandOf(conns[c], w) == HandOf(conn, w) == Nil
    requires conn.Get(w).buf == PopBuf(bufs, D(c, w), ok).1
    ensures var bufs' := PopBuf(bufs, D(c, w), ok).0;
            BufsOk(conns[c := conn], bufs') && OthersKept(bufs, bufs', c)
  {
    var r := PopBuf(bufs, D(c, w), ok).1;
    if r == Nil {
      SameBufsKeeps(conns, c, conn, bufs);
    } else {
      PoppedKeeps(conns, bufs, c, w, conn, ok, r.id);
    }
  }

  lemma PoppedKeeps(conns: map<nat, Conn>, bufs: Bufs, c: nat, w: Way, conn: Conn, ok: bool, b: nat)
    requires BufsOk(conns, bufs) && c in conns && Untouched(conns[c], conn, Other(w))
    requires conns[c].Get(w).buf == Nil && HandOf(conns[c], w) == HandOf(conn, w) == Nil
    requires conn.Get(w).buf == At(b) == PopBuf(bufs, D(c, w), ok).1
    ensures var bufs' := PopBuf(bufs, D(c, w), ok).0;
            BufsOk(conns[c := conn], bufs') && OthersKept(bufs, bufs', c)
  {
    assert RefsOk(bufs, c, conns[c], Other(w));
    PopPool(conns, bufs, D(c, w), ok);
    MoveBuf(conns, bufs, PopBuf(bufs, D(c, w), ok).0, c, conn, b, Owned(D(c, w)));
  }

  lemma PopPool(conns: map<nat, Conn>, bufs: Bufs, d: DirId, ok: bool)
    requires BufsOk(conns, bufs) && PopBuf(bufs, d, ok).1.At?
    ensures var (bufs', r) := PopBuf(bufs, d, ok);
            && PoolOk(bufs') && r.id in bufs'.mem && r.id < bufs'.next && MayMove(bufs, r.id, d.c)
            && OnlyMoves(bufs, bufs', r.id, Owned(d))
  {
    var (bufs', r) := PopBuf(bufs, d, ok);
    if r.id in bufs.where { assert BufOk(conns, bufs, r.id, bufs.where[r.id]); }
  }

  lemma PushKeeps(conns: map<nat, Conn>, bufs: Bufs, c: nat, w: Way, conn: Conn, b: nat)
    requires BufsOk(conns, bufs) && c in conns && Untouched(conns[c], conn, Other(w))
    requires conns[c].Get(w).buf == At(b) && HandOf(conns[c], w) == Nil
    requires conn.Get(w).buf == Nil && HandOf(conn, w) == (if |bufs.pool| < POOL_KEEP then Nil else At(b))
    ensures var bufs' := PushBuf(bufs, D(c, w), b);
            BufsOk(conns[c := conn], bufs') && OthersKept(bufs, bufs', c)
  {
    assert RefsOk(bufs, c, conns[c], w) && RefsOk(bufs, c, conns[c], Other(w));
    var bufs' := PushBuf(bufs, D(c, w), b);
    PushPool(conns, bufs, D(c, w), b);
    MoveBuf(conns, bufs, bufs', c, conn, b, bufs'.where[b]);
  }

  lemma PushPool(conns: map<nat, Conn>, bufs: Bufs, d: DirId, b: nat)
    requires BufsOk(conns, bufs) && BufIs(bufs, b, Owned(d))
    ensures var bufs' := PushBuf(bufs, d, b);
            PoolOk(bufs') && b in bufs.mem && b < bufs.next && OnlyMoves(bufs, bufs', b, bufs'.where[b])
  {
    assert BufOk(conns, bufs, b, bufs.where[b]);
  }

  lemma FreeKeeps(conns: map<nat, Conn>, bufs: Bufs, c: nat, w: Way, conn: Conn, b: nat)
    requires BufsOk(conns, bufs) && c in conns && Untouched(conns[c], conn, Other(w))
    requires HandOf(conns[c], w) == At(b) && HandOf(conn, w) == Nil && conn.Get(w).buf == conns[c].Get(w).buf
    ensures var bufs' := FreeBuf(bufs, b);
            BufsOk(conns[c := conn], bufs') && OthersKept(bufs, bufs', c)
  {
    assert RefsOk(bufs, c, conns[c], w) && RefsOk(bufs, c, conns[c], Other(w));
    assert BufOk(conns, bufs, b, bufs.where[b]);
    MoveBuf(conns, bufs, FreeBuf(bufs, b), c, conn, b, Freed);
  }

  lemma WriteKeeps(conns: map<nat, Conn>, bufs: Bufs, c: nat, w: Way, conn: Conn, b: nat, data: seq<byte>)
    requires BufsOk(conns, bufs) && c in conns && SameBufs(conns[c], conn)
    requires conn.Get(w).buf == At(b) && b in bufs.mem
    ensures var bufs' := bufs.(mem := bufs.mem[b := data]);
            BufsOk(conns[c := conn], bufs') && OthersKept(bufs, bufs', c)
  {
    SameBufsKeeps(conns, c, conn, bufs);
    assert RefsOk(bufs, c, conn, Up) && RefsOk(bufs, c, conn, Down) by {
      assert conns[c := conn][c] == conn;
    }
    Overwritten(conns[c := conn], bufs, b, data);
  }

  /** Overwriting an allocated buffer moves none. */
  lemma Overwritten(conns: map<nat, Conn>, bufs: Bufs, b: nat, data: seq<byte>)
    requires BufsOk(conns, bufs) && b in bufs.mem
    ensures BufsOk(conns, bufs.(mem := bufs.mem[b := data]))
  {
    var bufs' := bufs.(mem := bufs.mem[b := data]);
    forall x | x in bufs'.where ensures BufOk(conns, bufs', x, bufs'.where[x]) {
      assert BufOk(conns, bufs, x, bufs.where[x]);
    }
    forall e | e in conns ensures RefsOk(bufs', e, conns[e], Up) && RefsOk(bufs', e, conns[e], Down) {
      assert RefsOk(bufs, e, conns[e], Up) && RefsOk(bufs, e, conns[e], Down);
    }
  }
}
