/**
 What a direction asks the kernel for, in which order: after a wait a read, after a read a send, after a
 send the rest of it, or a wait, or another read. A direction goes on like this until its stream ends.
 */
module RelayTurns {
  import opened Basics
  import opened RelayPool
  import opened RelayInvariant
  import RelaySteps
  import RelayLifetime
  import RelayTheorems
  import RelayDelivery
  import RelayBlame

  function KindOf(op: Op): Kind { match op case OpWait => Wait case OpRead(_) => Read case OpSend(_, _, _) => Send }

  /** The operation that is due when the one of state `f.state` has moved n bytes. */
  function Due(f: Flow, n: nat): Kind {
    match f.state
    case Wait => Read
    case Read => Send
    case Send => if f.off + n < f.len then Send else if f.len < 16384 then Wait else Read
  }

  /** The operation that a direction is in, or on its way to. */
  function Aim(f: Flow): Kind
    requires |f.acts| == 1
  {
    match f.acts[0]
    case Kernel(op, _) => KindOf(op)
    case Packet(_, n) => Due(f, n)
    case Thread(Handle(_, n), _) => Due(f, n)
    case Thread(TakeBuf, _) => Read
    case Thread(PostRead, _) => Read
    case Thread(PostSend, _) => Send
    case Thread(_, _) => Wait
  }

  /** The direction neither ends nor fails. */
  predicate Going(f: Flow) {
    && |f.acts| == 1 && !f.eof && !f.gone
    && match f.acts[0]
       case Kernel(_, _) => true
       case Packet(ok, n) => ok && (n > 0 || f.state == Wait)
       case Thread(Handle(ok, n), _) => ok && (n > 0 || f.state == Wait)
       case Thread(task, _) => !task.HalfClose? && !task.Release? && !task.Abort?
  }

  /** The number of its own steps until it is in the kernel, at most. */
  function ToKernel(f: Flow): nat
    requires |f.acts| == 1
  {
    match f.acts[0]
    case Kernel(_, _) => 0
    case Packet(_, _) => 5
    case Thread(task, _) =>
      if task.Handle? then 4 else if task.GiveBuf? then 3 else if task.FreeSpill? || task.TakeBuf? then 2 else 1
  }

  /** One step nearer to the same operation. */
  predicate TurnsOn(f: Flow, g: Flow)
    requires |f.acts| == 1
  { Going(g) && Aim(g) == Aim(f) && ToKernel(g) < ToKernel(f) }

  // ------------------------------------------------------------------ a thread's step

  lemma SetGet(conn: Conn, w: Way, g: Flow)
    ensures conn.Set(w, g).Get(w) == g
  {
  }

  lemma PacketTurns(conn: Conn, w: Way, n: nat)
    requires Going(conn.Get(w)) && conn.Get(w).acts == [Packet(true, n)]
    ensures TurnsOn(conn.Get(w), Goto(conn, w, 0, Handle(true, n), false).Get(w))
  {
    BecomeIs(conn, w, [Thread(Handle(true, n), false)]);
  }

  lemma DispatchTurns(f: Flow, n: nat, more: bool)
    requires Going(f) && f.acts == [Thread(Handle(true, n), more)]
    ensures var (g, task) := Dispatch(f, true, n); TurnsOn(f, g.(acts := [Thread(task, more)]))
  {
  }

  lemma HandleTurns(conn: Conn, w: Way, n: nat, more: bool)
    requires Going(conn.Get(w)) && conn.Get(w).acts == [Thread(Handle(true, n), more)]
    ensures TurnsOn(conn.Get(w), DoHandle(conn, w, 0, true, n, more).Get(w))
  {
    var (g, task) := Dispatch(conn.Get(w), true, n);
    DispatchTurns(conn.Get(w), n, more);
    BecomeIs(conn.Set(w, g), w, [Thread(task, more)]);
    SetGet(conn, w, g.(acts := [Thread(task, more)]));
  }

  lemma PostTurns(conn: Conn, w: Way, op: Op, task: Task, more: bool, at: AbortAt)
    requires Good(conn, at) && !conn.closing && Going(conn.Get(w)) && conn.Get(w).acts == [Thread(task, more)]
    requires Aim(conn.Get(w)) == KindOf(op) && ToKernel(conn.Get(w)) == 1
    ensures TurnsOn(conn.Get(w), DoPost(conn, w, 0, op, true, more).Get(w))
  {
    RelayBlame.NotShut(conn, at, Target(w, op));
    PostGoes(conn, w, op, task, more);
  }

  /** Direction w of c has come one step nearer. */
  ghost predicate Turned(s: State, s': State, c: nat, w: Way) {
    c in s.conns && c in s'.conns && |s.conns[c].Get(w).acts| == 1 && TurnsOn(s.conns[c].Get(w), s'.conns[c].Get(w))
  }

  lemma PostTaskTurns(s: State, c: nat, w: Way, task: Task, more: bool)
    requires c in s.conns && Good(s.conns[c], WalkAt(s.walk, c)) && !s.conns[c].closing && Going(s.conns[c].Get(w))
    requires FlowOk(s.conns[c].Get(w), s.bufs.mem) && s.conns[c].Get(w).acts == [Thread(task, more)]
    requires task.PostWait? || task.PostRead? || task.PostSend?
    ensures Turned(s, DoTask(s, c, w, 0, task, more, true), c, w)
  {
    var f := s.conns[c].Get(w);
    var op := if task.PostWait? then OpWait else if task.PostRead? then OpRead(f.buf.id) else OpSend(f.buf.id, f.off, f.len);
    PostTurns(s.conns[c], w, op, task, more, WalkAt(s.walk, c));
  }

  lemma TakeTurns(s: State, c: nat, w: Way, more: bool, ok: bool)
    requires c in s.conns && Going(s.conns[c].Get(w)) && s.conns[c].Get(w).acts == [Thread(TakeBuf, more)]
    requires LockFree(s) && (ok || s.bufs.pool != [])
    ensures Turned(s, DoTask(s, c, w, 0, TakeBuf, more, ok), c, w)
  {
    var g := s.conns[c].Get(w).(buf := PopBuf(s.bufs, D(c, w), ok).1);
    BecomeIs(s.conns[c].Set(w, g), w, [Thread(PostRead, more)]);
    SetGet(s.conns[c], w, g.(acts := [Thread(PostRead, more)]));
  }

  lemma GiveTurns(s: State, c: nat, w: Way, more: bool, ok: bool)
    requires c in s.conns && Running(s.conns[c]) && Going(s.conns[c].Get(w))
    requires s.conns[c].Get(w).acts == [Thread(GiveBuf, more)]
    ensures DoTask(s, c, w, 0, GiveBuf, more, ok) == s || Turned(s, DoTask(s, c, w, 0, GiveBuf, more, ok), c, w)
  {
    RelaySteps.GiveBufIs(s, c, w, more, ok);
    SetGet(s.conns[c], w, RelaySteps.Given(s.conns[c].Get(w), |s.bufs.pool| >= POOL_KEEP, more));
  }

  lemma SpillTurns(s: State, c: nat, w: Way, b: nat, more: bool, ok: bool)
    requires c in s.conns && Going(s.conns[c].Get(w)) && s.conns[c].Get(w).acts == [Thread(FreeSpill(b), more)]
    ensures Turned(s, DoTask(s, c, w, 0, FreeSpill(b), more, ok), c, w)
  {
    BecomeIs(s.conns[c], w, [Thread(PostWait, more)]);
    SetGet(s.conns[c], w, s.conns[c].Get(w).(acts := [Thread(PostWait, more)]));
  }

  lemma TaskTurns(s: State, c: nat, w: Way, task: Task, more: bool, ok: bool, out: Outcome)
    requires c in s.conns && Good(s.conns[c], WalkAt(s.walk, c)) && !s.conns[c].closing && Going(s.conns[c].Get(w))
    requires FlowOk(s.conns[c].Get(w), s.bufs.mem) && s.conns[c].Get(w).acts == [Thread(task, more)]
    requires !RelayBlame.Cause(s, Work(c, w, 0, ok, out), c)
    ensures DoTask(s, c, w, 0, task, more, ok) == s || Turned(s, DoTask(s, c, w, 0, task, more, ok), c, w)
  {
    if task.PostWait? || task.PostRead? || task.PostSend? {
      PostTaskTurns(s, c, w, task, more);
    } else if task.TakeBuf? {
      if LockFree(s) { TakeTurns(s, c, w, more, ok); }
    } else if task.GiveBuf? {
      GiveTurns(s, c, w, more, ok);
    } else if task.FreeSpill? {
      SpillTurns(s, c, w, task.b, more, ok);
    } else {
      HandleTurns(s.conns[c], w, task.n, more);
    }
  }

  lemma ActTurns(s: State, c: nat, w: Way, ok: bool, out: Outcome)
    requires c in s.conns && Good(s.conns[c], WalkAt(s.walk, c)) && !s.conns[c].closing && Going(s.conns[c].Get(w))
    requires FlowOk(s.conns[c].Get(w), s.bufs.mem) && !s.conns[c].Get(w).acts[0].Kernel?
    requires !RelayBlame.Cause(s, Work(c, w, 0, ok, out), c)
    ensures DoWork(s, c, w, 0, ok, out) == s || Turned(s, DoWork(s, c, w, 0, ok, out), c, w)
  {
    var f := s.conns[c].Get(w);
    assert f.acts == [f.acts[0]];
    match f.acts[0]
    case Packet(_, n) => PacketTurns(s.conns[c], w, n);
    case Thread(task, more) => TaskTurns(s, c, w, task, more, ok, out);
  }

  // ------------------------------------------------------------------ completions

  /** The step is a read of direction w that finds the end of the stream. */
  predicate Ends(s: State, e: Step, c: nat, w: Way) {
    && RelayDelivery.IsOwn(e, c, w) && c in s.conns && |s.conns[c].Get(w).acts| == 1
    && s.conns[c].Get(w).acts[0].Kernel? && s.conns[c].Get(w).acts[0].op.OpRead? && e.out.data == []
  }

  /** What is due after an operation that moved this much. */
  function Then(op: Op, out: Outcome): Kind {
    match op
    case OpWait => Read
    case OpRead(_) => Send
    case OpSend(_, off, len) => if off + out.n < len then Send else if len < 16384 then Wait else Read
  }

  /** Direction w of c goes on, to an operation of this kind. */
  ghost predicate GoesOn(s: State, c: nat, w: Way, kind: Kind) {
    c in s.conns && Going(s.conns[c].Get(w)) && Aim(s.conns[c].Get(w)) == kind
  }

  lemma ReadGoesOn(s: State, c: nat, w: Way, b: nat, out: Outcome)
    requires c in s.conns && Going(s.conns[c].Get(w)) && s.conns[c].Get(w).state == Read
    requires b in s.bufs.mem && |out.data| <= BUF_SIZE && out.Fine? && out.data != []
    ensures GoesOn(DoComplete(s, c, w, 0, OpRead(b), out), c, w, Send)
  {
    RelaySteps.ReadIs(s, c, w, b, out);
    SetGet(s.conns[c], w, RelaySteps.AfterRead(s.conns[c].Get(w), out));
  }

  lemma SendGoesOn(s: State, c: nat, w: Way, b: nat, off: nat, len: nat, out: Outcome)
    requires c in s.conns && Going(s.conns[c].Get(w))
    requires s.conns[c].Get(w).state == Send && s.conns[c].Get(w).off == off && s.conns[c].Get(w).len == len
    requires b in s.bufs.mem && off <= len <= |s.bufs.mem[b]| && out.n <= len - off && out.Fine? && out.n > 0
    ensures GoesOn(DoComplete(s, c, w, 0, OpSend(b, off, len), out), c, w, Then(OpSend(b, off, len), out))
  {
    RelaySteps.SendIs(s, c, w, b, off, len, out);
    SetGet(s.conns[c], w, RelaySteps.AfterSend(s.conns[c].Get(w), s.bufs.mem[b][off..off + out.n], true, out.n));
  }

  lemma WaitGoesOn(s: State, c: nat, w: Way, out: Outcome)
    requires c in s.conns && Going(s.conns[c].Get(w)) && s.conns[c].Get(w).state == Wait && out.Fine?
    ensures GoesOn(DoComplete(s, c, w, 0, OpWait, out), c, w, Read)
  {
    BecomeIs(s.conns[c], w, [Packet(true, 0)]);
    SetGet(s.conns[c], w, s.conns[c].Get(w).(acts := [Packet(true, 0)]));
  }

  lemma CompleteGoesOn(s: State, c: nat, w: Way, op: Op, x: bool, out: Outcome)
    requires c in s.conns && Going(s.conns[c].Get(w)) && s.conns[c].Get(w).acts == [Kernel(op, x)]
    requires FlowOk(s.conns[c].Get(w), s.bufs.mem) && (op.OpRead? ==> op.b in s.bufs.mem)
    requires out.Fine? && !(op.OpSend? && out.n == 0) && !(op.OpRead? && out.data == [])
    ensures var s' := DoComplete(s, c, w, 0, op, out);
            (s' == s && Carried(s, c, w, op, out) == s.wires) || GoesOn(s', c, w, Then(op, out))
  {
    match op
    case OpWait => WaitGoesOn(s, c, w, out);
    case OpRead(b) => if |out.data| <= BUF_SIZE { ReadGoesOn(s, c, w, b, out); }
    case OpSend(b, off, len) =>
      RelaySteps.SendRange(s.conns[c].Get(w), b, off, len, x, s.bufs.mem);
      if out.n <= len - off { SendGoesOn(s, c, w, b, off, len, out); }
  }

  // ------------------------------------------------------------------ any step of the pool

  ghost predicate InKernel(s: State, c: nat, w: Way, kind: Kind) {
    && c in s.conns && |s.conns[c].Get(w).acts| == 1 && s.conns[c].Get(w).acts[0].Kernel?
    && KindOf(s.conns[c].Get(w).acts[0].op) == kind
  }

  /** Direction w of c is on its way to an operation of this kind, with at most n steps of its own to go. */
  ghost predicate Near(s: State, c: nat, w: Way, kind: Kind, n: int) {
    GoesOn(s, c, w, kind) && ToKernel(s.conns[c].Get(w)) <= n
  }

  predicate OwnTurn(s: State, e: Step, c: nat, w: Way) { RelayDelivery.IsOwn(e, c, w) && Next(s, e) != s }

  lemma OwnNear(s: State, e: Step, c: nat, w: Way, kind: Kind, n: int)
    requires Inv(s) && RelayBlame.Spotless(s, c) && !RelayBlame.Cause(s, e, c) && RelayDelivery.IsOwn(e, c, w)
    requires Near(s, c, w, kind, n) && !InKernel(s, c, w, kind)
    ensures Next(s, e) == s || Near(Next(s, e), c, w, kind, n - 1)
  {
    RelaySteps.Holder(s, c, w, 0);
    ActTurns(s, c, w, e.ok, e.out);
  }

  /** No other step touches a direction of a connection that has no reason to be aborted. */
  lemma OthersSpare(s: State, e: Step, c: nat, w: Way)
    requires Inv(s) && RelayBlame.Spotless(s, c) && !RelayDelivery.IsOwn(e, c, w) && Going(s.conns[c].Get(w))
    ensures c in Next(s, e).conns && Next(s, e).conns[c].Get(w) == s.conns[c].Get(w)
  {
    RelaySteps.Holder(s, c, w, 0);
    RelayBlame.NotShut(s.conns[c], WalkAt(s.walk, c), Dst(w));
    RelayDelivery.FlowForeign(s, c, w, e);
  }

  lemma StepNear(s: State, e: Step, c: nat, w: Way, kind: Kind, n: int)
    requires Inv(s) && RelayBlame.Spotless(s, c) && !RelayBlame.Cause(s, e, c)
    requires Near(s, c, w, kind, n) && !InKernel(s, c, w, kind)
    ensures Near(Next(s, e), c, w, kind, n - if OwnTurn(s, e, c, w) then 1 else 0)
  {
    if RelayDelivery.IsOwn(e, c, w) {
      OwnNear(s, e, c, w, kind, n);
    } else {
      OthersSpare(s, e, c, w);
    }
  }

  lemma CompletionGoesOn(s: State, e: Step, c: nat, w: Way, op: Op, x: bool)
    requires Inv(s) && RelayBlame.Spotless(s, c) && RelayDelivery.IsOwn(e, c, w) && Going(s.conns[c].Get(w))
    requires s.conns[c].Get(w).acts == [Kernel(op, x)] && !RelayBlame.Cause(s, e, c) && !Ends(s, e, c, w)
    ensures Next(s, e) == s || GoesOn(Next(s, e), c, w, Then(op, e.out))
  {
    RelaySteps.Holder(s, c, w, 0);
    RelaySteps.OwnBuf(s, c, w);
    CompleteGoesOn(s, c, w, op, x, e.out);
  }

  lemma StepGoing(s: State, e: Step, c: nat, w: Way)
    requires Inv(s) && RelayBlame.Spotless(s, c) && !RelayBlame.Cause(s, e, c) && !Ends(s, e, c, w)
    requires Going(s.conns[c].Get(w))
    ensures c in Next(s, e).conns && Going(Next(s, e).conns[c].Get(w))
  {
    var f := s.conns[c].Get(w);
    if !RelayDelivery.IsOwn(e, c, w) {
      OthersSpare(s, e, c, w);
    } else if f.acts[0].Kernel? {
      assert f.acts == [f.acts[0]];
      CompletionGoesOn(s, e, c, w, f.acts[0].op, f.acts[0].cancelled);
    } else {
      OwnNear(s, e, c, w, Aim(f), ToKernel(f));
    }
  }

  // ------------------------------------------------------------------ whole runs

  /** No read of direction w finds the end of its stream. */
  ghost predicate Unended(s: State, es: seq<Step>, c: nat, w: Way)
    decreases |es|
  { es == [] || (!Ends(s, es[0], c, w) && Unended(Next(s, es[0]), es[1..], c, w)) }

  ghost predicate GoesWell(s: State, c: nat, w: Way) {
    Inv(s) && RelayBlame.Spotless(s, c) && Going(s.conns[c].Get(w))
  }

  lemma StepGoesWell(s: State, e: Step, c: nat, w: Way)
    requires GoesWell(s, c, w) && !RelayBlame.Cause(s, e, c) && !Ends(s, e, c, w)
    ensures GoesWell(Next(s, e), c, w)
  {
    StepGoing(s, e, c, w);
    RelayBlame.StepBlameless(s, e, c);
    RelayLifetime.NextKeeps(s, e);
  }

  lemma {:induction false} GoesWellRun(s: State, es: seq<Step>, c: nat, w: Way)
    requires GoesWell(s, c, w) && RelayBlame.Uncaused(s, es, c) && Unended(s, es, c, w)
    ensures GoesWell(Continue(s, es), c, w)
    decreases |es|
  {
    if es != [] {
      StepGoesWell(s, es[0], c, w);
      GoesWellRun(Next(s, es[0]), es[1..], c, w);
    }
  }

  /**
   A direction goes on until the end of its own stream: in any run without a reason to abort its connection
   and without a read of its own that finds the end, it neither ends nor half-closes nor fails.
   */
  lemma KeepsGoing(pre: seq<Step>, es: seq<Step>, c: nat, w: Way)
    requires RelayBlame.Spotless(Reach(pre), c) && Going(Reach(pre).conns[c].Get(w))
    requires RelayBlame.Uncaused(Reach(pre), es, c) && Unended(Reach(pre), es, c, w)
    ensures c in Reach(pre + es).conns && Going(Reach(pre + es).conns[c].Get(w))
  {
    RelayLifetime.RunInv(pre);
    GoesWellRun(Reach(pre), es, c, w);
    RelayTheorems.ContinueReach(pre, es);
  }

  /** How many of the steps move direction w on. */
  function Turns(s: State, es: seq<Step>, c: nat, w: Way): nat
    decreases |es|
  { if es == [] then 0 else (if OwnTurn(s, es[0], c, w) then 1 else 0) + Turns(Next(s, es[0]), es[1..], c, w) }

  /** Somewhere along the steps direction w has an operation of this kind in the kernel. */
  ghost predicate Asks(s: State, es: seq<Step>, c: nat, w: Way, kind: Kind)
    decreases |es|
  { InKernel(s, c, w, kind) || (es != [] && Asks(Next(s, es[0]), es[1..], c, w, kind)) }

  lemma {:induction false} NearAsks(s: State, es: seq<Step>, c: nat, w: Way, kind: Kind)
    requires Inv(s) && RelayBlame.Spotless(s, c) && RelayBlame.Uncaused(s, es, c)
    requires Near(s, c, w, kind, Turns(s, es, c, w))
    ensures Asks(s, es, c, w, kind)
    decreases |es|
  {
    if es != [] && !InKernel(s, c, w, kind) {
      StepNear(s, es[0], c, w, kind, Turns(s, es, c, w));
      RelayBlame.StepBlameless(s, es[0], c);
      RelayLifetime.NextKeeps(s, es[0]);
      NearAsks(Next(s, es[0]), es[1..], c, w, kind);
    }
  }

  lemma Completed(s: State, e: Step, c: nat, w: Way, op: Op, x: bool)
    requires Inv(s) && RelayBlame.Spotless(s, c) && s.conns[c].Get(w).acts == [Kernel(op, x)]
    requires RelayDelivery.IsOwn(e, c, w) && Next(s, e) != s
    requires !RelayBlame.Cause(s, e, c) && !(op.OpRead? && e.out.data == [])
    ensures RelayBlame.Spotless(Next(s, e), c) && GoesOn(Next(s, e), c, w, Then(op, e.out))
  {
    InKernelGoing(s, c, w, op, x);
    CompletionGoesOn(s, e, c, w, op, x);
    RelayBlame.StepBlameless(s, e, c);
  }

  lemma InKernelGoing(s: State, c: nat, w: Way, op: Op, x: bool)
    requires Inv(s) && c in s.conns && s.conns[c].Get(w).acts == [Kernel(op, x)]
    ensures Going(s.conns[c].Get(w))
  {
    RelaySteps.Holder(s, c, w, 0);
  }

  lemma FiveSteps(s: State, c: nat, w: Way, kind: Kind, n: nat)
    requires GoesOn(s, c, w, kind) && n >= 5
    ensures Near(s, c, w, kind, n)
  {
  }

  /**
   The order of operations: after a wait comes a read, after a read with bytes a send, after a send that left
   something the rest, and after one that left nothing a wait if the chunk was small and another read if it
   was not. Unless there is a reason to abort, five steps of the direction's own are enough to get there,
   whatever all other threads do meanwhile.
   */
  lemma AsksNext(pre: seq<Step>, e: Step, es: seq<Step>, c: nat, w: Way, op: Op, x: bool)
    requires RelayBlame.Spotless(Reach(pre), c) && Reach(pre).conns[c].Get(w).acts == [Kernel(op, x)]
    requires RelayDelivery.IsOwn(e, c, w) && Next(Reach(pre), e) != Reach(pre)
    requires !RelayBlame.Cause(Reach(pre), e, c) && !(op.OpRead? && e.out.data == [])
    requires RelayBlame.Uncaused(Reach(pre + [e]), es, c) && Turns(Reach(pre + [e]), es, c, w) >= 5
    ensures Asks(Reach(pre + [e]), es, c, w,
                 match op
                 case OpWait => Read
                 case OpRead(_) => Send
                 case OpSend(_, off, len) => if off + e.out.n < len then Send else if len < 16384 then Wait else Read)
  {
    RelayLifetime.RunInv(pre);
    Completed(Reach(pre), e, c, w, op, x);
    assert (pre + [e])[..|pre|] == pre;
    RelayLifetime.RunInv(pre + [e]);
    FiveSteps(Reach(pre + [e]), c, w, Then(op, e.out), Turns(Reach(pre + [e]), es, c, w));
    NearAsks(Reach(pre + [e]), es, c, w, Then(op, e.out));
  }
}
