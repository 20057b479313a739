/**
 Why a relayed connection is aborted: only because an operation, a post or an allocation failed, a send
 moved nothing, or the pool is being aborted. The end of a stream is none of these: it is passed on, and
 the other direction goes on.
 */
module RelayBlame {
  import opened Basics
  import opened RelayPool
  import opened RelayInvariant
  import RelaySteps
  import RelayLifetime
  import RelayTheorems
  import RelayDelivery
  import RelayWires

  /** The step is a reason to abort connection c. */
  predicate Cause(s: State, e: Step, c: nat)
    requires c in s.conns
  {
    match e
    case Work(c', w, k, ok, out) =>
      c' == c && k < |s.conns[c].Get(w).acts| &&
      (match s.conns[c].Get(w).acts[k]
       case Kernel(op, _) => out.Failed? || (op.OpSend? && out.n == 0)
       case Thread(task, _) =>
         || (!ok && (task.PostWait? || task.PostRead? || task.PostSend?))
         || (!ok && task.TakeBuf? && s.bufs.pool == [])
       case Packet(_, _) => false)
    case WalkOn => s.walk.Walk? && s.walk.c == c
    case _ => false
  }

  /** A direction that is on its way to an abort. */
  predicate Failing(state: Kind, acts: seq<Act>) {
    |acts| == 1 &&
    match acts[0]
    case Packet(ok, n) => !ok || (state == Send && n == 0)
    case Thread(Handle(ok, n), _) => !ok || (state == Send && n == 0)
    case Thread(Abort(_), _) => true
    case _ => false
  }

  predicate Sound(f: Flow) { !Failing(f.state, f.acts) }

  predicate Blameless(conn: Conn) { !conn.closing && Sound(conn.up) && Sound(conn.down) }

  // ------------------------------------------------------------------ a thread's step

  lemma SetSound(conn: Conn, w: Way, g: Flow)
    requires Blameless(conn) && Sound(g)
    ensures Blameless(conn.Set(w, g))
  {
  }

  lemma NotShut(conn: Conn, at: AbortAt, side: Side)
    requires AbortOk(conn, at) && !conn.closing
    ensures !conn.Sock(side).shut
  {
  }

  lemma PostBlameless(conn: Conn, w: Way, op: Op, task: Task, more: bool, at: AbortAt)
    requires Good(conn, at) && Blameless(conn) && conn.Get(w).acts == [Thread(task, more)]
    ensures Blameless(DoPost(conn, w, 0, op, true, more))
  {
    NotShut(conn, at, Target(w, op));
    PostGoes(conn, w, op, task, more);
  }

  lemma HandleBlameless(conn: Conn, w: Way, ok: bool, n: nat, more: bool)
    requires Running(conn) && Blameless(conn) && conn.Get(w).acts == [Thread(Handle(ok, n), more)]
    ensures Blameless(DoHandle(conn, w, 0, ok, n, more))
  {
    var (f, task) := Dispatch(conn.Get(w), ok, n);
    BecomeIs(conn.Set(w, f), w, [Thread(task, more)]);
    SetSound(conn, w, f.(acts := [Thread(task, more)]));
  }

  lemma EofBlameless(conn: Conn, w: Way, more: bool)
    requires Running(conn) && Blameless(conn) && conn.Get(w).acts == [Thread(HalfClose, more)]
    ensures Blameless(DoHalfClose(conn, w, 0, more))
  {
    HalfCloseIs(conn, w, more);
    SetSound(conn, w, conn.Get(w).(eof := true, acts := [Thread(Release, more)]));
  }

  lemma EndBlameless(conn: Conn, w: Way, more: bool)
    requires Running(conn) && Blameless(conn) && conn.Get(w).acts == [Thread(Release, more)]
    ensures Blameless(DoRelease(conn, w, 0, more))
  {
    ReleaseIs(conn, w, more);
    SetSound(conn, w, conn.Get(w).(gone := true, acts := []));
  }

  ghost predicate Spotless(s: State, c: nat) { c in s.conns && Blameless(s.conns[c]) }

  lemma TakeBlameless(s: State, c: nat, w: Way, more: bool, ok: bool)
    requires c in s.conns && Running(s.conns[c]) && Blameless(s.conns[c]) && (ok || s.bufs.pool != [])
    requires s.conns[c].Get(w).acts == [Thread(TakeBuf, more)]
    ensures Spotless(DoTask(s, c, w, 0, TakeBuf, more, ok), c)
  {
    if LockFree(s) {
      var b := PopBuf(s.bufs, D(c, w), ok).1;
      var g := s.conns[c].Get(w).(buf := b);
      BecomeIs(s.conns[c].Set(w, g), w, [Thread(PostRead, more)]);
      SetSound(s.conns[c], w, g.(acts := [Thread(PostRead, more)]));
    }
  }

  lemma GiveBlameless(s: State, c: nat, w: Way, more: bool, ok: bool)
    requires c in s.conns && Running(s.conns[c]) && Blameless(s.conns[c])
    requires s.conns[c].Get(w).acts == [Thread(GiveBuf, more)]
    ensures Spotless(DoTask(s, c, w, 0, GiveBuf, more, ok), c)
  {
    RelaySteps.GiveBufIs(s, c, w, more, ok);
    SetSound(s.conns[c], w, RelaySteps.Given(s.conns[c].Get(w), |s.bufs.pool| >= POOL_KEEP, more));
  }

  lemma SpillBlameless(s: State, c: nat, w: Way, b: nat, more: bool, ok: bool)
    requires c in s.conns && Running(s.conns[c]) && Blameless(s.conns[c])
    requires s.conns[c].Get(w).acts == [Thread(FreeSpill(b), more)]
    ensures Spotless(DoTask(s, c, w, 0, FreeSpill(b), more, ok), c)
  {
    BecomeIs(s.conns[c], w, [Thread(PostWait, more)]);
    SetSound(s.conns[c], w, s.conns[c].Get(w).(acts := [Thread(PostWait, more)]));
  }

  lemma PostTaskBlameless(s: State, c: nat, w: Way, task: Task, more: bool)
    requires c in s.conns && Good(s.conns[c], WalkAt(s.walk, c)) && Blameless(s.conns[c])
    requires FlowOk(s.conns[c].Get(w), s.bufs.mem) && s.conns[c].Get(w).acts == [Thread(task, more)]
    requires task.PostWait? || task.PostRead? || task.PostSend?
    ensures Spotless(DoTask(s, c, w, 0, task, more, true), c)
  {
    var f := s.conns[c].Get(w);
    var op := if task.PostWait? then OpWait else if task.PostRead? then OpRead(f.buf.id) else OpSend(f.buf.id, f.off, f.len);
    PostBlameless(s.conns[c], w, op, task, more, WalkAt(s.walk, c));
  }

  lemma TaskBlameless(s: State, c: nat, w: Way, task: Task, more: bool, ok: bool, out: Outcome)
    requires c in s.conns && Good(s.conns[c], WalkAt(s.walk, c)) && Blameless(s.conns[c])
    requires FlowOk(s.conns[c].Get(w), s.bufs.mem) && s.conns[c].Get(w).acts == [Thread(task, more)]
    requires !Cause(s, Work(c, w, 0, ok, out), c)
    ensures Spotless(DoTask(s, c, w, 0, task, more, ok), c)
  {
    assert Sound(s.conns[c].Get(w));
    if task.PostWait? || task.PostRead? || task.PostSend? {
      PostTaskBlameless(s, c, w, task, more);
    } else if task.TakeBuf? {
      TakeBlameless(s, c, w, more, ok);
    } else if task.GiveBuf? {
      GiveBlameless(s, c, w, more, ok);
    } else if task.FreeSpill? {
      SpillBlameless(s, c, w, task.b, more, ok);
    } else {
      PlainBlameless(s, c, w, task, more, ok);
    }
  }

  lemma PlainBlameless(s: State, c: nat, w: Way, task: Task, more: bool, ok: bool)
    requires c in s.conns && Running(s.conns[c]) && Blameless(s.conns[c]) && s.conns[c].Get(w).acts == [Thread(task, more)]
    requires task.Handle? || task.HalfClose? || task.Release?
    ensures Spotless(DoTask(s, c, w, 0, task, more, ok), c)
  {
    if task.Handle? {
      HandleBlameless(s.conns[c], w, task.ok, task.n, more);
    } else if task.HalfClose? {
      EofBlameless(s.conns[c], w, more);
    } else {
      EndBlameless(s.conns[c], w, more);
    }
  }

  // ------------------------------------------------------------------ completions and packets

  lemma CompleteBlameless(s: State, c: nat, w: Way, op: Op, x: bool, out: Outcome)
    requires c in s.conns && Running(s.conns[c]) && Blameless(s.conns[c]) && s.conns[c].Get(w).acts == [Kernel(op, x)]
    requires FlowOk(s.conns[c].Get(w), s.bufs.mem) && out.Fine? && !(op.OpSend? && out.n == 0)
    ensures Spotless(DoComplete(s, c, w, 0, op, out), c)
  {
    match op
    case OpWait =>
      BecomeIs(s.conns[c], w, [Packet(true, 0)]);
      SetSound(s.conns[c], w, s.conns[c].Get(w).(acts := [Packet(true, 0)]));
    case OpRead(b) => if b in s.bufs.mem && |out.data| <= BUF_SIZE { ReadBlameless(s, c, w, b, x, out); }
    case OpSend(b, off, len) =>
      RelaySteps.SendRange(s.conns[c].Get(w), b, off, len, x, s.bufs.mem);
      if out.n <= len - off { SendBlameless(s, c, w, b, off, len, out); }
  }

  lemma ReadBlameless(s: State, c: nat, w: Way, b: nat, x: bool, out: Outcome)
    requires c in s.conns && Blameless(s.conns[c]) && s.conns[c].Get(w).acts == [Kernel(OpRead(b), x)]
    requires s.conns[c].Get(w).state == Read && out.Fine? && b in s.bufs.mem && |out.data| <= BUF_SIZE
    ensures Spotless(DoComplete(s, c, w, 0, OpRead(b), out), c)
  {
    RelaySteps.ReadIs(s, c, w, b, out);
    SetSound(s.conns[c], w, RelaySteps.AfterRead(s.conns[c].Get(w), out));
  }

  lemma SendBlameless(s: State, c: nat, w: Way, b: nat, off: nat, len: nat, out: Outcome)
    requires c in s.conns && Blameless(s.conns[c]) && |s.conns[c].Get(w).acts| == 1
    requires b in s.bufs.mem && off <= len <= |s.bufs.mem[b]| && out.n <= len - off && out.Fine? && out.n > 0
    ensures Spotless(DoComplete(s, c, w, 0, OpSend(b, off, len), out), c)
  {
    RelaySteps.SendIs(s, c, w, b, off, len, out);
    SetSound(s.conns[c], w, RelaySteps.AfterSend(s.conns[c].Get(w), s.bufs.mem[b][off..off + out.n], true, out.n));
  }

  lemma PacketBlameless(conn: Conn, w: Way, good: bool, n: nat)
    requires Blameless(conn) && conn.Get(w).acts == [Packet(good, n)]
    ensures Blameless(Goto(conn, w, 0, Handle(good, n), false))
  {
    BecomeIs(conn, w, [Thread(Handle(good, n), false)]);
    SetSound(conn, w, conn.Get(w).(acts := [Thread(Handle(good, n), false)]));
  }

  lemma ActBlameless(s: State, c: nat, w: Way, ok: bool, out: Outcome)
    requires c in s.conns && Good(s.conns[c], WalkAt(s.walk, c)) && Blameless(s.conns[c]) && |s.conns[c].Get(w).acts| == 1
    requires FlowOk(s.conns[c].Get(w), s.bufs.mem) && !Cause(s, Work(c, w, 0, ok, out), c)
    ensures Spotless(DoWork(s, c, w, 0, ok, out), c)
  {
    var f := s.conns[c].Get(w);
    assert f.acts == [f.acts[0]];
    match f.acts[0]
    case Packet(good, n) => PacketBlameless(s.conns[c], w, good, n);
    case Kernel(op, x) => CompleteBlameless(s, c, w, op, x, out);
    case Thread(task, more) => TaskBlameless(s, c, w, task, more, ok, out);
  }

  lemma WorkBlameless(s: State, c: nat, e: Step)
    requires Inv(s) && c in s.conns && Blameless(s.conns[c]) && e.Work? && !Cause(s, e, c)
    ensures Spotless(Next(s, e), c)
  {
    if e.c != c {
      RelayTheorems.WorkElsewhere(s, e.c, e.w, e.k, e.ok, e.out, c);
    } else if e.k < |s.conns[c].Get(e.w).acts| {
      RelaySteps.Holder(s, c, e.w, e.k);
      ActBlameless(s, c, e.w, e.ok, e.out);
    }
  }

  // ------------------------------------------------------------------ the other steps

  /** What a teardown leaves alone. */
  function Marks(conn: Conn): (bool, seq<Act>, seq<Act>, Kind, Kind) {
    (conn.closing, conn.up.acts, conn.down.acts, conn.up.state, conn.down.state)
  }

  lemma GiveMarks(conn: Conn, w: Way, k: nat, next: Teardown)
    requires k < |conn.ending|
    ensures Marks(SetStage(conn, k, [next])) == Marks(conn)
    ensures Marks(SetStage(conn.Set(w, conn.Get(w).(buf := Nil)), k, [next])) == Marks(conn)
  {
  }

  lemma CloseMarks(conn: Conn, k: nat, side: Side)
    requires k < |conn.ending|
    ensures Marks(DoClose(conn, k, side)) == Marks(conn)
  {
  }

  lemma CloseStageMarks(s: State, c: nat, k: nat)
    requires c in s.conns && k < |s.conns[c].ending| && (s.conns[c].ending[k].CloseClient? || s.conns[c].ending[k].CloseProxy?)
    ensures c in DoTearDown(s, c, k).conns && Marks(DoTearDown(s, c, k).conns[c]) == Marks(s.conns[c])
  {
    CloseMarks(s.conns[c], k, if s.conns[c].ending[k].CloseClient? then Client else Proxy);
  }

  lemma ListStageMarks(s: State, c: nat, k: nat)
    requires c in s.conns && k < |s.conns[c].ending| && (s.conns[c].ending[k].Unlink? || s.conns[c].ending[k].FreeConn?)
    ensures c in DoTearDown(s, c, k).conns && Marks(DoTearDown(s, c, k).conns[c]) == Marks(s.conns[c])
  {
    EndMarks(s.conns[c], k);
  }

  lemma EndMarks(conn: Conn, k: nat)
    requires k < |conn.ending|
    ensures Marks(SetStage(conn, k, [CloseClient]).(hist := conn.hist.(unlinked := conn.hist.unlinked + 1))) == Marks(conn)
    ensures Marks(DoFree(SetStage(conn, k, []))) == Marks(conn)
  {
  }

  lemma GiveStageMarks(s: State, c: nat, k: nat, w: Way)
    requires c in s.conns && k < |s.conns[c].ending|
    requires (s.conns[c].ending[k].Give? || s.conns[c].ending[k].Spill?) && s.conns[c].ending[k].w == w
    ensures c in DoTearDown(s, c, k).conns && Marks(DoTearDown(s, c, k).conns[c]) == Marks(s.conns[c])
  {
    var f := s.conns[c].Get(w);
    GiveMarks(s.conns[c], w, k, AfterGive(w));
    if f.buf.At? { GiveMarks(s.conns[c], w, k, Spill(w, f.buf.id)); }
  }

  lemma SameMarks(conn: Conn, conn': Conn)
    requires Blameless(conn) && Marks(conn') == Marks(conn)
    ensures Blameless(conn')
  {
  }

  lemma TearDownBlameless(s: State, c: nat, c': nat, k: nat)
    requires Inv(s) && c in s.conns && Blameless(s.conns[c])
    ensures Spotless(DoTearDown(s, c', k), c)
  {
    if c' != c {
      RelayTheorems.TearDownElsewhere(s, c', k, c);
    } else if k < |s.conns[c].ending| {
      if s.conns[c].ending[k].Give? || s.conns[c].ending[k].Spill? {
        GiveStageMarks(s, c, k, s.conns[c].ending[k].w);
      } else if s.conns[c].ending[k].CloseClient? || s.conns[c].ending[k].CloseProxy? {
        CloseStageMarks(s, c, k);
      } else {
        ListStageMarks(s, c, k);
      }
      SameMarks(s.conns[c], DoTearDown(s, c, k).conns[c]);
    }
  }

  lemma AdmitBlameless(s: State, c: nat, c': nat, running: bool)
    requires Inv(s) && c in s.conns && Blameless(s.conns[c])
    ensures Spotless(DoAdmit(s, c', running), c)
  {
    if c' == c && s.conns[c].starting != 0 && LockFree(s) {
      RelayLifetime.Unpublished(s, c);
      RelayLifetime.AdmitIs(s, c, running);
    } else {
      RelayTheorems.AdmitOther(s, c', running, c);
    }
  }

  lemma StepBlameless(s: State, e: Step, c: nat)
    requires Inv(s) && c in s.conns && Blameless(s.conns[c]) && !Cause(s, e, c)
    ensures Spotless(Next(s, e), c)
  {
    if e.Work? { WorkBlameless(s, c, e); } else { RestBlameless(s, e, c); }
  }

  lemma RestBlameless(s: State, e: Step, c: nat)
    requires Inv(s) && c in s.conns && Blameless(s.conns[c]) && !Cause(s, e, c) && !e.Work?
    ensures Spotless(Next(s, e), c)
  {
    if e.TearDown? {
      TearDownBlameless(s, c, e.c, e.k);
    } else if e.Admit? {
      AdmitBlameless(s, c, e.c, e.running);
    } else if e.WalkOn? {
      RelayTheorems.WalkOther(s, c);
    } else {
      RelayDelivery.Known(s, c);
      RelayTheorems.ConnsKept(s, e, c);
    }
  }

  // ------------------------------------------------------------------ whole runs

  lemma WorkBears(s: State, c': nat, w: Way, k: nat, ok: bool, out: Outcome)
    requires Inv(s)
    ensures DoWork(s, c', w, k, ok, out).conns.Keys == s.conns.Keys
  {
    if c' in s.conns { RelayTheorems.WorkAdvances(s, c', w, k, ok, out); }
  }

  lemma TearDownBears(s: State, c': nat, k: nat)
    requires Inv(s)
    ensures DoTearDown(s, c', k).conns.Keys == s.conns.Keys
  {
    if c' in s.conns { RelayTheorems.TearDownAdvances(s, c', k); }
  }

  lemma AdmitBears(s: State, c': nat, running: bool)
    ensures DoAdmit(s, c', running).conns.Keys == s.conns.Keys
  {
  }

  lemma WalkBears(s: State)
    ensures DoWalk(s).conns.Keys == s.conns.Keys
  {
  }

  /** Only relay_start makes connections, and without blame. */
  lemma Newborn(s: State, e: Step, c: nat)
    requires Inv(s) && c !in s.conns && c in Next(s, e).conns
    ensures Blameless(Next(s, e).conns[c])
  {
    if e.Work? {
      WorkBears(s, e.c, e.w, e.k, e.ok, e.out);
    } else if e.TearDown? {
      TearDownBears(s, e.c, e.k);
    } else if e.Admit? {
      AdmitBears(s, e.c, e.running);
    } else if e.WalkOn? {
      WalkBears(s);
    }
  }

  /** A connection that is closing, or about to, goes back to a reason. */
  lemma {:induction false} HasCause(es: seq<Step>, c: nat) returns (i: nat)
    requires c in Reach(es).conns && !Blameless(Reach(es).conns[c])
    ensures i < |es| && c in Reach(es[..i]).conns && Cause(Reach(es[..i]), es[i], c)
    decreases |es|
  {
    var n := |es| - 1;
    var s := Reach(es[..n]);
    RelayLifetime.RunInv(es[..n]);
    Onset(s, es[n], c);
    if Blameless(s.conns[c]) {
      i := n;
    } else {
      i := HasCause(es[..n], c);
      assert es[..n][..i] == es[..i];
    }
  }

  /** Blame comes with a step that is a reason. */
  lemma Onset(s: State, e: Step, c: nat)
    requires Inv(s) && c in Next(s, e).conns && !Blameless(Next(s, e).conns[c])
    ensures c in s.conns && (Blameless(s.conns[c]) ==> Cause(s, e, c))
  {
    if c !in s.conns {
      Newborn(s, e, c);
    } else if Blameless(s.conns[c]) && !Cause(s, e, c) {
      StepBlameless(s, e, c);
    }
  }

  /** Every abort has a reason. */
  lemma ClosingHasCause(es: seq<Step>, c: nat) returns (i: nat)
    requires c in Reach(es).conns && Reach(es).conns[c].closing
    ensures i < |es| && c in Reach(es[..i]).conns && Cause(Reach(es[..i]), es[i], c)
  {
    i := HasCause(es, c);
  }

  /** None of the steps is a reason to abort c. */
  predicate Uncaused(s: State, es: seq<Step>, c: nat)
    decreases |es|
  { es == [] || (c in s.conns && !Cause(s, es[0], c) && Uncaused(Next(s, es[0]), es[1..], c)) }

  lemma {:induction false} BlamelessRun(s: State, es: seq<Step>, c: nat)
    requires Inv(s) && Spotless(s, c) && Uncaused(s, es, c)
    ensures Spotless(Continue(s, es), c) && Inv(Continue(s, es))
    decreases |es|
  {
    if es != [] {
      StepBlameless(s, es[0], c);
      RelayLifetime.NextKeeps(s, es[0]);
      BlamelessRun(Next(s, es[0]), es[1..], c);
    }
  }

  lemma BlamelessOpen(s: State, c: nat)
    requires Inv(s) && Spotless(s, c)
    ensures !s.conns[c].client.shut && !s.conns[c].proxy.shut
  {
    assert ConnOk(s, c, s.conns[c]);
  }

  /**
   A clean end of stream: take any run from a reachable state with a read outstanding, in which the direction's
   own steps are a completion with no bytes, its packet, the worker's switch and what that decides on. Unless
   some step is a reason to abort, the other socket ends up half-closed, nothing is shut or closing, and the
   other direction is where its own steps have brought it.
   */
  lemma CleanEof(pre: seq<Step>, es: seq<Step>, c: nat, w: Way, b: nat)
    requires Spotless(Reach(pre), c) && Uncaused(Reach(pre), es, c)
    requires |Reach(pre).conns[c].Get(w).acts| == 1
    requires Reach(pre).conns[c].Get(w).acts[0].Kernel? && Reach(pre).conns[c].Get(w).acts[0].op == OpRead(b)
    requires RelayDelivery.OwnSteps(es, c, w) == RelayDelivery.Part(c, w, Fine([], 0))
    ensures c in Reach(pre + es).conns
    ensures var conn, conn' := Reach(pre).conns[c], Reach(pre + es).conns[c];
            && !conn'.closing && !conn'.client.shut && !conn'.proxy.shut
            && conn'.Get(w) == conn.Get(w).(eof := true, acts := [Thread(Release, false)])
            && (w == Up ==> conn'.proxy.halfClosed) && (w == Down ==> conn'.client.halfClosed)
            && (RelayDelivery.OwnSteps(es, c, Other(w)) == [] && |conn.Get(Other(w)).acts| == 1 ==>
                  conn'.Get(Other(w)) == conn.Get(Other(w)))
  {
    RelayLifetime.RunInv(pre);
    BlamelessRun(Reach(pre), es, c);
    RelayTheorems.ContinueReach(pre, es);
    BlamelessOpen(Reach(pre + es), c);
    RelayWires.EofAcross(pre, es, c, w, b);
    ReverseGoesOn(pre, es, c, Other(w));
  }

  lemma ReverseGoesOn(pre: seq<Step>, es: seq<Step>, c: nat, w: Way)
    requires c in Reach(pre).conns && c in Reach(pre + es).conns
    requires !Reach(pre + es).conns[c].client.shut && !Reach(pre + es).conns[c].proxy.shut
    ensures RelayDelivery.OwnSteps(es, c, w) == [] && |Reach(pre).conns[c].Get(w).acts| == 1 ==>
              Reach(pre + es).conns[c].Get(w) == Reach(pre).conns[c].Get(w)
  {
    if RelayDelivery.OwnSteps(es, c, w) == [] && |Reach(pre).conns[c].Get(w).acts| == 1 {
      RelayLifetime.RunInv(pre);
      RelaySteps.Holder(Reach(pre), c, w, 0);
      RelayTheorems.ContinueReach(pre, es);
      RelayDelivery.Undisturbed(Reach(pre), es, c, w);
    }
  }

  // ------------------------------------------------------------------ every reason leads to an abort

  /** Direction w of c is on its way to an abort. */
  predicate Doomed(s: State, c: nat, w: Way) { c in s.conns && !Sound(s.conns[c].Get(w)) }

  lemma PostBites(s: State, c: nat, w: Way, task: Task, more: bool)
    requires c in s.conns && Running(s.conns[c]) && FlowOk(s.conns[c].Get(w), s.bufs.mem)
    requires s.conns[c].Get(w).acts == [Thread(task, more)] && (task.PostWait? || task.PostRead? || task.PostSend?)
    ensures Doomed(DoTask(s, c, w, 0, task, more, false), c, w)
  {
    var f := s.conns[c].Get(w);
    var op := if task.PostWait? then OpWait else if task.PostRead? then OpRead(f.buf.id) else OpSend(f.buf.id, f.off, f.len);
    PostFails(s.conns[c], w, op, false, task, more);
    SetDoomed(s.conns[c], w, Posted(f, op, [Thread(Abort(Cas), more)]));
  }

  lemma TakeBites(s: State, c: nat, w: Way, more: bool)
    requires c in s.conns && s.conns[c].Get(w).acts == [Thread(TakeBuf, more)] && s.bufs.pool == [] && LockFree(s)
    ensures Doomed(DoTask(s, c, w, 0, TakeBuf, more, false), c, w)
  {
    var g := s.conns[c].Get(w).(buf := Nil);
    assert PopBuf(s.bufs, D(c, w), false).1 == Nil;
    BecomeIs(s.conns[c].Set(w, g), w, [Thread(Abort(Cas), more)]);
    SetDoomed(s.conns[c], w, g.(acts := [Thread(Abort(Cas), more)]));
  }

  lemma SetDoomed(conn: Conn, w: Way, g: Flow)
    requires !Sound(g)
    ensures !Sound(conn.Set(w, g).Get(w))
  {
  }

  lemma CompleteBites(s: State, c: nat, w: Way, op: Op, x: bool, out: Outcome)
    requires c in s.conns && s.conns[c].Get(w).acts == [Kernel(op, x)] && FlowOk(s.conns[c].Get(w), s.bufs.mem)
    requires (out.Failed? || (op.OpSend? && out.n == 0)) && (op.OpRead? ==> op.b in s.bufs.mem)
    ensures (op.OpRead? && |out.data| > BUF_SIZE) || (op.OpSend? && out.n > op.len - op.off) ||
            Doomed(DoComplete(s, c, w, 0, op, out), c, w)
  {
    match op
    case OpWait => BecomeIs(s.conns[c], w, [Packet(false, 0)]);
    case OpRead(b) => if |out.data| <= BUF_SIZE { RelaySteps.ReadIs(s, c, w, b, out); }
    case OpSend(b, off, len) =>
      RelaySteps.SendRange(s.conns[c].Get(w), b, off, len, x, s.bufs.mem);
      if out.n <= len - off { RelaySteps.SendIs(s, c, w, b, off, len, out); }
  }

  lemma ActBites(s: State, c: nat, w: Way, ok: bool, out: Outcome)
    requires c in s.conns && Running(s.conns[c]) && FlowOk(s.conns[c].Get(w), s.bufs.mem) && |s.conns[c].Get(w).acts| == 1
    requires s.conns[c].Get(w).buf.At? ==> s.conns[c].Get(w).buf.id in s.bufs.mem
    requires Cause(s, Work(c, w, 0, ok, out), c)
    ensures DoWork(s, c, w, 0, ok, out) == s || Doomed(DoWork(s, c, w, 0, ok, out), c, w)
  {
    var f := s.conns[c].Get(w);
    assert f.acts == [f.acts[0]];
    match f.acts[0]
    case Kernel(op, x) => CompleteBites(s, c, w, op, x, out);
    case Thread(task, more) =>
      if task.TakeBuf? {
        if LockFree(s) { TakeBites(s, c, w, more); }
      } else {
        PostBites(s, c, w, task, more);
      }
  }

  lemma WalkBites(s: State)
    requires Inv(s) && s.walk.Walk?
    ensures s.walk.c in DoWalk(s).conns && DoWalk(s).conns[s.walk.c].closing
  {
    RelayLifetime.WalkerOn(s);
    RelayLifetime.WalkIs(s);
    RelayLifetime.WalkEffect(s.conns[s.walk.c], s.walk.at, s.bufs.mem);
  }

  /** A reason that takes effect puts its direction on the way to an abort, or is one. */
  lemma CauseBites(s: State, e: Step, c: nat)
    requires Inv(s) && c in s.conns && Cause(s, e, c) && Next(s, e) != s
    ensures e.Work? ==> Doomed(Next(s, e), c, e.w)
    ensures !e.Work? ==> c in Next(s, e).conns && Next(s, e).conns[c].closing
  {
    if e.Work? {
      RelaySteps.Holder(s, c, e.w, e.k);
      RelaySteps.OwnBuf(s, c, e.w);
      ActBites(s, c, e.w, e.ok, e.out);
    } else {
      WalkBites(s);
    }
  }

  /** The steps of its own that a doomed direction is away from the abort. */
  function Left(f: Flow): nat
    requires |f.acts| == 1
  { match f.acts[0] case Packet(_, _) => 3 case Thread(task, _) => if task.Handle? then 2 else 1 case _ => 1 }

  /** The direction has come nearer to the abort, or there it is. */
  predicate Nearer(conn: Conn, w: Way, n: nat) {
    conn.closing || (!Sound(conn.Get(w)) && Left(conn.Get(w)) <= n)
  }

  lemma SetNearer(conn: Conn, w: Way, g: Flow)
    requires !Sound(g)
    ensures Nearer(conn.Set(w, g), w, Left(g))
  {
  }

  lemma PacketNearer(conn: Conn, w: Way, good: bool, n: nat)
    requires conn.Get(w).acts == [Packet(good, n)] && !Sound(conn.Get(w))
    ensures Nearer(Goto(conn, w, 0, Handle(good, n), false), w, 2)
  {
    BecomeIs(conn, w, [Thread(Handle(good, n), false)]);
    SetNearer(conn, w, conn.Get(w).(acts := [Thread(Handle(good, n), false)]));
  }

  lemma HandleNearer(conn: Conn, w: Way, good: bool, n: nat, more: bool)
    requires conn.Get(w).acts == [Thread(Handle(good, n), more)] && !Sound(conn.Get(w))
    ensures Nearer(DoHandle(conn, w, 0, good, n, more), w, 1)
  {
    BecomeIs(conn.Set(w, conn.Get(w)), w, [Thread(Abort(Cas), more)]);
    SetNearer(conn, w, conn.Get(w).(acts := [Thread(Abort(Cas), more)]));
  }

  lemma AbortNearer(conn: Conn, w: Way, p: AbortAt, more: bool, at: AbortAt)
    requires Good(conn, at) && conn.Get(w).acts == [Thread(Abort(p), more)] && !conn.closing
    ensures DoAbort(conn, w, 0, p, more).closing
  {
    assert p == Cas;
    AbortIs(conn, w, p, more);
  }

  lemma DoomedStep(s: State, c: nat, w: Way, ok: bool, out: Outcome)
    requires c in s.conns && Good(s.conns[c], WalkAt(s.walk, c)) && Doomed(s, c, w) && !s.conns[c].closing
    ensures var s' := DoWork(s, c, w, 0, ok, out);
            c in s'.conns && Nearer(s'.conns[c], w, Left(s.conns[c].Get(w)) - 1)
  {
    var f := s.conns[c].Get(w);
    assert f.acts == [f.acts[0]];
    match f.acts[0]
    case Packet(good, n) => PacketNearer(s.conns[c], w, good, n);
    case Thread(task, more) => DoomedTask(s, c, w, task, more, ok);
  }

  lemma DoomedTask(s: State, c: nat, w: Way, task: Task, more: bool, ok: bool)
    requires c in s.conns && Good(s.conns[c], WalkAt(s.walk, c)) && Doomed(s, c, w) && !s.conns[c].closing
    requires s.conns[c].Get(w).acts == [Thread(task, more)]
    ensures var s' := DoTask(s, c, w, 0, task, more, ok);
            c in s'.conns && Nearer(s'.conns[c], w, Left(s.conns[c].Get(w)) - 1)
  {
    match task
    case Handle(good, n) => HandleNearer(s.conns[c], w, good, n, more);
    case Abort(p) => AbortNearer(s.conns[c], w, p, more, WalkAt(s.walk, c));
  }

  /** One step of any thread. */
  lemma DoomedNext(s: State, e: Step, c: nat, w: Way) returns (n: nat)
    requires Inv(s) && Doomed(s, c, w) && !s.conns[c].closing
    ensures n == Left(s.conns[c].Get(w)) - if RelayDelivery.IsOwn(e, c, w) then 1 else 0
    ensures c in Next(s, e).conns && Nearer(Next(s, e).conns[c], w, n) && Inv(Next(s, e))
  {
    n := Left(s.conns[c].Get(w)) - if RelayDelivery.IsOwn(e, c, w) then 1 else 0;
    RelaySteps.Holder(s, c, w, 0);
    RelayLifetime.NextKeeps(s, e);
    if RelayDelivery.IsOwn(e, c, w) {
      DoomedStep(s, c, w, e.ok, e.out);
    } else {
      NotShut(s.conns[c], WalkAt(s.walk, c), Dst(w));
      RelayDelivery.FlowForeign(s, c, w, e);
    }
  }

  /** Somewhere along the steps c is closing. */
  predicate Aborts(s: State, es: seq<Step>, c: nat)
    decreases |es|
  { (c in s.conns && s.conns[c].closing) || (es != [] && Aborts(Next(s, es[0]), es[1..], c)) }

  lemma {:induction false} AbortsWhen(s: State, es: seq<Step>, c: nat) returns (i: nat)
    requires Aborts(s, es, c)
    ensures i <= |es| && c in Continue(s, es[..i]).conns && Continue(s, es[..i]).conns[c].closing
    decreases |es|
  {
    if c in s.conns && s.conns[c].closing {
      i := 0;
    } else {
      var k := AbortsWhen(Next(s, es[0]), es[1..], c);
      i := k + 1;
      assert es[..i][1..] == es[1..][..k];
    }
  }

  lemma FewerLeft(conn: Conn, w: Way, n: nat, m: nat)
    requires Nearer(conn, w, n) && n <= m
    ensures Nearer(conn, w, m)
  {
  }

  /** The own steps of w among `es` are enough for the abort. */
  ghost predicate Bound(s: State, es: seq<Step>, c: nat, w: Way) {
    Inv(s) && c in s.conns && Nearer(s.conns[c], w, |RelayDelivery.OwnSteps(es, c, w)|)
  }

  lemma StillBound(s: State, es: seq<Step>, c: nat, w: Way)
    requires Bound(s, es, c, w) && !s.conns[c].closing
    ensures es != [] && Bound(Next(s, es[0]), es[1..], c, w)
  {
    RelayDelivery.OwnHead(es, c, w);
    var n := DoomedNext(s, es[0], c, w);
    FewerLeft(Next(s, es[0]).conns[c], w, n, |RelayDelivery.OwnSteps(es[1..], c, w)|);
  }

  /** A doomed direction that goes on gets its connection aborted, whatever all other threads do meanwhile. */
  lemma {:induction false} DoomedAborts(s: State, es: seq<Step>, c: nat, w: Way)
    requires Bound(s, es, c, w)
    ensures Aborts(s, es, c)
    decreases |es|
  {
    if !s.conns[c].closing {
      StillBound(s, es, c, w);
      DoomedAborts(Next(s, es[0]), es[1..], c, w);
    }
  }

  lemma DoomedBound(s: State, es: seq<Step>, c: nat, w: Way)
    requires Inv(s) && Doomed(s, c, w) && |RelayDelivery.OwnSteps(es, c, w)| >= 3
    ensures Bound(s, es, c, w)
  {
  }

  lemma CauseDooms(pre: seq<Step>, e: Step, c: nat)
    requires c in Reach(pre).conns && e.Work? && Cause(Reach(pre), e, c) && Next(Reach(pre), e) != Reach(pre)
    ensures Doomed(Reach(pre + [e]), c, e.w)
  {
    RelayLifetime.RunInv(pre);
    CauseBites(Reach(pre), e, c);
    assert (pre + [e])[..|pre|] == pre;
  }

  /**
   Every failure of an operation, a post or an allocation, and every send that moved nothing, aborts the
   connection within three more steps of its direction.
   */
  lemma FailureAborts(pre: seq<Step>, e: Step, es: seq<Step>, c: nat) returns (i: nat)
    requires c in Reach(pre).conns && e.Work? && Cause(Reach(pre), e, c) && Next(Reach(pre), e) != Reach(pre)
    requires |RelayDelivery.OwnSteps(es, c, e.w)| >= 3
    ensures i <= |es| && c in Reach(pre + [e] + es[..i]).conns && Reach(pre + [e] + es[..i]).conns[c].closing
  {
    CauseDooms(pre, e, c);
    RelayLifetime.RunInv(pre + [e]);
    DoomedBound(Reach(pre + [e]), es, c, e.w);
    DoomedAborts(Reach(pre + [e]), es, c, e.w);
    i := AbortsWhen(Reach(pre + [e]), es, c);
    RelayTheorems.ContinueReach(pre + [e], es[..i]);
  }
}
