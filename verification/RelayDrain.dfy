/**
 Draining the pool after relay_pool_abort: whoever won a connection's abort shuts both its sockets in
 its own next actions; from then on the work left on the whole pool is bounded; and when nothing is
 left to do the live list is empty and the done event, on which relay_pool_stop waits without a
 timeout, is signalled.
 */
module RelayDrain {
  import opened RelayPool
  import opened RelayInvariant
  import opened RelayTheorems
  import RelayLifetime
  import RelaySteps

  // ------------------------------------------------------------------ the winner of an abort

  /** The shutdown calls still to come. */
  function ToShut(conn: Conn): nat { (if conn.client.shut then 0 else 1) + (if conn.proxy.shut then 0 else 1) }

  /** The next action of the thread that won the compare-exchange on c, while a socket is not yet shut. */
  predicate Winner(s: State, e: Step, c: nat)
    requires c in s.conns
  {
    && !BothShut(s.conns[c])
    && match e
       case Work(c', w, k, _, _) => c' == c && k == 0 && PosIn(s.conns[c].Get(w).acts) != Cas
       case WalkOn => s.walk.Walk? && s.walk.c == c && s.walk.at != Cas
       case _ => false
  }

  lemma EffectShuts(conn: Conn, p: AbortAt)
    requires !conn.client.closed && !conn.proxy.closed && p != Cas && Flags(conn) == FlagsBefore(p) && !BothShut(conn)
    ensures ToShut(AbortEffect(conn, p)) == ToShut(conn) - 1
  {
  }

  lemma AbortShuts(conn: Conn, w: Way, p: AbortAt, more: bool, walk: AbortAt)
    requires Good(conn, walk) && conn.Get(w).acts == [Thread(Abort(p), more)] && p != Cas && !BothShut(conn)
    ensures ToShut(DoAbort(conn, w, 0, p, more)) == ToShut(conn) - 1
  {
    AbortIs(conn, w, p, more);
    var task := if AbortEnds(p, conn.closing) then Release else Abort(AbortNext(p));
    EffectShuts(conn.Set(w, conn.Get(w).(acts := [Thread(task, more)])), p);
  }

  lemma WorkShuts(s: State, c: nat, w: Way, ok: bool, out: Outcome)
    requires Inv(s) && c in s.conns && Winner(s, Work(c, w, 0, ok, out), c)
    ensures var s' := DoWork(s, c, w, 0, ok, out); c in s'.conns && ToShut(s'.conns[c]) == ToShut(s.conns[c]) - 1
  {
    RelaySteps.Holder(s, c, w, 0);
    TaskShuts(s, c, w, s.conns[c].Get(w).acts[0].task.at, s.conns[c].Get(w).acts[0].more, ok);
  }

  lemma TaskShuts(s: State, c: nat, w: Way, p: AbortAt, more: bool, ok: bool)
    requires c in s.conns && Good(s.conns[c], WalkAt(s.walk, c)) && !BothShut(s.conns[c])
    requires s.conns[c].Get(w).acts == [Thread(Abort(p), more)] && p != Cas
    ensures var s' := DoTask(s, c, w, 0, Abort(p), more, ok); c in s'.conns && ToShut(s'.conns[c]) == ToShut(s.conns[c]) - 1
  {
    AbortShuts(s.conns[c], w, p, more, WalkAt(s.walk, c));
  }

  lemma WalkShuts(s: State, c: nat)
    requires Inv(s) && c in s.conns && Winner(s, WalkOn, c)
    ensures var s' := DoWalk(s); c in s'.conns && ToShut(s'.conns[c]) == ToShut(s.conns[c]) - 1
  {
    RelayLifetime.WalkerOn(s);
    RelayLifetime.WalkIs(s);
    EffectShuts(s.conns[c], s.walk.at);
  }

  lemma WinnerShuts(s: State, e: Step, c: nat)
    requires Inv(s) && c in s.conns && Winner(s, e, c)
    ensures var s' := Next(s, e); c in s'.conns && ToShut(s'.conns[c]) == ToShut(s.conns[c]) - 1
  {
    match e
    case Work(_, w, _, ok, out) => WorkShuts(s, c, w, ok, out);
    case WalkOn => WalkShuts(s, c);
  }

  /** While a closing connection has a socket that is not shut, its winner can act. */
  lemma WinnerReady(s: State, c: nat) returns (e: Step)
    requires Inv(s) && c in s.conns && s.conns[c].closing && !BothShut(s.conns[c])
    ensures Winner(s, e, c) && (LockFree(s) ==> e.Work?)
  {
    var conn := s.conns[c];
    assert ConnOk(s, c, conn);
    if PosIn(conn.up.acts) != Cas {
      e := Work(c, Up, 0, true, Fine([], 0));
    } else if PosIn(conn.down.acts) != Cas {
      e := Work(c, Down, 0, true, Fine([], 0));
    } else {
      e := WalkOn;
    }
  }

  /** How many of the steps are the winner's. */
  function WinnerSteps(s: State, es: seq<Step>, c: nat): nat
    decreases |es|
  {
    if es == [] then 0
    else (if c in s.conns && Winner(s, es[0], c) then 1 else 0) + WinnerSteps(Next(s, es[0]), es[1..], c)
  }

  /**
   Whatever else is interleaved, each action of the winner shuts a socket and none is ever reopened: after
   two of them at the latest both are shut.
   */
  lemma {:induction false} AbortFinishes(s: State, es: seq<Step>, c: nat)
    requires Inv(s) && c in s.conns
    ensures var t := Continue(s, es);
            && c in t.conns && WinnerSteps(s, es, c) + ToShut(t.conns[c]) <= ToShut(s.conns[c]) <= 2
            && (WinnerSteps(s, es, c) == 2 ==> BothShut(t.conns[c]))
    decreases |es|
  {
    if es == [] {
    } else {
      if Winner(s, es[0], c) { WinnerShuts(s, es[0], c); } else { StepOn(s, es[0], c); }
      RelayLifetime.NextKeeps(s, es[0]);
      AbortFinishes(Next(s, es[0]), es[1..], c);
    }
  }

  /**
   After relay_pool_abort: every listed connection is closing; both its sockets are shut, or the thread
   that is to shut them can act; and once that thread is through, every outstanding operation is cancelled.
   */
  lemma AfterAbort(es: seq<Step>, c: nat, w: Way)
    requires Reach(es).aborted && c in Reach(es).list.order
    ensures var s := Reach(es);
            && !s.accepting && c in s.conns && s.conns[c].closing
            && (BothShut(s.conns[c]) || exists e :: Winner(s, e, c))
            && var conn := s.conns[c];
               Pos(conn, WalkAt(s.walk, c)) == Cas && |conn.Get(w).acts| == 1 && conn.Get(w).acts[0].Kernel? ==>
                 conn.Get(w).acts[0].cancelled
  {
    var s := Reach(es);
    RelayLifetime.RunInv(es);
    ListedClosing(s, c);
    assert ConnOk(s, c, s.conns[c]);
    if !BothShut(s.conns[c]) { var e := WinnerReady(s, c); }
  }

  // ------------------------------------------------------------------ the work left on the pool

  /** Not yet published, or only going down. */
  predicate Falling(conn: Conn) { conn == NEW_CONN || Sinks(conn) }

  ghost predicate Draining(s: State) { s.aborted && forall c :: c in s.conns ==> Falling(s.conns[c]) }

  /** An aborted pool drains once both sockets of every listed connection are shut. */
  lemma AllShut(s: State)
    requires Inv(s) && s.aborted
    requires forall c :: c in s.list.order ==> c in s.conns && BothShut(s.conns[c])
    ensures Draining(s)
  {
    forall c | c in s.conns ensures Falling(s.conns[c]) { assert ConnOk(s, c, s.conns[c]); }
  }

  /** The actions left on a connection. */
  function Load(conn: Conn): nat { if conn == NEW_CONN then 0 else Rank(conn) }

  function PoolRank(conns: map<nat, Conn>, n: nat): nat {
    if n == 0 then 0 else PoolRank(conns, n - 1) + if n - 1 in conns then Load(conns[n - 1]) else 0
  }

  lemma {:induction false} PoolRankPut(conns: map<nat, Conn>, c: nat, conn: Conn, n: nat)
    requires c in conns
    ensures PoolRank(conns[c := conn], n) ==
            if c < n then PoolRank(conns, n) - Load(conns[c]) + Load(conn) else PoolRank(conns, n)
    ensures c < n ==> Load(conns[c]) <= PoolRank(conns, n)
  {
    if n == 0 {
    } else {
      PoolRankPut(conns, c, conn, n - 1);
    }
  }

  lemma {:induction false} PoolRankNew(conns: map<nat, Conn>, c: nat, n: nat)
    requires n <= c
    ensures PoolRank(conns[c := NEW_CONN], n) == PoolRank(conns, n)
  {
    if n == 0 {
    } else {
      PoolRankNew(conns, c, n - 1);
    }
  }

  /** A step that does work. */
  predicate Effective(s: State, e: Step) { (e.Work? || e.TearDown?) && Next(s, e) != s }

  ghost predicate Sinking(s: State, s': State, effective: bool) {
    && Draining(s')
    && PoolRank(s'.conns, s'.nextConn) + (if effective then 1 else 0) <= PoolRank(s.conns, s.nextConn)
  }

  /** One connection went down. */
  lemma PutSinks(s: State, s': State, c: nat, effective: bool)
    requires Draining(s) && c in s.conns && c < s.nextConn == s'.nextConn && s'.aborted
    requires c in s'.conns && s'.conns == s.conns[c := s'.conns[c]] && Falling(s'.conns[c])
    requires Load(s'.conns[c]) + (if effective then 1 else 0) <= Load(s.conns[c])
    ensures Sinking(s, s', effective)
  {
    PoolRankPut(s.conns, c, s'.conns[c], s.nextConn);
  }

  lemma AdvanceSinks(s: State, s': State, c: nat, stuck: bool)
    requires Inv(s) && Draining(s) && c in s.conns && Advanced(s, s', c, stuck)
    requires s'.nextConn == s.nextConn && s'.aborted && (s.conns[c] == NEW_CONN ==> s' == s)
    ensures Sinking(s, s', s' != s)
  {
    assert ConnOk(s, c, s.conns[c]);
    if s' != s { PutSinks(s, s', c, true); }
  }

  /** A step that touches no connection. */
  lemma SameSinks(s: State, s': State)
    requires Draining(s) && s'.conns == s.conns && s'.nextConn == s.nextConn && s'.aborted
    ensures Sinking(s, s', false)
  {
  }

  predicate SameCounters(s: State, s': State) { s'.nextConn == s.nextConn && (s.aborted ==> s'.aborted) }

  lemma TaskCounters(s: State, c: nat, w: Way, k: nat, task: Task, more: bool, ok: bool)
    requires c in s.conns && k < |s.conns[c].Get(w).acts|
    ensures SameCounters(s, DoTask(s, c, w, k, task, more, ok))
  {
  }

  lemma CompleteCounters(s: State, c: nat, w: Way, k: nat, op: Op, out: Outcome)
    requires c in s.conns && k < |s.conns[c].Get(w).acts|
    ensures SameCounters(s, DoComplete(s, c, w, k, op, out))
  {
  }

  lemma WorkCounters(s: State, c: nat, w: Way, k: nat, ok: bool, out: Outcome)
    ensures SameCounters(s, DoWork(s, c, w, k, ok, out))
  {
    if c in s.conns && k < |s.conns[c].Get(w).acts| {
      match s.conns[c].Get(w).acts[k]
      case Thread(task, more) => TaskCounters(s, c, w, k, task, more, ok);
      case Kernel(op, _) => CompleteCounters(s, c, w, k, op, out);
      case Packet(_, _) =>
    }
  }

  lemma TearDownCounters(s: State, c: nat, k: nat)
    ensures SameCounters(s, DoTearDown(s, c, k))
  {
  }

  lemma WorkSinks(s: State, e: Step)
    requires Inv(s) && Draining(s) && (e.Work? || e.TearDown?)
    ensures Sinking(s, Next(s, e), Next(s, e) != s)
  {
    if e.c in s.conns {
      match e
      case Work(c, w, k, ok, out) =>
        WorkCounters(s, c, w, k, ok, out);
        WorkAdvances(s, c, w, k, ok, out);
        AdvanceSinks(s, Next(s, e), c, !LockFree(s) || k >= |s.conns[c].Get(w).acts| || out != Fine([], 0));
      case TearDown(c, k) =>
        TearDownCounters(s, c, k);
        TearDownAdvances(s, c, k);
        AdvanceSinks(s, Next(s, e), c, !LockFree(s) || k >= |s.conns[c].ending|);
    }
  }

  lemma AdmitSinks(s: State, c: nat, running: bool)
    requires Inv(s) && Draining(s)
    ensures Sinking(s, DoAdmit(s, c, running), false)
  {
    if c in s.conns && s.conns[c].starting != 0 && LockFree(s) {
      RelayLifetime.Unpublished(s, c);
      RelayLifetime.AdmitIs(s, c, running);
      PutSinks(s, DoAdmit(s, c, running), c, false);
    }
  }

  lemma WalkSinks(s: State)
    requires Inv(s) && Draining(s)
    ensures Sinking(s, DoWalk(s), false)
  {
    if s.walk.Walk? {
      RelayLifetime.WalkerOn(s);
      WalkAdvances(s);
      WalkCounters(s);
      PutSinks(s, DoWalk(s), s.walk.c, false);
    }
  }

  lemma WalkCounters(s: State)
    requires s.walk.Walk?
    ensures SameCounters(s, DoWalk(s))
  {
  }

  lemma StartSinks(s: State)
    requires Inv(s) && Draining(s)
    ensures Sinking(s, RelayLifetime.Started(s), false)
  {
    PoolRankNew(s.conns, s.nextConn, s.nextConn);
  }

  /** Every effective step lowers the pool's rank, and no step raises it. */
  lemma StepSinks(s: State, e: Step)
    requires Inv(s) && Draining(s)
    ensures Sinking(s, Next(s, e), Effective(s, e))
  {
    if e.Work? || e.TearDown? { WorkSinks(s, e); } else { IdleSinks(s, e); }
  }

  lemma IdleSinks(s: State, e: Step)
    requires Inv(s) && Draining(s) && !e.Work? && !e.TearDown?
    ensures Sinking(s, Next(s, e), false)
  {
    match e
    case Admit(c, running) => AdmitSinks(s, c, running);
    case WalkOn => WalkSinks(s);
    case BeginStart => StartSinks(s);
    case BeginAbort => AbortSame(s); SameSinks(s, DoBeginAbort(s));
    case StopFree => StopSame(s); SameSinks(s, DoStopFree(s));
  }

  lemma AbortSame(s: State)
    ensures DoBeginAbort(s).conns == s.conns && SameCounters(s, DoBeginAbort(s))
  {
  }

  lemma StopSame(s: State)
    ensures DoStopFree(s).conns == s.conns && SameCounters(s, DoStopFree(s))
  {
  }

  function EffectiveSteps(s: State, es: seq<Step>): nat
    decreases |es|
  { if es == [] then 0 else (if Effective(s, es[0]) then 1 else 0) + EffectiveSteps(Next(s, es[0]), es[1..]) }

  /**
   Drain of the pool: no continuation, however scheduled, contains more effective actions and completions,
   over all connections together, than the pool's rank.
   */
  lemma {:induction false} PoolDrains(s: State, es: seq<Step>)
    requires Inv(s) && Draining(s)
    ensures var t := Continue(s, es);
            && Draining(t)
            && EffectiveSteps(s, es) + PoolRank(t.conns, t.nextConn) <= PoolRank(s.conns, s.nextConn)
    decreases |es|
  {
    if es == [] {
    } else {
      StepSinks(s, es[0]);
      RelayLifetime.NextKeeps(s, es[0]);
      PoolDrains(Next(s, es[0]), es[1..]);
    }
  }

  /** ... which is at most 33 for each connection ever started. */
  lemma PoolRankBound(s: State)
    requires Inv(s)
    ensures PoolRank(s.conns, s.nextConn) <= 33 * s.nextConn
  {
    forall c | c in s.conns ensures Load(s.conns[c]) <= 33 {
      assert ConnOk(s, c, s.conns[c]);
      RankBound(s.conns[c], c in s.list.order);
    }
    SumBound(s.conns, s.nextConn);
  }

  lemma {:induction false} SumBound(conns: map<nat, Conn>, n: nat)
    requires forall c :: c in conns ==> Load(conns[c]) <= 33
    ensures PoolRank(conns, n) <= 33 * n
  {
    if n == 0 {
    } else {
      SumBound(conns, n - 1);
    }
  }

  // ------------------------------------------------------------------ the end of the drain

  /** No action of a worker and no completion changes anything any more. */
  ghost predicate Quiescent(s: State) { forall e: Step :: e.Work? || e.TearDown? ==> Next(s, e) == s }

  /**
   An aborted pool comes to rest only with an empty list: every direction has ended, and the done event is
   signalled.
   */
  lemma RestIsDone(es: seq<Step>)
    requires Reach(es).aborted && LockFree(Reach(es)) && Quiescent(Reach(es))
    ensures Reach(es).list.order == [] && Reach(es).list.done
    ensures forall c :: c in Reach(es).conns ==> Reach(es).conns[c] == NEW_CONN || !Reach(es).conns[c].alive
  {
    var s := Reach(es);
    RelayLifetime.RunInv(es);
    assert s.list.order != [] ==> s.list.order[0] in s.list.order;
    forall c | c in s.list.order ensures c in s.conns && s.conns[c] != NEW_CONN && s.conns[c].alive { ListedLives(s, c); }
    forall c | c in s.conns ensures s.conns[c] == NEW_CONN || !s.conns[c].alive { RestIsFreed(s, c); }
  }

  lemma ListedLives(s: State, c: nat)
    requires Inv(s) && c in s.list.order
    ensures c in s.conns && s.conns[c] != NEW_CONN && s.conns[c].alive
  {
    assert ConnOk(s, c, s.conns[c]);
  }

  lemma RestIsFreed(s: State, c: nat)
    requires Inv(s) && s.aborted && LockFree(s) && Quiescent(s) && c in s.conns
    ensures s.conns[c] == NEW_CONN || !s.conns[c].alive
  {
    if s.conns[c] != NEW_CONN && s.conns[c].alive { var e := StillMoves(s, c); }
  }

  /** In an aborted pool something can always be done for a published connection that is not freed. */
  lemma StillMoves(s: State, c: nat) returns (e: Step)
    requires Inv(s) && s.aborted && LockFree(s) && c in s.conns && s.conns[c] != NEW_CONN && s.conns[c].alive
    ensures (e.Work? || e.TearDown?) && Next(s, e) != s
  {
    assert ConnOk(s, c, s.conns[c]);
    if Sinks(s.conns[c]) {
      e := DrainMoves(s, c);
    } else {
      ListedClosing(s, c);
      e := WinnerReady(s, c);
      WinnerShuts(s, e, c);
    }
  }

  lemma ListedClosing(s: State, c: nat)
    requires Inv(s) && s.aborted && c in s.list.order
    ensures c in s.conns && s.conns[c].closing
  {
    var i :| 0 <= i < |s.list.order| && s.list.order[i] == c;
  }

  // ------------------------------------------------------------------ the abort of the pool comes to its end

  function Place(p: AbortAt): nat {
    match p case Cas => 0 case ShutClient => 1 case ShutProxy => 2 case CancelClient => 3 case CancelProxy => 4
  }

  /** How many more actions relay_pool_abort may have to do: five for each connection it has not left behind. */
  function ToWalk(s: State): int { if s.walk.Walk? then 5 * (|s.list.order| - s.walk.j) - Place(s.walk.at) else 0 }

  lemma TearDownWalk(s: State, c: nat, k: nat)
    requires s.walk.Walk?
    ensures RelayTheorems.SameWalk(s, DoTearDown(s, c, k))
  {
  }

  /** While the list is walked, nobody else gets the lock. */
  lemma OthersWait(s: State, e: Step)
    requires s.walk.Walk? && !e.WalkOn?
    ensures RelayTheorems.SameWalk(s, Next(s, e))
  {
    if e.Work? {
      RelayTheorems.WorkWalk(s, e.c, e.w, e.k, e.ok, e.out);
    } else if e.TearDown? {
      TearDownWalk(s, e.c, e.k);
    }
  }

  lemma WalkNears(s: State)
    requires Inv(s) && s.walk.Walk?
    ensures DoWalk(s).aborted || (DoWalk(s).walk.Walk? && ToWalk(DoWalk(s)) < ToWalk(s))
  {
    RelayLifetime.WalkerOn(s);
    RelayLifetime.WalkIs(s);
  }

  function Walks(es: seq<Step>): nat
    decreases |es|
  { if es == [] then 0 else (if es[0].WalkOn? then 1 else 0) + Walks(es[1..]) }

  /** The abort is done, or n more actions of the walker will do. */
  predicate Heading(s: State, n: int) { s.aborted || (s.walk.Walk? && ToWalk(s) <= n) }

  lemma WalkStepOn(s: State, e: Step, n: int)
    requires Inv(s) && Heading(s, n)
    ensures Heading(Next(s, e), n - if e.WalkOn? then 1 else 0)
  {
    if s.aborted {
      RelayTheorems.ListShrinks(s, e);
    } else if e.WalkOn? {
      WalkNears(s);
    } else {
      OthersWait(s, e);
    }
  }

  lemma {:induction false} WalkRuns(s: State, es: seq<Step>)
    requires Inv(s) && Heading(s, Walks(es))
    ensures Continue(s, es).aborted
    decreases |es|
  {
    if es == [] {
      if !s.aborted { WalkOpen(s); }
    } else {
      WalkStepOn(s, es[0], Walks(es));
      RelayLifetime.NextKeeps(s, es[0]);
      WalkRuns(Next(s, es[0]), es[1..]);
    }
  }

  lemma WalkOpen(s: State)
    requires Inv(s) && s.walk.Walk?
    ensures ToWalk(s) > 0
  {
    RelayLifetime.WalkerOn(s);
  }

  lemma BeginWalk(s: State)
    requires Inv(s) && LockFree(s)
    ensures var s' := DoBeginAbort(s); s'.aborted || (s'.walk.Walk? && ToWalk(s') == 5 * |s.list.order|)
  {
  }

  /**
   relay_pool_abort, once it has the lock, is through after at most five actions for each listed connection,
   whatever all other threads do meanwhile.
   */
  lemma PoolAborts(pre: seq<Step>, es: seq<Step>)
    requires LockFree(Reach(pre)) && Walks(es) >= 5 * |Reach(pre).list.order|
    ensures Continue(Next(Reach(pre), BeginAbort), es).aborted
  {
    RelayLifetime.RunInv(pre);
    BeginWalk(Reach(pre));
    RelayLifetime.NextKeeps(Reach(pre), BeginAbort);
    WalkRuns(Next(Reach(pre), BeginAbort), es);
  }
}
