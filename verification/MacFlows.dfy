/**
 Handshakes and UDP associations of the macOS provider: completion, timeout, replacement, teardown
 and stop race under two locks. A step is one locked section.
 */
module MacFlows {
  import opened Basics

  datatype Pending = Pending(token: nat, flow: nat)

  datatype Claim = ByCompletion | ByTimeout | ByStop | ByClose | ByRearm
  datatype Fate = Making | InMap | Replaced | TornDown | Stopped | Refused

  /** udpIdleTimeout, in milliseconds of uptime. */
  const IDLE_MS: nat := 120000

  /** An association object; `last` is the uptime of its last activity. */
  datatype Assoc = Assoc(flow: nat, tornDown: bool, last: nat)

  /**
   `pending` and `stopping` are guarded by handshakeLock, `associations` by udpLock. `objects` holds
   every association ever made, `now` is the uptime, `stale` the flows that sweeps have collected and
   not yet come back to. History: who claimed each armed handshake, what became of each
   association, how many stops still have their second section to run, and whether one has run both
   since the last start.
   */
  datatype State = State(
    stopping: bool,
    pending: map<nat, Pending>,
    associations: map<nat, nat>,
    objects: map<nat, Assoc>,
    made: nat,
    tokens: nat,
    armed: map<nat, nat>,
    claims: map<nat, seq<Claim>>,
    fate: map<nat, Fate>,
    secondDue: nat,
    drained: bool,
    now: nat,
    stale: multiset<nat>)

  const INIT := State(false, map[], map[], map[], 0, 0, map[], map[], map[], 0, false, 0, multiset{})

  datatype Step =
    | Start
    | Arm(conn: nat, flow: nat)
    | Timeout(token: nat)                          // the timer of one armed handshake fires
    | Complete(conn: nat)                          // completeHandshake, then the sessions are made
    | CloseRelay(conn: nat)
    | Insert(a: nat)                               // the association is published, or refused
    | Callback(a: nat)                             // an error or the end of one of a's own channels
    | Activity(a: nat)                             // a datagram on one of a's channels
    | Tick(d: nat)
    | SweepScan                                    // the sweep timer collects the idle flows under udpLock
    | SweepTear(flow: nat)                         // ... and later comes back to one of them
    | StopFirst                                    // stopProxy under handshakeLock
    | StopSecond                                   // stopProxy under udpLock

  function Claimed(s: State, token: nat, c: Claim): map<nat, seq<Claim>> {
    s.claims[token := (if token in s.claims then s.claims[token] else []) + [c]]
  }

  function ClaimAll(s: State): map<nat, seq<Claim>> {
    map t | t in s.claims ::
      if exists c :: c in s.pending && s.pending[c].token == t then s.claims[t] + [ByStop] else s.claims[t]
  }

  predicate IsIdle(s: State, a: nat) { a in s.objects && s.now - s.objects[a].last > IDLE_MS }

  /** teardownUDP under udpLock. */
  function TearDown(s: State, flow: nat, onlyIfIdle: bool, expected: Option<nat>): State {
    if flow !in s.associations || s.associations[flow] !in s.objects then s
    else
      var a := s.associations[flow];
      if s.objects[a].tornDown || (expected.Some? && expected.value != a) || (onlyIfIdle && !IsIdle(s, a)) then s
      else
        s.(associations := s.associations - {flow},
           objects := s.objects[a := s.objects[a].(tornDown := true)],
           fate := s.fate[a := TornDown])
  }

  function Next(s: State, e: Step): State {
    match e
    case Start => s.(stopping := false, drained := false)
    case Arm(conn, flow) =>
      if s.stopping then s
      else
        var token := s.tokens;
        var claims := if conn in s.pending then Claimed(s, s.pending[conn].token, ByRearm) else s.claims;
        s.(pending := s.pending[conn := Pending(token, flow)], tokens := token + 1,
           armed := s.armed[token := conn], claims := claims[token := []])
    case Timeout(token) =>
      if token !in s.armed then s
      else
        var conn := s.armed[token];
        if conn in s.pending && s.pending[conn].token == token
        then s.(pending := s.pending - {conn}, claims := Claimed(s, token, ByTimeout))
        else s
    case Complete(conn) =>
      if conn !in s.pending then s
      else
        var p := s.pending[conn];
        var s1 := s.(pending := s.pending - {conn}, claims := Claimed(s, p.token, ByCompletion));
        if s.stopping then s1
        else
          var a := s.made;
          s1.(made := a + 1, objects := s.objects[a := Assoc(p.flow, false, s.now)], fate := s.fate[a := Making])
    case CloseRelay(conn) =>
      if conn !in s.pending then s
      else s.(pending := s.pending - {conn}, claims := Claimed(s, s.pending[conn].token, ByClose))
    case Insert(a) =>
      if a !in s.objects || a !in s.fate || s.fate[a] != Making then s
      else if s.stopping then s.(fate := s.fate[a := Refused])
      else
        var flow := s.objects[a].flow;
        var fate := if flow in s.associations then s.fate[s.associations[flow] := Replaced] else s.fate;
        s.(associations := s.associations[flow := a], fate := fate[a := InMap])
    case Callback(a) => if a in s.objects then TearDown(s, s.objects[a].flow, false, Some(a)) else s
    case Activity(a) => if a in s.objects then s.(objects := s.objects[a := s.objects[a].(last := s.now)]) else s
    case Tick(d) => s.(now := s.now + d)
    case SweepScan => s.(stale := s.stale + multiset(set f | f in s.associations && IsIdle(s, s.associations[f]) :: f))
    case SweepTear(flow) =>
      if flow in s.stale then TearDown(s.(stale := s.stale - multiset{flow}), flow, true, None) else s
    case StopFirst =>
      s.(stopping := true, pending := map[], claims := ClaimAll(s), secondDue := s.secondDue + 1)
    case StopSecond =>
      if s.secondDue == 0 then s
      else
        s.(associations := map[],
           fate := map a | a in s.fate ::
             if exists f :: f in s.associations && s.associations[f] == a then Stopped else s.fate[a],
           secondDue := s.secondDue - 1,
           drained := s.drained || s.stopping)
  }

  function Reach(es: seq<Step>): State
    decreases |es|
  { if es == [] then INIT else Next(Reach(es[..|es| - 1]), es[|es| - 1]) }

  // ------------------------------------------------------------------ invariant

  /** An armed handshake waits in `pending`, or has been claimed once. */
  ghost predicate TokenOk(s: State, t: nat) {
    t in s.armed ==>
      && t < s.tokens && t in s.claims
      && (if s.armed[t] in s.pending && s.pending[s.armed[t]].token == t then s.claims[t] == []
          else |s.claims[t]| == 1)
  }

  ghost predicate PendingOk(s: State, c: nat) {
    c in s.pending ==> s.pending[c].token in s.armed && s.armed[s.pending[c].token] == c
  }

  ghost predicate FateOk(s: State, a: nat) {
    && (a in s.objects <==> a in s.fate)
    && (a in s.objects ==>
          && a < s.made && s.objects[a].last <= s.now
          && (s.fate[a] == InMap <==> s.objects[a].flow in s.associations && s.associations[s.objects[a].flow] == a)
          && (s.objects[a].tornDown ==> s.fate[a] == TornDown))
  }

  ghost predicate FlowOk(s: State, f: nat) {
    f in s.associations ==> s.associations[f] in s.objects && s.objects[s.associations[f]].flow == f
  }

  ghost predicate Inv(s: State) {
    && (forall t :: TokenOk(s, t))
    && (forall c :: PendingOk(s, c))
    && (forall a :: FateOk(s, a))
    && (forall f :: FlowOk(s, f))
    && (forall t :: t in s.claims <==> t in s.armed)
    && (s.stopping ==> s.pending == map[])
    && (s.drained ==> s.stopping && s.associations == map[])
  }

  lemma ArmKeeps(s: State, e: Step)
    requires Inv(s) && (e.Start? || e.Arm?)
    ensures Inv(Next(s, e))
  {
    var s' := Next(s, e);
    assert TokenOk(s, s.tokens) && FateOk(s, s.made);
    if e.Arm? && e.conn in s.pending {
      assert PendingOk(s, e.conn) && TokenOk(s, s.pending[e.conn].token);
    }
    forall t ensures TokenOk(s', t) { assert TokenOk(s, t); }
    forall c ensures PendingOk(s', c) {
      assert PendingOk(s, c);
      if c in s.pending { assert TokenOk(s, s.pending[c].token); }
    }
    forall a ensures FateOk(s', a) { assert FateOk(s, a); }
    forall f ensures FlowOk(s', f) { assert FlowOk(s, f); }
  }

  /** A pending handshake is claimed once. */
  lemma ClaimKeeps(s: State, conn: nat, who: Claim)
    requires Inv(s) && conn in s.pending
    ensures Inv(s.(pending := s.pending - {conn}, claims := Claimed(s, s.pending[conn].token, who)))
  {
    var s' := s.(pending := s.pending - {conn}, claims := Claimed(s, s.pending[conn].token, who));
    assert PendingOk(s, conn) && TokenOk(s, s.pending[conn].token);
    forall t ensures TokenOk(s', t) { assert TokenOk(s, t); }
    forall c ensures PendingOk(s', c) {
      assert PendingOk(s, c);
      if c in s.pending { assert TokenOk(s, s.pending[c].token); }
    }
    forall a ensures FateOk(s', a) { assert FateOk(s, a); }
    forall f ensures FlowOk(s', f) { assert FlowOk(s, f); }
  }

  lemma CompleteKeeps(s: State, conn: nat)
    requires Inv(s)
    ensures Inv(Next(s, Complete(conn)))
  {
    var s' := Next(s, Complete(conn));
    assert PendingOk(s, conn) && FateOk(s, s.made);
    if conn in s.pending { assert TokenOk(s, s.pending[conn].token); }
    forall t ensures TokenOk(s', t) { assert TokenOk(s, t); }
    forall c ensures PendingOk(s', c) {
      assert PendingOk(s, c);
      if c in s.pending { assert TokenOk(s, s.pending[c].token); }
    }
    forall a ensures FateOk(s', a) {
      assert FateOk(s, a);
      if a in s'.objects { assert FlowOk(s, s'.objects[a].flow); }
    }
    forall f ensures FlowOk(s', f) { assert FlowOk(s, f); }
  }

  lemma InsertKeeps(s: State, a: nat)
    requires Inv(s)
    ensures Inv(Next(s, Insert(a)))
  {
    var s' := Next(s, Insert(a));
    forall t ensures TokenOk(s', t) { assert TokenOk(s, t); }
    forall c ensures PendingOk(s', c) { assert PendingOk(s, c); }
    forall f ensures FlowOk(s', f) { assert FlowOk(s, f); }
    forall b ensures FateOk(s', b) {
      assert FateOk(s, b);
      if b in s.objects { assert FlowOk(s, s.objects[b].flow); }
      if a in s.objects { assert FlowOk(s, s.objects[a].flow); }
    }
  }

  lemma TearDownKeeps(s: State, flow: nat, onlyIfIdle: bool, expected: Option<nat>)
    requires Inv(s)
    ensures Inv(TearDown(s, flow, onlyIfIdle, expected))
  {
    var s' := TearDown(s, flow, onlyIfIdle, expected);
    forall t ensures TokenOk(s', t) { assert TokenOk(s, t); }
    forall c ensures PendingOk(s', c) { assert PendingOk(s, c); }
    forall f ensures FlowOk(s', f) { assert FlowOk(s, f); }
    forall a ensures FateOk(s', a) {
      assert FateOk(s, a);
      if a in s.objects { assert FlowOk(s, s.objects[a].flow); }
      assert FlowOk(s, flow);
    }
  }

  /** Uptime, activity and what a sweep remembers do not matter to the invariant. */
  lemma ClockKeeps(s: State, s': State)
    requires Inv(s) && s' == s.(now := s'.now, stale := s'.stale, objects := s'.objects) && s.now <= s'.now
    requires s'.objects.Keys == s.objects.Keys
    requires forall a :: a in s.objects ==>
               s'.objects[a] == s.objects[a] || s'.objects[a] == s.objects[a].(last := s'.now)
    ensures Inv(s')
  {
    forall t ensures TokenOk(s', t) { assert TokenOk(s, t); }
    forall c ensures PendingOk(s', c) { assert PendingOk(s, c); }
    forall a ensures FateOk(s', a) { assert FateOk(s, a); }
    forall f ensures FlowOk(s', f) { assert FlowOk(s, f); }
  }

  lemma StopSecondKeeps(s: State)
    requires Inv(s)
    ensures Inv(Next(s, StopSecond))
  {
    var s' := Next(s, StopSecond);
    forall t ensures TokenOk(s', t) { assert TokenOk(s, t); }
    forall c ensures PendingOk(s', c) { assert PendingOk(s, c); }
    forall a ensures FateOk(s', a) {
      assert FateOk(s, a);
      forall f | f in s.associations && s.associations[f] == a ensures a in s.objects && f == s.objects[a].flow {
        assert FlowOk(s, f);
      }
    }
    forall f ensures FlowOk(s', f) { assert FlowOk(s, f); }
  }

  lemma StopFirstKeeps(s: State)
    requires Inv(s)
    ensures Inv(Next(s, StopFirst))
  {
    var s' := Next(s, StopFirst);
    forall t ensures TokenOk(s', t) {
      assert TokenOk(s, t);
      if t in s.armed && (exists c :: c in s.pending && s.pending[c].token == t) {
        var c :| c in s.pending && s.pending[c].token == t;
        assert PendingOk(s, c);
      }
    }
    forall a ensures FateOk(s', a) { assert FateOk(s, a); }
    forall f ensures FlowOk(s', f) { assert FlowOk(s, f); }
  }

  lemma NextKeeps(s: State, e: Step)
    requires Inv(s)
    ensures Inv(Next(s, e))
  {
    match e
    case StopFirst => StopFirstKeeps(s);
    case Insert(a) => InsertKeeps(s, a);
    case Callback(a) => if a in s.objects { TearDownKeeps(s, s.objects[a].flow, false, Some(a)); }
    case SweepTear(flow) =>
      ClockKeeps(s, s.(stale := s.stale - multiset{flow}));
      TearDownKeeps(s.(stale := s.stale - multiset{flow}), flow, true, None);
    case Activity(_) => ClockKeeps(s, Next(s, e));
    case Tick(_) => ClockKeeps(s, Next(s, e));
    case SweepScan => ClockKeeps(s, Next(s, e));
    case StopSecond => StopSecondKeeps(s);
    case Timeout(token) =>
      if token in s.armed && s.armed[token] in s.pending && s.pending[s.armed[token]].token == token {
        ClaimKeeps(s, s.armed[token], ByTimeout);
      }
    case Complete(conn) => CompleteKeeps(s, conn);
    case CloseRelay(conn) => if conn in s.pending { ClaimKeeps(s, conn, ByClose); }
    case _ => ArmKeeps(s, e);
  }

  lemma {:induction false} RunInv(es: seq<Step>)
    ensures Inv(Reach(es))
    decreases |es|
  {
    if es == [] {
    } else {
      RunInv(es[..|es| - 1]);
      NextKeeps(Reach(es[..|es| - 1]), es[|es| - 1]);
    }
  }

  // ------------------------------------------------------------------ whole runs

  /** Every armed handshake is still waiting, or was claimed by exactly one contender. */
  lemma ClaimedOnce(es: seq<Step>, t: nat)
    requires t in Reach(es).armed
    ensures var s := Reach(es);
            t in s.claims && |s.claims[t]| == if exists c :: c in s.pending && s.pending[c].token == t then 0 else 1
  {
    RunInv(es);
    var s := Reach(es);
    assert TokenOk(s, t);
    if c :| c in s.pending && s.pending[c].token == t { assert PendingOk(s, c); }
  }

  /** While stopping there is no pending handshake, and after the second section no association. */
  lemma StopSafe(es: seq<Step>)
    ensures var s := Reach(es);
            && (s.stopping ==> s.pending == map[])
            && (s.drained ==> s.stopping && s.associations == map[])
  {
    RunInv(es);
  }

  /** ... and until the next start neither can be inserted, by whatever is still in flight. */
  lemma {:induction false} StopHolds(es: seq<Step>, more: seq<Step>)
    requires Reach(es).drained
    requires forall i :: 0 <= i < |more| ==> !more[i].Start?
    ensures var s := Reach(es + more);
            s.stopping && s.drained && s.pending == map[] && s.associations == map[]
    decreases |more|
  {
    if more == [] {
      assert es + more == es;
      StopSafe(es);
    } else {
      var init, e := more[..|more| - 1], more[|more| - 1];
      StopHolds(es, init);
      ReachLast(es, more);
      DrainedStays(Reach(es + init), e);
      StopSafe(es + more);
    }
  }

  /** Association a was made for the flow and is not yet published. */
  predicate InTheMaking(s: State, a: nat, flow: nat) {
    a in s.objects && s.objects[a].flow == flow && !s.objects[a].tornDown && a in s.fate && s.fate[a] == Making
  }

  lemma MakingStep(s: State, e: Step, a: nat, flow: nat)
    requires Inv(s) && InTheMaking(s, a, flow) && e != Insert(a)
    ensures InTheMaking(Next(s, e), a, flow)
  {
    assert FateOk(s, a);
    match e
    case Callback(b) => if b in s.objects { MakingTorn(s, s.objects[b].flow, false, Some(b), a, flow); }
    case SweepTear(f) =>
      ClockKeeps(s, s.(stale := s.stale - multiset{f}));
      MakingTorn(s.(stale := s.stale - multiset{f}), f, true, None, a, flow);
    case Insert(b) =>
      if b in s.objects && s.objects[b].flow in s.associations {
        assert FlowOk(s, s.objects[b].flow) && FateOk(s, s.associations[s.objects[b].flow]);
      }
    case StopSecond => FateMeans(s, a);
    case Complete(_) => assert FateOk(s, s.made);
    case _ =>
  }

  lemma MakingTorn(s: State, f: nat, onlyIfIdle: bool, expected: Option<nat>, a: nat, flow: nat)
    requires Inv(s) && InTheMaking(s, a, flow)
    ensures InTheMaking(TearDown(s, f, onlyIfIdle, expected), a, flow)
  {
    assert FlowOk(s, f) && FateOk(s, a);
  }

  lemma {:induction false} MakingRun(es: seq<Step>, more: seq<Step>, a: nat, flow: nat)
    requires InTheMaking(Reach(es), a, flow) && Insert(a) !in more
    ensures InTheMaking(Reach(es + more), a, flow)
    decreases |more|
  {
    if more == [] {
      ReachNil(es, more);
    } else {
      var init := more[..|more| - 1];
      MakingRun(es, init, a, flow);
      RunInv(es + init);
      MakingStep(Reach(es + init), more[|more| - 1], a, flow);
      ReachLast(es, more);
    }
  }

  lemma CompleteMakes(s: State, conn: nat)
    requires Inv(s) && conn in s.pending && !s.stopping
    ensures InTheMaking(Next(s, Complete(conn)), s.made, s.pending[conn].flow) && conn !in Next(s, Complete(conn)).pending
  {
  }

  /**
   A handshake that completes while the proxy runs ends in an association for its flow: whatever happens in
   between, the insertion publishes it, unless a stop has begun, and then it refuses it.
   */
  lemma CompletedPublishes(es: seq<Step>, conn: nat, more: seq<Step>)
    requires conn in Reach(es).pending && !Reach(es).stopping
    requires Insert(Reach(es).made) !in more
    ensures var a, flow := Reach(es).made, Reach(es).pending[conn].flow;
            var s := Reach(es + [Complete(conn)] + more);
            var s' := Next(s, Insert(a));
            if s.stopping then a in s'.fate && s'.fate[a] == Refused && s'.associations == s.associations
            else Holds(s', flow, a)
  {
    RunInv(es);
    CompleteMakes(Reach(es), conn);
    ReachLast(es, [Complete(conn)]);
    assert [Complete(conn)][..0] == [] && es + [] == es;
    MakingRun(es + [Complete(conn)], more, Reach(es).made, Reach(es).pending[conn].flow);
  }

  lemma ReachLast(es: seq<Step>, more: seq<Step>)
    requires more != []
    ensures Reach(es + more) == Next(Reach(es + more[..|more| - 1]), more[|more| - 1])
  {
    assert (es + more)[..|es + more| - 1] == es + more[..|more| - 1];
  }

  lemma DrainedStays(s: State, e: Step)
    requires s.drained && !e.Start?
    ensures Next(s, e).drained
  {
  }

  /** Association a holds the flow. */
  predicate Holds(s: State, flow: nat, a: nat) { flow in s.associations && s.associations[flow] == a }

  /** The steps that end it: a's own callback, a newer insert for the flow, a stop, or a sweep that finds a idle. */
  predicate Ends(s: State, e: Step, flow: nat, a: nat) {
    match e
    case Callback(b) => b == a
    case Insert(b) => b in s.objects && s.objects[b].flow == flow && b in s.fate && s.fate[b] == Making && !s.stopping
    case StopSecond => s.secondDue > 0
    case SweepTear(f) => f == flow && flow in s.stale && IsIdle(s, a)
    case _ => false
  }

  lemma TearDownEnds(s: State, f: nat, onlyIfIdle: bool, expected: Option<nat>, flow: nat, a: nat)
    requires Inv(s) && Holds(s, flow, a)
    ensures !Holds(TearDown(s, f, onlyIfIdle, expected), flow, a) <==>
            f == flow && (expected == None || expected == Some(a)) && (onlyIfIdle ==> IsIdle(s, a))
  {
    assert FlowOk(s, flow) && FateOk(s, a);
  }

  lemma StepEnds(s: State, e: Step, flow: nat, a: nat)
    requires Inv(s) && Holds(s, flow, a)
    ensures !Holds(Next(s, e), flow, a) <==> Ends(s, e, flow, a)
  {
    assert FlowOk(s, flow) && FateOk(s, a);
    match e
    case Callback(b) => if b in s.objects { TearDownEnds(s, s.objects[b].flow, false, Some(b), flow, a); }
    case SweepTear(f) =>
      ClockKeeps(s, s.(stale := s.stale - multiset{f}));
      TearDownEnds(s.(stale := s.stale - multiset{f}), f, true, None, flow, a);
    case Insert(b) => assert FateOk(s, b);
    case _ =>
  }

  /** In every reachable state a step takes an association off its flow exactly if it is one of those. */
  lemma LeavesIff(es: seq<Step>, e: Step, flow: nat, a: nat)
    requires Holds(Reach(es), flow, a)
    ensures !Holds(Next(Reach(es), e), flow, a) <==> Ends(Reach(es), e, flow, a)
  {
    RunInv(es);
    StepEnds(Reach(es), e, flow, a);
  }

  /**
   Over whole runs, with nothing assumed about what other callbacks and sweeps do: if an association no
   longer holds its flow, one of those steps was taken while it did.
   */
  lemma {:induction false} LeavesOnlyBy(es: seq<Step>, more: seq<Step>, flow: nat, a: nat) returns (i: nat)
    requires Holds(Reach(es), flow, a) && !Holds(Reach(es + more), flow, a)
    ensures i < |more| && Holds(Reach(es + more[..i]), flow, a) && Ends(Reach(es + more[..i]), more[i], flow, a)
    decreases |more|
  {
    if more == [] { ReachNil(es, more); }
    var n := |more| - 1;
    ReachLast(es, more);
    if Holds(Reach(es + more[..n]), flow, a) {
      LeavesIff(es + more[..n], more[n], flow, a);
      i := n;
    } else {
      i := LeavesOnlyBy(es, more[..n], flow, a);
      assert more[..n][..i] == more[..i];
    }
  }

  lemma ReachNil(es: seq<Step>, more: seq<Step>)
    requires more == []
    ensures Reach(es + more) == Reach(es)
  {
    assert es + more == es;
  }

  lemma StepTime(s: State, e: Step, a: nat)
    requires a in s.objects && a < s.made && s.objects[a].last <= s.now
    ensures var s' := Next(s, e);
            s.now <= s'.now && a in s'.objects && s.objects[a].last <= s'.objects[a].last <= s'.now
  {
    match e
    case Callback(b) => if b in s.objects { TearDownTime(s, s.objects[b].flow, false, Some(b), a); }
    case SweepTear(flow) => TearDownTime(s.(stale := s.stale - multiset{flow}), flow, true, None, a);
    case _ =>
  }

  lemma TearDownTime(s: State, flow: nat, onlyIfIdle: bool, expected: Option<nat>, a: nat)
    requires a in s.objects
    ensures var s' := TearDown(s, flow, onlyIfIdle, expected);
            s'.now == s.now && a in s'.objects && s'.objects[a].last == s.objects[a].last
  {
  }

  /** Clock and activity only move forward. */
  lemma {:induction false} TimeForward(es: seq<Step>, more: seq<Step>, a: nat)
    requires a in Reach(es).objects
    ensures var s, t := Reach(es), Reach(es + more);
            s.now <= t.now && a in t.objects && s.objects[a].last <= t.objects[a].last <= t.now
    decreases |more|
  {
    if more == [] {
      assert es + more == es;
      RunInv(es);
      assert FateOk(Reach(es), a);
    } else {
      var init := more[..|more| - 1];
      TimeForward(es, init, a);
      ReachLast(es, more);
      RunInv(es + init);
      assert FateOk(Reach(es + init), a);
      StepTime(Reach(es + init), more[|more| - 1], a);
    }
  }

  /** The step publishes another association for the flow. */
  predicate NewFor(s: State, e: Step, flow: nat) { e.Insert? && e.a in s.objects && s.objects[e.a].flow == flow }

  /** Neither a's own callback, nor a stop, nor a newer insert for the flow. */
  ghost predicate Undisturbed(es: seq<Step>, more: seq<Step>, flow: nat, a: nat) {
    forall i :: 0 <= i < |more| ==>
      more[i] != Callback(a) && more[i] != StopSecond && !NewFor(Reach(es + more[..i]), more[i], flow)
  }

  /**
   A replacement survives everything that what it replaced has left behind. Within the idle timeout of its
   last activity, no callback of any other association and no sweep, however long ago it collected the
   flow, takes it off the flow.
   */
  lemma ReplacementSafe(es: seq<Step>, more: seq<Step>, flow: nat, a: nat)
    requires Holds(Reach(es), flow, a) && a in Reach(es).objects
    requires Reach(es + more).now <= Reach(es).objects[a].last + 120000 && Undisturbed(es, more, flow, a)
    ensures Holds(Reach(es + more), flow, a)
  {
    if !Holds(Reach(es + more), flow, a) {
      var i := LeavesOnlyBy(es, more, flow, a);
      NotIdleAt(es, more, i, a);
    }
  }

  lemma Rejoin(es: seq<Step>, more: seq<Step>, i: nat)
    requires i <= |more|
    ensures es + more == (es + more[..i]) + more[i..]
  {
  }

  lemma NotIdleAt(es: seq<Step>, more: seq<Step>, i: nat, a: nat)
    requires a in Reach(es).objects && i <= |more|
    requires Reach(es + more).now <= Reach(es).objects[a].last + IDLE_MS
    ensures !IsIdle(Reach(es + more[..i]), a)
  {
    Rejoin(es, more, i);
    NotYetIdle(es, more[..i], more[i..], a);
  }

  lemma NotYetIdle(es: seq<Step>, mid: seq<Step>, rest: seq<Step>, a: nat)
    requires a in Reach(es).objects
    requires Reach((es + mid) + rest).now <= Reach(es).objects[a].last + IDLE_MS
    ensures !IsIdle(Reach(es + mid), a)
  {
    TimeForward(es, mid, a);
    TimeForward(es + mid, rest, a);
  }

  /**
   Every published association leaves the map exactly once: while it is there its fate is InMap, and
   any other fate is final.
   */
  lemma FateFinal(es: seq<Step>, e: Step, a: nat)
    requires a in Reach(es).objects
    ensures var s, s' := Reach(es), Next(Reach(es), e);
            && a in s.fate && a in s'.fate
            && (s.fate[a] == InMap <==> exists f :: f in s.associations && s.associations[f] == a)
            && (s.fate[a] != InMap && s.fate[a] != Making ==> s'.fate[a] == s.fate[a])
            && (s.fate[a] == Making ==> s'.fate[a] in {Making, InMap, Refused})
  {
    RunInv(es);
    FateMeans(Reach(es), a);
    FateStep(Reach(es), e, a);
  }

  lemma FateMeans(s: State, a: nat)
    requires Inv(s) && a in s.objects
    ensures a in s.fate && (s.fate[a] == InMap <==> exists f :: f in s.associations && s.associations[f] == a)
  {
    assert FateOk(s, a);
    if f :| f in s.associations && s.associations[f] == a { assert FlowOk(s, f); }
  }

  predicate FateMoves(s: State, s': State, a: nat)
    requires a in s.fate
  {
    && a in s'.fate
    && (s.fate[a] != InMap && s.fate[a] != Making ==> s'.fate[a] == s.fate[a])
    && (s.fate[a] == Making ==> s'.fate[a] in {Making, InMap, Refused})
  }

  lemma FateStep(s: State, e: Step, a: nat)
    requires Inv(s) && a in s.objects && a in s.fate
    ensures FateMoves(s, Next(s, e), a)
  {
    assert FateOk(s, a);
    match e
    case Callback(b) => if b in s.objects { TearDownFate(s, s.objects[b].flow, false, Some(b), a); }
    case SweepTear(flow) =>
      ClockKeeps(s, s.(stale := s.stale - multiset{flow}));
      TearDownFate(s.(stale := s.stale - multiset{flow}), flow, true, None, a);
    case Insert(b) => InsertFate(s, b, a);
    case StopSecond => FateMeans(s, a);
    case Complete(_) => assert FateOk(s, s.made);
    case _ =>
  }

  lemma InsertFate(s: State, b: nat, a: nat)
    requires Inv(s) && a in s.fate
    ensures FateMoves(s, Next(s, Insert(b)), a)
  {
    if b in s.objects && s.objects[b].flow in s.associations {
      assert FlowOk(s, s.objects[b].flow) && FateOk(s, s.associations[s.objects[b].flow]);
    }
  }

  lemma TearDownFate(s: State, flow: nat, onlyIfIdle: bool, expected: Option<nat>, a: nat)
    requires Inv(s) && a in s.fate
    ensures FateMoves(s, TearDown(s, flow, onlyIfIdle, expected), a)
  {
    assert FlowOk(s, flow);
    if flow in s.associations { assert FateOk(s, s.associations[flow]); }
  }

  /** Traffic keeps an association: for two minutes after a datagram, again whatever sweeps and other callbacks do. */
  lemma ActiveSafe(es: seq<Step>, more: seq<Step>, flow: nat, a: nat)
    requires Holds(Reach(es), flow, a)
    requires Reach(es + [Activity(a)] + more).now <= Reach(es).now + 120000
    requires Undisturbed(es + [Activity(a)], more, flow, a)
    ensures Holds(Reach(es + [Activity(a)] + more), flow, a)
  {
    RunInv(es);
    assert FlowOk(Reach(es), flow);
    ReachSnoc(es, Activity(a));
    ReplacementSafe(es + [Activity(a)], more, flow, a);
  }

  lemma ReachSnoc(es: seq<Step>, e: Step)
    ensures Reach(es + [e]) == Next(Reach(es), e)
  {
    assert (es + [e])[..|es|] == es;
  }

  // ------------------------------------------------------------------ idle associations are found

  /** A sweep has collected the flow while association a was idle, and has not come back to it. */
  predicate Collected(s: State, flow: nat, a: nat) { flow in s.stale && IsIdle(s, a) && a < s.made }

  lemma CollectedStep(s: State, e: Step, flow: nat, a: nat)
    requires Collected(s, flow, a) && e != Activity(a) && e != SweepTear(flow)
    ensures Collected(Next(s, e), flow, a)
  {
    match e
    case Callback(b) => if b in s.objects { CollectedTorn(s, s.objects[b].flow, false, Some(b), flow, a); }
    case SweepTear(f) => CollectedTorn(s.(stale := s.stale - multiset{f}), f, true, None, flow, a);
    case _ =>
  }

  lemma CollectedTorn(s: State, f: nat, onlyIfIdle: bool, expected: Option<nat>, flow: nat, a: nat)
    requires Collected(s, flow, a)
    ensures Collected(TearDown(s, f, onlyIfIdle, expected), flow, a)
  {
  }

  lemma {:induction false} CollectedRun(es: seq<Step>, more: seq<Step>, flow: nat, a: nat)
    requires Collected(Reach(es), flow, a) && Activity(a) !in more && SweepTear(flow) !in more
    ensures Collected(Reach(es + more), flow, a)
    decreases |more|
  {
    if more == [] {
      ReachNil(es, more);
    } else {
      var init := more[..|more| - 1];
      CollectedRun(es, init, flow, a);
      CollectedStep(Reach(es + init), more[|more| - 1], flow, a);
      ReachLast(es, more);
    }
  }

  /** An association that a sweep finds idle for more than two minutes is gone when it comes back, unless it was active since. */
  lemma IdleReaped(es: seq<Step>, more: seq<Step>, flow: nat, a: nat)
    requires Holds(Reach(es), flow, a) && a in Reach(es).objects && Reach(es).now > Reach(es).objects[a].last + 120000
    requires Activity(a) !in more && SweepTear(flow) !in more
    ensures !Holds(Next(Reach(es + [SweepScan] + more), SweepTear(flow)), flow, a)
  {
    RunInv(es);
    assert FateOk(Reach(es), a);
    ReachSnoc(es, SweepScan);
    CollectedRun(es + [SweepScan], more, flow, a);
    var s := Reach(es + [SweepScan] + more);
    if Holds(s, flow, a) { LeavesIff(es + [SweepScan] + more, SweepTear(flow), flow, a); }
  }

  // ------------------------------------------------------------------ from a handshake to its association

  /** Handshake `token` of the connection waits, for the flow. */
  predicate Waits(s: State, conn: nat, token: nat, flow: nat) { conn in s.pending && s.pending[conn] == Pending(token, flow) }

  /** The steps that claim it. */
  predicate Claims(s: State, e: Step, conn: nat, token: nat) {
    match e
    case Complete(c) => c == conn
    case CloseRelay(c) => c == conn
    case Timeout(t) => t == token
    case Arm(c, _) => c == conn && !s.stopping
    case StopFirst => true
    case _ => false
  }

  /** A waiting handshake is over exactly when one of those is taken. */
  lemma WaitsUntil(s: State, e: Step, conn: nat, token: nat, flow: nat)
    requires Inv(s) && Waits(s, conn, token, flow)
    ensures !Waits(Next(s, e), conn, token, flow) <==> Claims(s, e, conn, token)
  {
    assert PendingOk(s, conn) && TokenOk(s, token);
    match e
    case Timeout(t) => if t in s.armed { assert PendingOk(s, s.armed[t]) && TokenOk(s, t); }
    case _ =>
  }

  ghost predicate Unclaimed(es: seq<Step>, more: seq<Step>, conn: nat, token: nat)
    decreases |more|
  {
    more == [] ||
    (Unclaimed(es, more[..|more| - 1], conn, token) &&
     !Claims(Reach(es + more[..|more| - 1]), more[|more| - 1], conn, token))
  }

  lemma {:induction false} WaitsRun(es: seq<Step>, more: seq<Step>, conn: nat, token: nat, flow: nat)
    requires Waits(Reach(es), conn, token, flow) && Unclaimed(es, more, conn, token)
    ensures Waits(Reach(es + more), conn, token, flow)
    decreases |more|
  {
    if more == [] {
      ReachNil(es, more);
    } else {
      var init := more[..|more| - 1];
      WaitsRun(es, init, conn, token, flow);
      RunInv(es + init);
      WaitsUntil(Reach(es + init), more[|more| - 1], conn, token, flow);
      ReachLast(es, more);
    }
  }

  /** A stop lasts until the next start: a handshake can be armed exactly if none has begun since. */
  lemma ArmsIff(s: State, conn: nat, flow: nat)
    ensures Waits(Next(s, Arm(conn, flow)), conn, s.tokens, flow) || s.stopping
    ensures Next(s, Arm(conn, flow)) == s <==> s.stopping
    ensures Waits(Next(Next(s, Start), Arm(conn, flow)), conn, s.tokens, flow)
    ensures Next(Next(s, StopFirst), Arm(conn, flow)) == Next(s, StopFirst)
  {
    assert Next(s, Arm(conn, flow)).tokens == s.tokens ==> s.stopping;
  }

  /**
   The whole way: a handshake armed while the proxy runs, not claimed by anybody else before it completes,
   ends in an association for the flow it was armed for, unless a stop comes before the insertion.
   */
  lemma ArmedPublishes(es: seq<Step>, conn: nat, flow: nat, more: seq<Step>, rest: seq<Step>)
    requires !Reach(es).stopping && Unclaimed(es + [Arm(conn, flow)], more, conn, Reach(es).tokens)
    requires Insert(Reach(es + [Arm(conn, flow)] + more).made) !in rest
    ensures var mid := es + [Arm(conn, flow)] + more;
            var s, a := Reach(mid + [Complete(conn)] + rest), Reach(mid).made;
            if s.stopping then Next(s, Insert(a)).associations == s.associations
            else Holds(Next(s, Insert(a)), flow, a)
  {
    ReachSnoc(es, Arm(conn, flow));
    WaitsRun(es + [Arm(conn, flow)], more, conn, Reach(es).tokens, flow);
    StopSafe(es + [Arm(conn, flow)] + more);
    CompletedPublishes(es + [Arm(conn, flow)] + more, conn, rest);
  }
}
