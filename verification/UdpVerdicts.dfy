/**
 The two caches of UDP verdicts (tracked PROXY flows and the DIRECT cache) and the generation counter
 that invalidates them, under every interleaving of the packet thread with policy editors, the clock,
 the relay thread and the cleanup thread.

 `h` maps a flow to its slot of the DIRECT cache; nothing depends on how it spreads them.
 */
module UdpVerdicts {
  import opened ConnChains
  import opened ConnSpec

  const DIRECT_MS: nat := 5000

  datatype Flow = Flow(v6: bool, src: Addr, srcPort: Port, dst: Addr, dstPort: Port)

  datatype Direct = Direct(flow: Flow, gen: int, expires: nat)

  /**
   The packet thread. `gen` is the generation it read at the top of the loop; `seen` is history:
   how many policy edits had been made when its evaluation began.
   */
  datatype Pc = Idle
              | Snapped(f: Flow, gen: int, seen: nat)      // generation read
              | NotDirect(f: Flow, gen: int, seen: nat)    // DIRECT cache missed
              | NotFlow(f: Flow, gen: int, seen: nat)      // no live PROXY flow either
              | Evaluating(f: Flow, gen: int, seen: nat)   // check_process_rule is reading the policy
              | Added(f: Flow, gen: int, seen: nat)        // add_connection done, udp_flow_stamp to come

  /**
   `edits` counts the policy mutations so far, `pending` holds those whose bump is still to come,
   `bumped` those whose bump has happened. `flowSeen` and `directSeen` record, for every cached
   verdict, how many edits its evaluation could see from its first read on.
   */
  datatype State = State(table: Table, slots: map<nat, Direct>, gen: int, now: nat, pc: Pc,
                         edits: nat, pending: set<nat>, bumped: set<nat>,
                         flowSeen: map<Key, nat>, directSeen: map<nat, nat>)

  const INIT := State(map[], map[], 1, 0, Idle, 0, {}, {}, map[], map[])

  function FlowKey(f: Flow): Key { Key(f.srcPort, true, f.v6) }

  datatype Verdict = Proxy(id: nat) | DirectOwned | DirectUnknown | Block

  datatype Step =
    | Packet(f: Flow)               // the thread takes a packet and reads the generation
    | CheckDirect                   // udp_direct_cached
    | CheckFlow                     // udp_flow_validate
    | BeginEvaluation
    | Decide(v: Verdict)            // the evaluation ends; PROXY adds the flow, DIRECT is remembered
    | StampFlow                     // udp_flow_stamp with the snapshot
    | Mutate                        // an editor changes rules, proxies or a toggle
    | Bump(edit: nat)               // ... and then invalidates
    | BumpOnly                      // an invalidation without an edit
    | Tick(d: nat)
    | Touch(key: Key)               // get_connection by the relay thread
    | Sweep                         // cleanup_stale_connections
    | Tcp(table: Table)             // any change to TCP entries

  predicate DirectAnswers(s: State, h: Flow -> nat, f: Flow) {
    && h(f) in s.slots
    && var e := s.slots[h(f)]; e.flow == f && e.gen == s.gen && e.expires > s.now
  }

  predicate FlowAnswers(s: State, f: Flow) {
    Answers(s.table, FlowKey(f), f.src, f.dst, f.dstPort, s.gen, s.now)
  }

  predicate SameUdp(m: Table, m': Table) {
    forall k: Key | k in m.Keys + m'.Keys && k.udp :: k in m && k in m' && m'[k] == m[k]
  }

  function Next(s: State, h: Flow -> nat, e: Step): State {
    match e
    case Packet(f) => if s.pc == Idle then s.(pc := Snapped(f, s.gen, 0)) else s
    case CheckDirect =>
      if !s.pc.Snapped? then s
      else if DirectAnswers(s, h, s.pc.f) then s.(pc := Idle)
      else s.(pc := NotDirect(s.pc.f, s.pc.gen, 0))
    case CheckFlow =>
      if !s.pc.NotDirect? then s
      else
        var f := s.pc.f;
        var table := Validated(s.table, FlowKey(f), f.src, f.dst, f.dstPort, s.gen, s.now);
        s.(table := table, pc := if FlowAnswers(s, f) then Idle else NotFlow(f, s.pc.gen, 0))
    case BeginEvaluation =>
      if s.pc.NotFlow? then s.(pc := Evaluating(s.pc.f, s.pc.gen, s.edits)) else s
    case Decide(v) =>
      if !s.pc.Evaluating? then s
      else
        var f := s.pc.f;
        (match v
         case Proxy(id) =>
           s.(table := ConnSpec.Added(s.table, FlowKey(f), f.src, f.dst, f.dstPort, id, s.gen, s.now),
              flowSeen := s.flowSeen[FlowKey(f) := s.pc.seen],
              pc := Added(f, s.pc.gen, s.pc.seen))
         case DirectOwned =>
           s.(slots := s.slots[h(f) := Direct(f, s.pc.gen, s.now + DIRECT_MS)],
              directSeen := s.directSeen[h(f) := s.pc.seen],
              pc := Idle)
         case DirectUnknown => s.(pc := Idle)
         case Block => s.(pc := Idle))
    case StampFlow =>
      if s.pc.Added? then s.(table := Stamped(s.table, FlowKey(s.pc.f), s.pc.gen), pc := Idle) else s
    case Mutate => s.(edits := s.edits + 1, pending := s.pending + {s.edits + 1})
    case Bump(edit) =>
      if edit in s.pending then
        s.(pending := s.pending - {edit}, bumped := s.bumped + {edit}, gen := s.gen + 1)
      else s
    case BumpOnly => s.(gen := s.gen + 1)
    case Tick(d) => s.(now := s.now + d)
    case Touch(key) => s.(table := Touched(s.table, key, s.now))
    case Sweep => s.(table := Swept(s.table, s.now))
    case Tcp(table) =>
      if SameUdp(s.table, table) then s.(table := table) else s
  }

  function Reach(h: Flow -> nat, es: seq<Step>): State
    decreases |es|
  { if es == [] then INIT else Next(Reach(h, es[..|es| - 1]), h, es[|es| - 1]) }

  // ------------------------------------------------------------------ invariant

  /** An evaluation that began after `seen` edits saw every edit whose bump has happened. */
  ghost predicate SawAll(bumped: set<nat>, seen: nat) { forall e :: e in bumped ==> e <= seen }

  /** A PROXY flow for f with the current generation, whatever its age. */
  predicate FlowFor(s: State, f: Flow) {
    && FlowKey(f) in s.table
    && var e := s.table[FlowKey(f)]; e.src == f.src && e.dest == f.dst && e.destPort == f.dstPort && e.gen == s.gen
  }

  ghost predicate EditsOk(s: State) {
    (forall e :: e in s.bumped ==> e <= s.edits) && (forall e :: e in s.pending ==> e <= s.edits)
  }

  predicate BeingAdded(pc: Pc, k: Key) { pc.Added? && FlowKey(pc.f) == k }

  ghost predicate FlowOk(s: State, k: Key) {
    k in s.table && k.udp ==>
      && s.table[k].gen <= s.gen
      && (!BeingAdded(s.pc, k) ==>
            k in s.flowSeen && (s.table[k].gen == s.gen ==> SawAll(s.bumped, s.flowSeen[k])))
  }

  ghost predicate SlotOk(s: State, b: nat) {
    b in s.slots ==>
      && s.slots[b].gen <= s.gen && b in s.directSeen
      && (s.slots[b].gen == s.gen ==> SawAll(s.bumped, s.directSeen[b]))
  }

  ghost predicate ThreadOk(s: State, h: Flow -> nat) {
    && (!s.pc.Idle? ==> s.pc.gen <= s.gen)
    && (!s.pc.Idle? && !s.pc.Snapped? ==> !DirectAnswers(s, h, s.pc.f))
    && (s.pc.NotFlow? || s.pc.Evaluating? ==> FlowKey(s.pc.f) !in s.table)
    && (s.pc.Evaluating? || s.pc.Added? ==> s.pc.gen == s.gen ==> SawAll(s.bumped, s.pc.seen))
    && (s.pc.Added? ==> FlowKey(s.pc.f) in s.flowSeen && s.flowSeen[FlowKey(s.pc.f)] == s.pc.seen)
    && (s.pc.Added? && FlowKey(s.pc.f) in s.table ==>
          var e := s.table[FlowKey(s.pc.f)]; e.src == s.pc.f.src && e.dest == s.pc.f.dst && e.destPort == s.pc.f.dstPort)
  }

  ghost predicate Apart(s: State, h: Flow -> nat) {
    forall f :: DirectAnswers(s, h, f) ==> !FlowFor(s, f)
  }

  ghost predicate Inv(s: State, h: Flow -> nat) {
    && EditsOk(s)
    && (forall k :: FlowOk(s, k))
    && (forall b :: SlotOk(s, b))
    && ThreadOk(s, h)
    && Apart(s, h)
  }

  /** Only the packet thread moves on, and not to or from a flow just added. */
  lemma PcKeeps(s: State, h: Flow -> nat, pc: Pc)
    requires Inv(s, h) && !s.pc.Added? && !pc.Added? && ThreadOk(s.(pc := pc), h)
    ensures Inv(s.(pc := pc), h)
  {
    var s' := s.(pc := pc);
    forall k ensures FlowOk(s', k) { assert FlowOk(s, k); }
    forall b ensures SlotOk(s', b) { assert SlotOk(s, b); }
    forall f | DirectAnswers(s', h, f) ensures !FlowFor(s', f) { assert DirectAnswers(s, h, f); }
  }

  lemma PacketKeeps(s: State, h: Flow -> nat, e: Step)
    requires Inv(s, h) && (e.Packet? || e.CheckDirect? || e.BeginEvaluation?)
    ensures Inv(Next(s, h, e), h)
  {
    var pc := Next(s, h, e).pc;
    assert Next(s, h, e) == s.(pc := pc);
    if pc != s.pc {
      if !pc.Idle? { SameCaches(s, pc, h, pc.f); }
      PcKeeps(s, h, pc);
    }
  }

  lemma SameCaches(s: State, pc: Pc, h: Flow -> nat, f: Flow)
    ensures DirectAnswers(s.(pc := pc), h, f) == DirectAnswers(s, h, f)
  {
  }

  lemma CheckFlowKeeps(s: State, h: Flow -> nat)
    requires Inv(s, h)
    ensures Inv(Next(s, h, CheckFlow), h)
  {
    var s' := Next(s, h, CheckFlow);
    forall k ensures FlowOk(s', k) { assert FlowOk(s, k); }
    forall b ensures SlotOk(s', b) { assert SlotOk(s, b); }
    forall f | DirectAnswers(s', h, f) ensures !FlowFor(s', f) { assert DirectAnswers(s, h, f); }
  }

  lemma DecideKeeps(s: State, h: Flow -> nat, v: Verdict)
    requires Inv(s, h)
    ensures Inv(Next(s, h, Decide(v)), h)
  {
    var s' := Next(s, h, Decide(v));
    forall k ensures FlowOk(s', k) { assert FlowOk(s, k); }
    forall b ensures SlotOk(s', b) { assert SlotOk(s, b); }
    forall f | DirectAnswers(s', h, f) ensures !FlowFor(s', f) {
      if s.pc.Evaluating? && f != s.pc.f { assert DirectAnswers(s, h, f); }
    }
  }

  lemma StampKeeps(s: State, h: Flow -> nat)
    requires Inv(s, h)
    ensures Inv(Next(s, h, StampFlow), h)
  {
    var s' := Next(s, h, StampFlow);
    forall k ensures FlowOk(s', k) { assert FlowOk(s, k); }
    forall b ensures SlotOk(s', b) { assert SlotOk(s, b); }
    forall f | DirectAnswers(s', h, f) ensures !FlowFor(s', f) {
      assert DirectAnswers(s, h, f);
    }
  }

  /** A bump leaves nothing that answers. */
  lemma BumpKeeps(s: State, h: Flow -> nat, e: Step)
    requires Inv(s, h) && (e.Bump? || e.BumpOnly?)
    ensures Inv(Next(s, h, e), h)
  {
    var s' := Next(s, h, e);
    forall k ensures FlowOk(s', k) { assert FlowOk(s, k); }
    forall b ensures SlotOk(s', b) { assert SlotOk(s, b); }
    forall f | DirectAnswers(s', h, f) ensures !FlowFor(s', f) { assert SlotOk(s, h(f)); }
    if !s.pc.Idle? && !s.pc.Snapped? { assert SlotOk(s, h(s.pc.f)); }
  }

  lemma EditKeeps(s: State, h: Flow -> nat, e: Step)
    requires Inv(s, h) && (e.Mutate? || e.Tick?)
    ensures Inv(Next(s, h, e), h)
  {
    var s' := Next(s, h, e);
    forall k ensures FlowOk(s', k) { assert FlowOk(s, k); }
    forall b ensures SlotOk(s', b) { assert SlotOk(s, b); }
    forall f | DirectAnswers(s', h, f) ensures !FlowFor(s', f) { assert DirectAnswers(s, h, f); }
  }

  lemma OthersKeep(s: State, h: Flow -> nat, e: Step)
    requires Inv(s, h) && (e.Touch? || e.Sweep? || e.Tcp?)
    ensures Inv(Next(s, h, e), h)
  {
    var s' := Next(s, h, e);
    forall k ensures FlowOk(s', k) { assert FlowOk(s, k); }
    forall b ensures SlotOk(s', b) { assert SlotOk(s, b); }
    forall f | DirectAnswers(s', h, f) ensures !FlowFor(s', f) { assert DirectAnswers(s, h, f); }
  }

  lemma {:induction false} RunInv(h: Flow -> nat, es: seq<Step>)
    ensures Inv(Reach(h, es), h)
    decreases |es|
  {
    if es == [] {
    } else {
      var s, e := Reach(h, es[..|es| - 1]), es[|es| - 1];
      RunInv(h, es[..|es| - 1]);
      match e
      case Decide(v) => DecideKeeps(s, h, v);
      case CheckFlow => CheckFlowKeeps(s, h);
      case StampFlow => StampKeeps(s, h);
      case Mutate => EditKeeps(s, h, e);
      case Bump(_) => BumpKeeps(s, h, e);
      case BumpOnly => BumpKeeps(s, h, e);
      case Tick(_) => EditKeeps(s, h, e);
      case Touch(_) => OthersKeep(s, h, e);
      case Sweep => OthersKeep(s, h, e);
      case Tcp(_) => OthersKeep(s, h, e);
      case _ => PacketKeeps(s, h, e);
    }
  }

  // ------------------------------------------------------------------ whole runs

  /**
   A PROXY flow is only ever accepted if its evaluation, from its first read of the policy on, saw
   every edit whose bump has happened: a verdict begun before an edit does not outlive that edit's bump.
   */
  lemma FreshFlow(h: Flow -> nat, es: seq<Step>)
    requires var s := Reach(h, es); s.pc.NotDirect? && FlowAnswers(s, s.pc.f)
    ensures var s := Reach(h, es);
            FlowKey(s.pc.f) in s.flowSeen && SawAll(s.bumped, s.flowSeen[FlowKey(s.pc.f)])
  {
    RunInv(h, es);
    assert FlowOk(Reach(h, es), FlowKey(Reach(h, es).pc.f));
  }

  /** The same for the DIRECT cache. */
  lemma FreshDirect(h: Flow -> nat, es: seq<Step>)
    requires var s := Reach(h, es); s.pc.Snapped? && DirectAnswers(s, h, s.pc.f)
    ensures var s := Reach(h, es);
            h(s.pc.f) in s.directSeen && SawAll(s.bumped, s.directSeen[h(s.pc.f)])
  {
    RunInv(h, es);
    assert SlotOk(Reach(h, es), h(Reach(h, es).pc.f));
  }

  /** The two caches never both answer for one flow, so the order in which they are asked is immaterial. */
  lemma NeverBoth(h: Flow -> nat, es: seq<Step>, f: Flow)
    ensures !(DirectAnswers(Reach(h, es), h, f) && FlowAnswers(Reach(h, es), f))
  {
    RunInv(h, es);
    if DirectAnswers(Reach(h, es), h, f) { assert !FlowFor(Reach(h, es), f); }
  }

  lemma ReachSnoc(h: Flow -> nat, es: seq<Step>, e: Step)
    ensures Reach(h, es + [e]) == Next(Reach(h, es), h, e)
  {
    assert (es + [e])[..|es + [e]| - 1] == es;
  }

  /**
   The stamp is what makes this work: add_connection itself writes the current generation, so between
   the two calls a verdict that an edit has overtaken carries a generation that would be accepted.
   */
  lemma StampNeeded(h: Flow -> nat, f: Flow)
    ensures exists es: seq<Step> ::
              && Reach(h, es).pc.Added? && FlowAnswers(Reach(h, es), f)
              && FlowKey(f) in Reach(h, es).flowSeen && !SawAll(Reach(h, es).bumped, Reach(h, es).flowSeen[FlowKey(f)])
  {
    var a := Evaluation(h, f);
    var b := a + [Mutate];
    var c := b + [Bump(1)];
    ReachSnoc(h, a, Mutate);
    ReachSnoc(h, b, Bump(1));
    ReachSnoc(h, c, Decide(Proxy(1)));
    assert 1 in Reach(h, c).bumped;
    assert FlowAnswers(Reach(h, c + [Decide(Proxy(1))]), f);
  }

  /** A first packet whose evaluation has begun, before any edit. */
  lemma Evaluation(h: Flow -> nat, f: Flow) returns (es: seq<Step>)
    ensures var s := Reach(h, es);
            s.pc == Evaluating(f, 1, 0) && s.gen == 1 && s.bumped == {} && s.edits == 0
  {
    es := [];
    ReachSnoc(h, es, Packet(f));
    es := es + [Packet(f)];
    ReachSnoc(h, es, CheckDirect);
    es := es + [CheckDirect];
    ReachSnoc(h, es, CheckFlow);
    es := es + [CheckFlow];
    ReachSnoc(h, es, BeginEvaluation);
    es := es + [BeginEvaluation];
  }

  // ------------------------------------------------------------------ what the caches are for

  function Continue(s: State, h: Flow -> nat, es: seq<Step>): State
    decreases |es|
  { if es == [] then s else Continue(Next(s, h, es[0]), h, es[1..]) }

  /** The step remembers a DIRECT verdict in slot b. */
  predicate Remembers(s: State, h: Flow -> nat, e: Step, b: nat) {
    e == Decide(DirectOwned) && s.pc.Evaluating? && h(s.pc.f) == b
  }

  predicate SlotSpared(s: State, h: Flow -> nat, es: seq<Step>, b: nat)
    decreases |es|
  { es == [] || (!Remembers(s, h, es[0], b) && SlotSpared(Next(s, h, es[0]), h, es[1..], b)) }

  predicate SameSlot(s: State, s': State, b: nat) {
    (b in s'.slots <==> b in s.slots) && (b in s.slots ==> s'.slots[b] == s.slots[b])
  }

  lemma SlotStep(s: State, h: Flow -> nat, e: Step, b: nat)
    requires !Remembers(s, h, e, b)
    ensures SameSlot(s, Next(s, h, e), b)
  {
  }

  lemma {:induction false} SlotKept(s: State, h: Flow -> nat, es: seq<Step>, b: nat)
    requires SlotSpared(s, h, es, b)
    ensures SameSlot(s, Continue(s, h, es), b)
    decreases |es|
  {
    if es == [] {
    } else {
      SlotStep(s, h, es[0], b);
      SlotKept(Next(s, h, es[0]), h, es[1..], b);
    }
  }

  /**
   After a DIRECT verdict is remembered, and until the next one takes the slot, through packets, edits,
   bumps, ticks and sweeps in any order: the slot answers exactly for that flow, for five seconds, while
   the generation is the one of the verdict's snapshot.
   */
  lemma RememberedIff(s: State, h: Flow -> nat, es: seq<Step>, g: Flow)
    requires s.pc.Evaluating? && h(g) == h(s.pc.f)
    requires SlotSpared(Next(s, h, Decide(DirectOwned)), h, es, h(g))
    ensures var t := Continue(Next(s, h, Decide(DirectOwned)), h, es);
            DirectAnswers(t, h, g) <==> g == s.pc.f && t.gen == s.pc.gen && t.now < s.now + 5000
  {
    SlotKept(Next(s, h, Decide(DirectOwned)), h, es, h(g));
  }

  /** The step adds a PROXY flow under key k. */
  predicate Adds(s: State, e: Step, k: Key) {
    e.Decide? && e.v.Proxy? && s.pc.Evaluating? && FlowKey(s.pc.f) == k
  }

  predicate KeySpared(s: State, h: Flow -> nat, es: seq<Step>, k: Key)
    decreases |es|
  { es == [] || (!Adds(s, es[0], k) && KeySpared(Next(s, h, es[0]), h, es[1..], k)) }

  /** What is left of the verdict PROXY id for f: its entry, if any, is f's, and carries the snapshot once stamped. */
  predicate Carries(s: State, f: Flow, gen: int, id: nat) {
    var k := FlowKey(f);
    && (BeingAdded(s.pc, k) ==> s.pc.f == f && s.pc.gen == gen)
    && (k in s.table ==>
          && s.table[k].src == f.src && s.table[k].dest == f.dst && s.table[k].destPort == f.dstPort
          && s.table[k].proxyId == id && (!BeingAdded(s.pc, k) ==> s.table[k].gen == gen))
  }

  lemma CarriesStep(s: State, h: Flow -> nat, e: Step, f: Flow, gen: int, id: nat)
    requires Carries(s, f, gen, id) && !Adds(s, e, FlowKey(f))
    ensures Carries(Next(s, h, e), f, gen, id)
  {
  }

  lemma {:induction false} CarriesRun(s: State, h: Flow -> nat, es: seq<Step>, f: Flow, gen: int, id: nat)
    requires Carries(s, f, gen, id) && KeySpared(s, h, es, FlowKey(f))
    ensures Carries(Continue(s, h, es), f, gen, id)
    decreases |es|
  {
    if es == [] {
    } else {
      CarriesStep(s, h, es[0], f, gen, id);
      CarriesRun(Next(s, h, es[0]), h, es[1..], f, gen, id);
    }
  }

  /**
   After a PROXY verdict, and until another one is added under the key, through any steps: once stamped, the
   cache answers exactly for that flow, while it has not been evicted, was active within twenty seconds and
   the generation is the one of the verdict's snapshot; and it names the chosen proxy.
   */
  lemma StampedIff(s: State, h: Flow -> nat, id: nat, es: seq<Step>, g: Flow)
    requires s.pc.Evaluating? && FlowKey(g) == FlowKey(s.pc.f)
    requires KeySpared(Next(s, h, Decide(Proxy(id))), h, es, FlowKey(g))
    requires !BeingAdded(Continue(Next(s, h, Decide(Proxy(id))), h, es).pc, FlowKey(g))
    ensures var t, k := Continue(Next(s, h, Decide(Proxy(id))), h, es), FlowKey(g);
            && (FlowAnswers(t, g) <==>
                  g == s.pc.f && k in t.table && t.gen == s.pc.gen && t.now <= t.table[k].last + 20000)
            && (k in t.table ==> t.table[k].proxyId == id)
  {
    CarriesRun(Next(s, h, Decide(Proxy(id))), h, es, s.pc.f, s.pc.gen, id);
  }

  // ------------------------------------------------------------------ where a cached verdict comes from

  lemma SlotFrom(s: State, h: Flow -> nat, e: Step, b: nat)
    requires b in Next(s, h, e).slots && !(b in s.slots && s.slots[b] == Next(s, h, e).slots[b])
    ensures e == Decide(DirectOwned) && s.pc.Evaluating? && Next(s, h, e).slots[b].flow == s.pc.f
  {
  }

  /** A flow that the DIRECT cache answers for was once decided DIRECT, with a known owner, by an evaluation of its own. */
  lemma {:induction false} DirectFrom(h: Flow -> nat, es: seq<Step>, b: nat) returns (i: nat)
    requires b in Reach(h, es).slots
    ensures i < |es| && es[i] == Decide(DirectOwned)
    ensures Reach(h, es[..i]).pc.Evaluating? && Reach(h, es[..i]).pc.f == Reach(h, es).slots[b].flow
    decreases |es|
  {
    var n := |es| - 1;
    var s := Reach(h, es[..n]);
    if b in s.slots && s.slots[b] == Reach(h, es).slots[b] {
      i := DirectFrom(h, es[..n], b);
      assert es[..n][..i] == es[..i];
    } else {
      SlotFrom(s, h, es[n], b);
      i := n;
    }
  }

  /** The entry is flow f's, on the way to proxy id. */
  predicate EntryIs(e: Entry, f: Flow, id: nat) {
    e.src == f.src && e.dest == f.dst && e.destPort == f.dstPort && e.proxyId == id
  }

  lemma EntryFrom(s: State, h: Flow -> nat, e: Step, f: Flow, id: nat)
    requires FlowKey(f) in Next(s, h, e).table && EntryIs(Next(s, h, e).table[FlowKey(f)], f, id)
    requires !(FlowKey(f) in s.table && EntryIs(s.table[FlowKey(f)], f, id))
    ensures e == Decide(Proxy(id)) && s.pc.Evaluating? && s.pc.f == f
  {
  }

  /** A flow that the tracker holds was once decided PROXY, and through that proxy, by an evaluation of its own. */
  lemma {:induction false} ProxyFrom(h: Flow -> nat, es: seq<Step>, f: Flow, id: nat) returns (i: nat)
    requires FlowKey(f) in Reach(h, es).table && EntryIs(Reach(h, es).table[FlowKey(f)], f, id)
    ensures i < |es| && es[i] == Decide(Proxy(id)) && Reach(h, es[..i]).pc.Evaluating? && Reach(h, es[..i]).pc.f == f
    decreases |es|
  {
    var n := |es| - 1;
    var s := Reach(h, es[..n]);
    if FlowKey(f) in s.table && EntryIs(s.table[FlowKey(f)], f, id) {
      i := ProxyFrom(h, es[..n], f, id);
      assert es[..n][..i] == es[..i];
    } else {
      EntryFrom(s, h, es[n], f, id);
      i := n;
    }
  }

  // ------------------------------------------------------------------ from a packet to its evaluation

  /** The packet thread's own steps. */
  predicate Mine(e: Step) { e.Packet? || e.CheckDirect? || e.CheckFlow? || e.BeginEvaluation? || e.Decide? || e.StampFlow? }

  lemma {:induction false} OthersRun(s: State, h: Flow -> nat, es: seq<Step>)
    requires forall i :: 0 <= i < |es| ==> !Mine(es[i])
    ensures Continue(s, h, es).pc == s.pc
    decreases |es|
  {
    if es != [] {
      assert !Mine(es[0]);
      OthersRun(Next(s, h, es[0]), h, es[1..]);
    }
  }

  /**
   A packet passes both caches and is evaluated exactly if neither answers for its flow when asked, whatever
   editors, clock, relay and cleanup do in between; and its verdict is held to the generation of its arrival.
   */
  lemma Evaluated(s: State, h: Flow -> nat, f: Flow, a: seq<Step>, b: seq<Step>, c: seq<Step>)
    requires s.pc == Idle
    requires forall i :: 0 <= i < |a| ==> !Mine(a[i])
    requires forall i :: 0 <= i < |b| ==> !Mine(b[i])
    requires forall i :: 0 <= i < |c| ==> !Mine(c[i])
    ensures var s1 := Continue(Next(s, h, Packet(f)), h, a);
            var s2 := Continue(Next(s1, h, CheckDirect), h, b);
            var s3 := Continue(Next(s2, h, CheckFlow), h, c);
            Next(s3, h, BeginEvaluation).pc ==
              if DirectAnswers(s1, h, f) || FlowAnswers(s2, f) then Idle else Evaluating(f, s.gen, s3.edits)
  {
    OthersRun(Next(s, h, Packet(f)), h, a);
    var s1 := Continue(Next(s, h, Packet(f)), h, a);
    OthersRun(Next(s1, h, CheckDirect), h, b);
    var s2 := Continue(Next(s1, h, CheckDirect), h, b);
    OthersRun(Next(s2, h, CheckFlow), h, c);
  }
}
