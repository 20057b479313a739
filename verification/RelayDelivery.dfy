/**
 What the relay pool is for: as long as its own posts succeed, every chunk that a direction reads is
 delivered in full, however the kernel cuts the sends and whatever all other threads do meanwhile.

 A direction's own steps are described on the direction and the contents of its buffer alone; every
 other step of the pool leaves both untouched.
 */
module RelayDelivery {
  import opened Basics
  import opened RelayPool
  import opened RelayInvariant
  import RelaySteps
  import RelayLifetime
  import RelayTheorems

  // ------------------------------------------------------------------ a direction on its own

  /** What the worker does once everything is sent: a lightly used buffer is given back. */
  function Idle(len: nat): Task { if len < BUF_SIZE / 4 then GiveBuf else PostRead }

  /** The outcome of a kernel operation is a success; a read may find the end of the stream. */
  predicate Moves(f: Flow, m: seq<byte>, b: nat, op: Op, out: Outcome) {
    && out.Fine?
    && match op
       case OpWait => false
       case OpRead(b') => b' == b && |out.data| <= BUF_SIZE
       case OpSend(b', off, len) => b' == b && off == f.off && len == f.len <= |m| && 0 < out.n <= len - off
  }

  /** The next step of a direction that owns buffer b, on its way from a read to the end of the send or of the stream, succeeds. */
  predicate Smooth(f: Flow, m: seq<byte>, b: nat, e: Step) {
    && e.Work? && e.ok && |f.acts| == 1 && f.buf == At(b) && !f.eof
    && match f.acts[0]
       case Kernel(op, _) => Moves(f, m, b, op, e.out)
       case Packet(good, _) => good
       case Thread(task, more) => !more && (task == PostSend || task == HalfClose || (task.Handle? && task.ok))
  }

  /** What the worker's switch makes of a direction. */
  function Switched(f: Flow, n: nat): Flow {
    var (g, task) := Dispatch(f, true, n);
    g.(acts := [Thread(task, false)])
  }

  /** The direction after that step, ... */
  function After(f: Flow, m: seq<byte>, b: nat, e: Step): Flow
    requires Smooth(f, m, b, e)
  {
    match f.acts[0]
    case Kernel(OpRead(_), _) => f.(read := f.read + e.out.data, acts := [Packet(true, |e.out.data|)])
    case Kernel(OpSend(_, off, _), _) =>
      f.(sent := f.sent + m[off..off + e.out.n], acts := [Packet(true, e.out.n)])
    case Packet(_, n) => f.(acts := [Thread(Handle(true, n), false)])
    case Thread(Handle(_, n), _) => Switched(f, n)
    case Thread(PostSend, _) => f.(state := Send, acts := [Kernel(OpSend(b, f.off, f.len), false)])
    case Thread(HalfClose, _) => f.(eof := true, acts := [Thread(Release, false)])
  }

  /** ... and its buffer. */
  function Filled(f: Flow, m: seq<byte>, e: Step): seq<byte>
    requires |f.acts| == 1 && e.Work?
  { if f.acts[0].Kernel? && f.acts[0].op.OpRead? then e.out.data else m }

  datatype Dir = Dir(f: Flow, m: seq<byte>)

  predicate SmoothRun(d: Dir, b: nat, own: seq<Step>)
    decreases |own|
  { own == [] || (Smooth(d.f, d.m, b, own[0]) && SmoothRun(OwnStep(d, b, own[0]), b, own[1..])) }

  function OwnStep(d: Dir, b: nat, e: Step): Dir
    requires Smooth(d.f, d.m, b, e)
  { Dir(After(d.f, d.m, b, e), Filled(d.f, d.m, e)) }

  function OwnRun(d: Dir, b: nat, own: seq<Step>): Dir
    requires SmoothRun(d, b, own)
    decreases |own|
  { if own == [] then d else OwnRun(OwnStep(d, b, own[0]), b, own[1..]) }

  lemma {:induction false} RunConcat(d: Dir, b: nat, one: seq<Step>, two: seq<Step>)
    requires SmoothRun(d, b, one) && SmoothRun(OwnRun(d, b, one), b, two)
    ensures SmoothRun(d, b, one + two) && OwnRun(d, b, one + two) == OwnRun(OwnRun(d, b, one), b, two)
    decreases |one|
  {
    if one == [] {
      assert one + two == two;
    } else {
      assert (one + two)[0] == one[0] && (one + two)[1..] == one[1..] + two;
      RunConcat(OwnStep(d, b, one[0]), b, one[1..], two);
    }
  }

  // ------------------------------------------------------------------ one chunk

  function Own(c: nat, w: Way, out: Outcome): Step { Work(c, w, 0, true, out) }

  /** A completion, its packet, and the worker's switch. */
  function Piece(c: nat, w: Way, out: Outcome): seq<Step> {
    [Own(c, w, out)] + [Own(c, w, Fine([], 0))] + [Own(c, w, Fine([], 0))]
  }

  /** ... followed by the post that the switch decided on. */
  function Part(c: nat, w: Way, out: Outcome): seq<Step> { Piece(c, w, out) + [Own(c, w, Fine([], 0))] }

  /** A pending send completes in pieces of these sizes; the worker posts the rest after each but the last. */
  function SendAll(c: nat, w: Way, sizes: seq<nat>): seq<Step>
    requires sizes != []
    decreases |sizes|
  {
    if |sizes| == 1 then Piece(c, w, Fine([], sizes[0]))
    else Part(c, w, Fine([], sizes[0])) + SendAll(c, w, sizes[1..])
  }

  function Total(sizes: seq<nat>): nat { if sizes == [] then 0 else sizes[0] + Total(sizes[1..]) }

  lemma OneStep(d: Dir, b: nat, e: Step)
    requires Smooth(d.f, d.m, b, e)
    ensures SmoothRun(d, b, [e]) && OwnRun(d, b, [e]) == OwnStep(d, b, e)
  {
    assert [e][1..] == [];
  }

  lemma ThenStep(d: Dir, b: nat, own: seq<Step>, e: Step)
    requires SmoothRun(d, b, own) && Smooth(OwnRun(d, b, own).f, OwnRun(d, b, own).m, b, e)
    ensures SmoothRun(d, b, own + [e]) && OwnRun(d, b, own + [e]) == OwnStep(OwnRun(d, b, own), b, e)
  {
    OneStep(OwnRun(d, b, own), b, e);
    RunConcat(d, b, own, [e]);
  }

  /** A send of the buffer's bytes off..len is in the kernel. */
  predicate Sending(d: Dir, b: nat) {
    && d.f.state == Send && d.f.buf == At(b) && !d.f.eof && |d.f.acts| == 1 && d.f.acts[0].Kernel?
    && d.f.acts[0].op == OpSend(b, d.f.off, d.f.len) && d.f.off < d.f.len <= |d.m|
  }

  /** n more bytes were sent. */
  function Sent(d: Dir, n: nat, act: Act): Dir
    requires d.f.off + n <= |d.m|
  { Dir(d.f.(sent := d.f.sent + d.m[d.f.off..d.f.off + n], off := d.f.off + n, acts := [act]), d.m) }

  function Decided(f: Flow, n: nat): Task { if f.off + n < f.len then PostSend else Idle(f.len) }

  lemma PieceSent(d: Dir, b: nat, c: nat, w: Way, n: nat)
    requires Sending(d, b) && 0 < n <= d.f.len - d.f.off
    ensures SmoothRun(d, b, Piece(c, w, Fine([], n)))
    ensures OwnRun(d, b, Piece(c, w, Fine([], n))) == Sent(d, n, Thread(Decided(d.f, n), false))
  {
    var e1, e2 := Own(c, w, Fine([], n)), Own(c, w, Fine([], 0));
    OneStep(d, b, e1);
    ThenStep(d, b, [e1], e2);
    ThenStep(d, b, [e1] + [e2], e2);
  }

  lemma PartSent(d: Dir, b: nat, c: nat, w: Way, n: nat)
    requires Sending(d, b) && 0 < n < d.f.len - d.f.off
    ensures SmoothRun(d, b, Part(c, w, Fine([], n)))
    ensures OwnRun(d, b, Part(c, w, Fine([], n))) == Sent(d, n, Kernel(OpSend(b, d.f.off + n, d.f.len), false))
  {
    PieceSent(d, b, c, w, n);
    ThenStep(d, b, Piece(c, w, Fine([], n)), Own(c, w, Fine([], 0)));
  }

  lemma MoreLeft(sizes: seq<nat>)
    requires |sizes| > 1 && forall i :: 0 <= i < |sizes| ==> sizes[i] > 0
    ensures Total(sizes) == sizes[0] + Total(sizes[1..]) && Total(sizes[1..]) > 0
    ensures forall i :: 0 <= i < |sizes[1..]| ==> sizes[1..][i] > 0
  {
    assert sizes[1..][0] == sizes[1];
  }

  lemma SentSum(d: Dir, n: nat, act: Act, last: Act)
    requires d.f.off + n <= d.f.len <= |d.m|
    ensures var g := Sent(d, n, act); Sent(g, g.f.len - g.f.off, last) == Sent(d, d.f.len - d.f.off, last)
  {
    assert d.m[d.f.off..d.f.len] == d.m[d.f.off..d.f.off + n] + d.m[d.f.off + n..d.f.len];
  }

  /** However a send is cut into pieces, it ends with exactly buf[off..len] sent. */
  lemma {:induction false} SendDelivers(d: Dir, b: nat, c: nat, w: Way, sizes: seq<nat>)
    requires Sending(d, b) && sizes != [] && (forall i :: 0 <= i < |sizes| ==> sizes[i] > 0)
    requires d.f.off + Total(sizes) == d.f.len
    ensures SmoothRun(d, b, SendAll(c, w, sizes))
    ensures OwnRun(d, b, SendAll(c, w, sizes)) == Sent(d, d.f.len - d.f.off, Thread(Idle(d.f.len), false))
    decreases |sizes|
  {
    if |sizes| == 1 {
      assert sizes[1..] == [];
      PieceSent(d, b, c, w, sizes[0]);
    } else {
      MoreLeft(sizes);
      PartSent(d, b, c, w, sizes[0]);
      var act := Kernel(OpSend(b, d.f.off + sizes[0], d.f.len), false);
      SendDelivers(Sent(d, sizes[0], act), b, c, w, sizes[1..]);
      RunConcat(d, b, Part(c, w, Fine([], sizes[0])), SendAll(c, w, sizes[1..]));
      SentSum(d, sizes[0], act, Thread(Idle(d.f.len), false));
    }
  }

  /** A read is in the kernel. */
  predicate AtRead(d: Dir, b: nat) {
    && |d.f.acts| == 1 && d.f.acts[0].Kernel? && d.f.acts[0].op == OpRead(b)
    && d.f.state == Read && d.f.buf == At(b) && !d.f.eof
  }

  /** A read that finds the end of the stream, its packet, the switch, and what the switch decided: the half-close. */
  lemma ReadEof(d: Dir, b: nat, c: nat, w: Way)
    requires AtRead(d, b)
    ensures SmoothRun(d, b, Part(c, w, Fine([], 0)))
    ensures OwnRun(d, b, Part(c, w, Fine([], 0))) == Dir(d.f.(eof := true, acts := [Thread(Release, false)]), [])
  {
    var e := Own(c, w, Fine([], 0));
    assert d.f.read + [] == d.f.read;
    OneStep(d, b, e);
    ThenStep(d, b, [e], e);
    ThenStep(d, b, [e] + [e], e);
    ThenStep(d, b, Piece(c, w, Fine([], 0)), e);
  }

  /** A completed read, up to the send in the kernel. */
  lemma ReadPosts(d: Dir, b: nat, c: nat, w: Way, data: seq<byte>)
    requires AtRead(d, b) && 0 < |data| <= BUF_SIZE
    ensures SmoothRun(d, b, Part(c, w, Fine(data, 0)))
    ensures OwnRun(d, b, Part(c, w, Fine(data, 0))) ==
            Dir(d.f.(read := d.f.read + data, state := Send, len := |data|, off := 0,
                     acts := [Kernel(OpSend(b, 0, |data|), false)]), data)
  {
    var e1, e2 := Own(c, w, Fine(data, 0)), Own(c, w, Fine([], 0));
    OneStep(d, b, e1);
    ThenStep(d, b, [e1], e2);
    ThenStep(d, b, [e1] + [e2], e2);
    ThenStep(d, b, Piece(c, w, Fine(data, 0)), e2);
  }

  /** A chunk is read and sent in pieces of these sizes. */
  function Chunk(c: nat, w: Way, data: seq<byte>, sizes: seq<nat>): seq<Step>
    requires sizes != []
  { Part(c, w, Fine(data, 0)) + SendAll(c, w, sizes) }

  function Delivered(f: Flow, data: seq<byte>): Flow {
    f.(read := f.read + data, sent := f.sent + data, state := Send, len := |data|, off := |data|,
       acts := [Thread(Idle(|data|), false)])
  }

  lemma ChunkDelivers(d: Dir, b: nat, c: nat, w: Way, data: seq<byte>, sizes: seq<nat>)
    requires AtRead(d, b) && 0 < |data| <= BUF_SIZE
    requires sizes != [] && (forall i :: 0 <= i < |sizes| ==> sizes[i] > 0) && Total(sizes) == |data|
    ensures SmoothRun(d, b, Chunk(c, w, data, sizes))
    ensures OwnRun(d, b, Chunk(c, w, data, sizes)) == Dir(Delivered(d.f, data), data)
  {
    ReadPosts(d, b, c, w, data);
    var g := OwnRun(d, b, Part(c, w, Fine(data, 0)));
    SendDelivers(g, b, c, w, sizes);
    RunConcat(d, b, Part(c, w, Fine(data, 0)), SendAll(c, w, sizes));
    assert data[0..|data|] == data;
  }

  // ------------------------------------------------------------------ own steps in the pool

  /** Direction w of c is at work. */
  predicate Busy(s: State, c: nat, w: Way) { c in s.conns && Running(s.conns[c]) && |s.conns[c].Get(w).acts| == 1 }

  predicate Is(s: State, c: nat, w: Way, f: Flow) { Busy(s, c, w) && s.conns[c].Get(w) == f }

  /** The state in which direction w of c, the half-close it has done and the contents of buffer b are these. */
  function With(s: State, c: nat, w: Way, b: nat, d: Dir): State
    requires c in s.conns
  {
    var k := s.conns[c].Sock(Dst(w));
    Put(s, c, s.conns[c].SetSock(Dst(w), k.(halfClosed := k.halfClosed || d.f.eof)).Set(w, d.f))
      .(bufs := s.bufs.(mem := s.bufs.mem[b := d.m]))
  }

  lemma WithOpen(s: State, c: nat, w: Way, b: nat, d: Dir)
    requires c in s.conns && !d.f.eof
    ensures With(s, c, w, b, d) == Put(s, c, s.conns[c].Set(w, d.f)).(bufs := s.bufs.(mem := s.bufs.mem[b := d.m]))
  {
    assert s.conns[c].SetSock(Dst(w), s.conns[c].Sock(Dst(w))) == s.conns[c];
  }

  lemma KernelStep(s: State, c: nat, w: Way, b: nat, f: Flow, e: Step)
    requires Is(s, c, w, f) && b in s.bufs.mem && Smooth(f, s.bufs.mem[b], b, e) && f.acts[0].Kernel?
    ensures DoComplete(s, c, w, 0, f.acts[0].op, e.out) == With(s, c, w, b, OwnStep(Dir(f, s.bufs.mem[b]), b, e))
  {
    WithOpen(s, c, w, b, OwnStep(Dir(f, s.bufs.mem[b]), b, e));
    match f.acts[0].op
    case OpRead(_) => RelaySteps.ReadIs(s, c, w, b, e.out);
    case OpSend(_, off, len) =>
      RelaySteps.SendIs(s, c, w, b, off, len, e.out);
      assert s.bufs.mem[b := s.bufs.mem[b]] == s.bufs.mem;
  }

  lemma SwitchStep(s: State, c: nat, w: Way, f: Flow, n: nat)
    requires Is(s, c, w, f) && f.acts == [Thread(Handle(true, n), false)]
    ensures DoTask(s, c, w, 0, Handle(true, n), false, true) == Put(s, c, s.conns[c].Set(w, Switched(f, n)))
  {
    var (g, task) := Dispatch(f, true, n);
    assert g.acts == f.acts;
    BecomeIs(s.conns[c].Set(w, g), w, [Thread(task, false)]);
  }

  lemma SendPosted(s: State, c: nat, w: Way, b: nat, f: Flow)
    requires Is(s, c, w, f) && f.acts == [Thread(PostSend, false)] && f.buf == At(b) && !s.conns[c].Sock(Dst(w)).shut
    ensures DoTask(s, c, w, 0, PostSend, false, true) ==
            Put(s, c, s.conns[c].Set(w, f.(state := Send, acts := [Kernel(OpSend(b, f.off, f.len), false)])))
  {
    PostGoes(s.conns[c], w, OpSend(b, f.off, f.len), PostSend, false);
  }

  lemma HalfClosed(s: State, c: nat, w: Way, b: nat, f: Flow)
    requires Is(s, c, w, f) && b in s.bufs.mem && f.acts == [Thread(HalfClose, false)]
    ensures DoTask(s, c, w, 0, HalfClose, false, true) ==
            With(s, c, w, b, Dir(f.(eof := true, acts := [Thread(Release, false)]), s.bufs.mem[b]))
  {
    HalfCloseIs(s.conns[c], w, false);
    assert s.bufs.mem[b := s.bufs.mem[b]] == s.bufs.mem;
  }

  lemma ThreadStep(s: State, c: nat, w: Way, b: nat, f: Flow, e: Step)
    requires Is(s, c, w, f) && b in s.bufs.mem && Smooth(f, s.bufs.mem[b], b, e) && f.acts[0].Thread?
    requires !s.conns[c].Sock(Dst(w)).shut
    ensures DoTask(s, c, w, 0, f.acts[0].task, false, true) == With(s, c, w, b, OwnStep(Dir(f, s.bufs.mem[b]), b, e))
  {
    assert f.acts == [f.acts[0]];
    if f.acts[0].task == HalfClose {
      HalfClosed(s, c, w, b, f);
    } else {
      OpenStep(s, c, w, b, f, e);
    }
  }

  lemma OpenStep(s: State, c: nat, w: Way, b: nat, f: Flow, e: Step)
    requires Is(s, c, w, f) && b in s.bufs.mem && Smooth(f, s.bufs.mem[b], b, e) && f.acts[0].Thread?
    requires !s.conns[c].Sock(Dst(w)).shut && f.acts[0].task != HalfClose
    ensures DoTask(s, c, w, 0, f.acts[0].task, false, true) == With(s, c, w, b, OwnStep(Dir(f, s.bufs.mem[b]), b, e))
  {
    assert s.bufs.mem[b := s.bufs.mem[b]] == s.bufs.mem && f.acts == [f.acts[0]];
    WithOpen(s, c, w, b, OwnStep(Dir(f, s.bufs.mem[b]), b, e));
    match f.acts[0].task
    case Handle(_, n) => SwitchStep(s, c, w, f, n);
    case PostSend => SendPosted(s, c, w, b, f);
  }

  /**
   A smooth own step changes this direction and its buffer as described, and nothing else in the pool, except
   that the history of the sockets grows when the kernel moves bytes.
   */
  lemma OwnStepIs(s: State, c: nat, w: Way, b: nat, f: Flow, e: Step)
    requires Is(s, c, w, f) && b in s.bufs.mem && Smooth(f, s.bufs.mem[b], b, e)
    requires !s.conns[c].Sock(Dst(w)).shut && e.c == c && e.w == w && e.k == 0
    ensures Next(s, e) == With(s, c, w, b, OwnStep(Dir(f, s.bufs.mem[b]), b, e))
                            .(wires := if f.acts[0].Kernel? then Carried(s, c, w, f.acts[0].op, e.out) else s.wires)
  {
    match f.acts[0]
    case Kernel(_, _) => KernelStep(s, c, w, b, f, e);
    case Thread(_, _) => ThreadStep(s, c, w, b, f, e);
    case Packet(_, n) =>
      WithOpen(s, c, w, b, OwnStep(Dir(f, s.bufs.mem[b]), b, e));
      BecomeIs(s.conns[c], w, [Thread(Handle(true, n), false)]);
      assert s.bufs.mem[b := s.bufs.mem[b]] == s.bufs.mem;
  }

  // ------------------------------------------------------------------ everybody else's steps

  predicate IsOwn(e: Step, c: nat, w: Way) { e.Work? && e.c == c && e.w == w && e.k == 0 }

  /** Direction w of c and buffer b are as they were. */
  predicate Kept(s: State, s': State, c: nat, w: Way, b: nat)
    requires c in s.conns && b in s.bufs.mem
  {
    && c in s'.conns && s'.conns[c].Get(w) == s.conns[c].Get(w)
    && b in s'.bufs.mem && s'.bufs.mem[b] == s.bufs.mem[b]
  }

  predicate MemKept(s: State, s': State, b: nat)
    requires b in s.bufs.mem
  { b in s'.bufs.mem && s'.bufs.mem[b] == s.bufs.mem[b] }

  lemma TaskMem(s: State, c: nat, w: Way, task: Task, more: bool, ok: bool, b: nat)
    requires c in s.conns && |s.conns[c].Get(w).acts| > 0 && b in s.bufs.mem && b < s.bufs.next
    requires task.FreeSpill? ==> task.b != b
    ensures MemKept(s, DoTask(s, c, w, 0, task, more, ok), b)
  {
  }

  lemma CompleteMem(s: State, c: nat, w: Way, op: Op, out: Outcome, b: nat)
    requires c in s.conns && |s.conns[c].Get(w).acts| > 0 && b in s.bufs.mem && (op.OpRead? ==> op.b != b)
    ensures MemKept(s, DoComplete(s, c, w, 0, op, out), b)
  {
  }

  /** The buffer of a direction is in no other direction's hands. */
  lemma NotTheirs(s: State, c: nat, w: Way, b: nat, c': nat, w': Way)
    requires Inv(s) && c in s.conns && c' in s.conns && s.conns[c].Get(w).buf == At(b) && (c', w') != (c, w)
    ensures s.conns[c'].Get(w').buf != At(b) && HandOf(s.conns[c'], w') != At(b) && b in s.bufs.mem && b < s.bufs.next
    ensures b !in s.bufs.pool
  {
    RelaySteps.OwnBuf(s, c, w);
    RelaySteps.OwnBuf(s, c', w');
    assert BufOk(s.conns, s.bufs, b, s.bufs.where[b]);
  }

  lemma WorkMem(s: State, c: nat, w: Way, b: nat, c': nat, w': Way, k: nat, ok: bool, out: Outcome)
    requires Inv(s) && c in s.conns && s.conns[c].Get(w).buf == At(b) && b in s.bufs.mem && (c', w') != (c, w)
    ensures MemKept(s, DoWork(s, c', w', k, ok, out), b)
  {
    if c' in s.conns && k < |s.conns[c'].Get(w').acts| {
      RelaySteps.Holder(s, c', w', k);
      NotTheirs(s, c, w, b, c', w');
      ActMem(s, c', w', ok, out, b);
    }
  }

  lemma ActMem(s: State, c: nat, w: Way, ok: bool, out: Outcome, b: nat)
    requires c in s.conns && |s.conns[c].Get(w).acts| == 1 && s.conns[c].alive && b in s.bufs.mem && b < s.bufs.next
    requires FlowOk(s.conns[c].Get(w), s.bufs.mem) && s.conns[c].Get(w).buf != At(b) && HandOf(s.conns[c], w) != At(b)
    ensures MemKept(s, DoWork(s, c, w, 0, ok, out), b)
  {
    match s.conns[c].Get(w).acts[0]
    case Thread(task, more) => TaskMem(s, c, w, task, more, ok, b);
    case Kernel(op, _) => CompleteMem(s, c, w, op, out, b);
    case Packet(_, _) =>
  }

  lemma StageMem(s: State, c: nat, b: nat)
    requires c in s.conns && |s.conns[c].ending| > 0 && b in s.bufs.mem
    requires s.conns[c].ending[0].Spill? ==> s.conns[c].ending[0].b != b
    ensures MemKept(s, DoTearDown(s, c, 0), b)
  {
  }

  lemma TearDownMem(s: State, c: nat, w: Way, b: nat, c': nat, k: nat)
    requires Inv(s) && c in s.conns && s.conns[c].Get(w).buf == At(b) && b in s.bufs.mem && c' != c
    ensures MemKept(s, DoTearDown(s, c', k), b)
  {
    if c' in s.conns && k < |s.conns[c'].ending| {
      RelayLifetime.Keeper(s, c', k);
      var stage := s.conns[c'].ending[0];
      if stage.Spill? { NotTheirs(s, c, w, b, c', stage.w); }
      StageMem(s, c', b);
    }
  }

  // The other direction of the same connection, short of a cancellation.

  lemma SiblingBecome(conn: Conn, w: Way, news: seq<Act>)
    requires |conn.Get(Other(w)).acts| == 1
    ensures Become(conn, Other(w), 0, news, false).Get(w) == conn.Get(w)
  {
  }

  lemma SiblingPost(conn: Conn, w: Way, op: Op, ok: bool)
    requires |conn.Get(Other(w)).acts| == 1
    ensures DoPost(conn, Other(w), 0, op, ok, false).Get(w) == conn.Get(w)
  {
  }

  lemma SiblingHandle(conn: Conn, w: Way, ok: bool, n: nat)
    requires |conn.Get(Other(w)).acts| == 1
    ensures DoHandle(conn, Other(w), 0, ok, n, false).Get(w) == conn.Get(w)
  {
  }

  predicate Cancels(p: AbortAt) { p == CancelClient || p == CancelProxy }

  lemma SiblingEnd(conn: Conn, w: Way, p: AbortAt)
    requires |conn.Get(Other(w)).acts| == 1 && !Cancels(p)
    ensures DoHalfClose(conn, Other(w), 0, false).Get(w) == conn.Get(w)
    ensures DoRelease(conn, Other(w), 0, false).Get(w) == conn.Get(w)
    ensures DoAbort(conn, Other(w), 0, p, false).Get(w) == conn.Get(w)
  {
  }

  lemma SiblingTask(s: State, c: nat, w: Way, task: Task, ok: bool)
    requires c in s.conns && |s.conns[c].Get(Other(w)).acts| == 1 && (task.Abort? ==> !Cancels(task.at))
    ensures var s' := DoTask(s, c, Other(w), 0, task, false, ok);
            c in s'.conns && s'.conns[c].Get(w) == s.conns[c].Get(w)
  {
    var conn := s.conns[c];
    var f := conn.Get(Other(w));
    match task
    case Handle(good, n) => SiblingHandle(conn, w, good, n);
    case PostRead => if f.buf.At? { SiblingPost(conn, w, OpRead(f.buf.id), ok); }
    case PostSend => if f.buf.At? { SiblingPost(conn, w, OpSend(f.buf.id, f.off, f.len), ok); }
    case PostWait => SiblingPost(conn, w, OpWait, ok);
    case HalfClose => SiblingEnd(conn, w, Cas);
    case Release => SiblingEnd(conn, w, Cas);
    case Abort(p) => SiblingEnd(conn, w, p);
    case _ => SiblingBuffer(s, c, w, task, ok);
  }

  lemma SiblingBuffer(s: State, c: nat, w: Way, task: Task, ok: bool)
    requires c in s.conns && |s.conns[c].Get(Other(w)).acts| == 1 && (task.TakeBuf? || task.GiveBuf? || task.FreeSpill?)
    ensures var s' := DoTask(s, c, Other(w), 0, task, false, ok);
            c in s'.conns && s'.conns[c].Get(w) == s.conns[c].Get(w)
  {
  }

  lemma SiblingComplete(s: State, c: nat, w: Way, op: Op, out: Outcome)
    requires c in s.conns && |s.conns[c].Get(Other(w)).acts| == 1
    ensures var s' := DoComplete(s, c, Other(w), 0, op, out);
            c in s'.conns && s'.conns[c].Get(w) == s.conns[c].Get(w)
  {
  }

  /** Where a cancellation is under way, both sockets are shut already. */
  lemma NotCancelling(conn: Conn, walk: AbortAt, side: Side)
    requires AbortOk(conn, walk) && !conn.Sock(side).shut
    ensures !Cancels(PosIn(conn.up.acts)) && !Cancels(PosIn(conn.down.acts)) && !Cancels(walk)
  {
  }

  lemma SiblingWork(s: State, c: nat, w: Way, k: nat, ok: bool, out: Outcome)
    requires Inv(s) && Busy(s, c, w) && !s.conns[c].Sock(Dst(w)).shut
    ensures var s' := DoWork(s, c, Other(w), k, ok, out);
            c in s'.conns && s'.conns[c].Get(w) == s.conns[c].Get(w)
  {
    if k < |s.conns[c].Get(Other(w)).acts| {
      RelaySteps.Holder(s, c, Other(w), k);
      NotCancelling(s.conns[c], WalkAt(s.walk, c), Dst(w));
      SiblingAct(s, c, w, ok, out);
    }
  }

  lemma SiblingAct(s: State, c: nat, w: Way, ok: bool, out: Outcome)
    requires Busy(s, c, w) && |s.conns[c].Get(Other(w)).acts| == 1 && !Cancels(PosIn(s.conns[c].Get(Other(w)).acts))
    ensures var s' := DoWork(s, c, Other(w), 0, ok, out);
            c in s'.conns && s'.conns[c].Get(w) == s.conns[c].Get(w)
  {
    match s.conns[c].Get(Other(w)).acts[0]
    case Thread(task, more) => SiblingTask(s, c, w, task, ok);
    case Kernel(op, _) => SiblingComplete(s, c, w, op, out);
    case Packet(good, n) => SiblingBecome(s.conns[c], w, [Thread(Handle(good, n), false)]);
  }

  lemma EffectSpares(conn: Conn, w: Way, p: AbortAt)
    requires !Cancels(p)
    ensures AbortEffect(conn, p).Get(w) == conn.Get(w)
  {
  }

  lemma WalkSpares(s: State, c: nat, w: Way)
    requires Inv(s) && Busy(s, c, w) && !s.conns[c].Sock(Dst(w)).shut
    ensures c in DoWalk(s).conns && DoWalk(s).conns[c].Get(w) == s.conns[c].Get(w)
  {
    if s.walk.Walk? && s.walk.c == c {
      RelayLifetime.WalkerOn(s);
      RelayLifetime.WalkIs(s);
      NotCancelling(s.conns[c], s.walk.at, Dst(w));
      EffectSpares(s.conns[c], w, s.walk.at);
    } else {
      RelayTheorems.WalkOther(s, c);
    }
  }

  lemma Known(s: State, c: nat)
    requires Inv(s) && c in s.conns
    ensures c < s.nextConn
  {
    assert ConnOk(s, c, s.conns[c]);
  }

  /** While the destination's socket is not shut, no step but its own touches a direction ... */
  lemma FlowForeign(s: State, c: nat, w: Way, e: Step)
    requires Inv(s) && Busy(s, c, w) && !s.conns[c].Sock(Dst(w)).shut && !IsOwn(e, c, w)
    ensures c in Next(s, e).conns && Next(s, e).conns[c].Get(w) == s.conns[c].Get(w)
  {
    if e.Work? {
      if e.c != c {
        RelayTheorems.WorkElsewhere(s, e.c, e.w, e.k, e.ok, e.out, c);
      } else if e.w != w {
        SiblingWork(s, c, w, e.k, e.ok, e.out);
      }
    } else if e.TearDown? {
      if e.c != c { RelayTheorems.TearDownElsewhere(s, e.c, e.k, c); }
    } else {
      RestSpares(s, c, w, e);
    }
  }

  lemma RestSpares(s: State, c: nat, w: Way, e: Step)
    requires Inv(s) && Busy(s, c, w) && !s.conns[c].Sock(Dst(w)).shut && !e.Work? && !e.TearDown?
    ensures c in Next(s, e).conns && Next(s, e).conns[c].Get(w) == s.conns[c].Get(w)
  {
    if e.Admit? {
      RelayTheorems.AdmitOther(s, e.c, e.running, c);
    } else if e.WalkOn? {
      WalkSpares(s, c, w);
    } else {
      Known(s, c);
      RelayTheorems.ConnsKept(s, e, c);
    }
  }

  lemma StopMem(s: State, b: nat)
    requires b in s.bufs.mem && b !in s.bufs.pool
    ensures MemKept(s, DoStopFree(s), b)
  {
  }

  lemma OtherBufs(s: State, e: Step)
    requires e.BeginStart? || e.BeginAbort? || e.WalkOn?
    ensures Next(s, e).bufs == s.bufs
  {
  }

  lemma AdmitBufs(s: State, c: nat, running: bool)
    ensures DoAdmit(s, c, running).bufs == s.bufs
  {
  }

  /** ... nor its buffer. */
  lemma MemForeign(s: State, c: nat, w: Way, b: nat, e: Step)
    requires Inv(s) && Busy(s, c, w) && s.conns[c].Get(w).buf == At(b) && b in s.bufs.mem && !IsOwn(e, c, w)
    ensures MemKept(s, Next(s, e), b)
  {
    if e.Work? {
      if (e.c, e.w) != (c, w) { WorkMem(s, c, w, b, e.c, e.w, e.k, e.ok, e.out); }
    } else if e.TearDown? {
      if e.c != c { TearDownMem(s, c, w, b, e.c, e.k); }
    } else if e.Admit? {
      AdmitBufs(s, e.c, e.running);
    } else if e.StopFree? {
      NotTheirs(s, c, w, b, c, Other(w));
      StopMem(s, b);
    } else {
      OtherBufs(s, e);
    }
  }

  /** While the destination's socket is not shut, no step but its own touches a direction or its buffer. */
  lemma Foreign(s: State, c: nat, w: Way, b: nat, e: Step)
    requires Inv(s) && Busy(s, c, w) && s.conns[c].Get(w).buf == At(b) && b in s.bufs.mem
    requires !s.conns[c].Sock(Dst(w)).shut && !IsOwn(e, c, w)
    ensures Kept(s, Next(s, e), c, w, b)
  {
    FlowForeign(s, c, w, e);
    MemForeign(s, c, w, b, e);
  }

  // ------------------------------------------------------------------ every interleaving

  /** The direction's own steps, in order. */
  function OwnSteps(es: seq<Step>, c: nat, w: Way): seq<Step>
    decreases |es|
  { if es == [] then [] else (if IsOwn(es[0], c, w) then [es[0]] else []) + OwnSteps(es[1..], c, w) }

  lemma OwnHead(es: seq<Step>, c: nat, w: Way)
    requires es != []
    ensures var own, rest := OwnSteps(es, c, w), OwnSteps(es[1..], c, w);
            if IsOwn(es[0], c, w) then own != [] && own[0] == es[0] && own[1..] == rest else own == rest
  {
  }

  lemma {:induction false} StaysShut(s: State, es: seq<Step>, c: nat, side: Side)
    requires Inv(s) && c in s.conns
    ensures c in Continue(s, es).conns
    ensures s.conns[c].Sock(side).shut ==> Continue(s, es).conns[c].Sock(side).shut
    decreases |es|
  {
    if es == [] {
    } else {
      RelayTheorems.StepOn(s, es[0], c);
      RelayLifetime.NextKeeps(s, es[0]);
      StaysShut(Next(s, es[0]), es[1..], c, side);
    }
  }

  /** Direction w of c owns b, is d, and may move on. */
  ghost predicate Stands(s: State, c: nat, w: Way, b: nat, d: Dir) {
    && Inv(s) && Is(s, c, w, d.f) && d.f.buf == At(b) && b in s.bufs.mem && s.bufs.mem[b] == d.m
  }

  lemma OwnStands(s: State, c: nat, w: Way, b: nat, d: Dir, e: Step)
    requires Stands(s, c, w, b, d) && IsOwn(e, c, w) && Smooth(d.f, d.m, b, e) && !s.conns[c].Sock(Dst(w)).shut
    ensures Stands(Next(s, e), c, w, b, OwnStep(d, b, e))
  {
    OwnStepIs(s, c, w, b, d.f, e);
    AfterActs(d, b, e);
    RelayLifetime.NextKeeps(s, e);
    RelaySteps.Holder(Next(s, e), c, w, 0);
  }

  lemma AfterActs(d: Dir, b: nat, e: Step)
    requires Smooth(d.f, d.m, b, e)
    ensures |OwnStep(d, b, e).f.acts| == 1 && OwnStep(d, b, e).f.buf == At(b)
  {
  }

  lemma ForeignStands(s: State, c: nat, w: Way, b: nat, d: Dir, e: Step)
    requires Stands(s, c, w, b, d) && !IsOwn(e, c, w) && !s.conns[c].Sock(Dst(w)).shut
    ensures Stands(Next(s, e), c, w, b, d)
  {
    Foreign(s, c, w, b, e);
    RelayLifetime.NextKeeps(s, e);
    RelaySteps.Holder(Next(s, e), c, w, 0);
  }

  /** A direction fares as if it ran alone. */
  lemma {:induction false} Interleaved(s: State, es: seq<Step>, c: nat, w: Way, b: nat, d: Dir)
    requires Stands(s, c, w, b, d) && SmoothRun(d, b, OwnSteps(es, c, w))
    requires c in Continue(s, es).conns && !Continue(s, es).conns[c].Sock(Dst(w)).shut
    ensures Stands(Continue(s, es), c, w, b, OwnRun(d, b, OwnSteps(es, c, w)))
    decreases |es|
  {
    if es == [] {
    } else {
      StaysShut(s, es, c, Dst(w));
      OwnHead(es, c, w);
      if IsOwn(es[0], c, w) {
        OwnStands(s, c, w, b, d, es[0]);
        Interleaved(Next(s, es[0]), es[1..], c, w, b, OwnStep(d, b, es[0]));
      } else {
        ForeignStands(s, c, w, b, d, es[0]);
        Interleaved(Next(s, es[0]), es[1..], c, w, b, d);
      }
    }
  }

  /**
   Delivery: take any run from a reachable state with a read outstanding, in which the direction's own steps
   read `data` and send it in pieces of any positive sizes, and all other threads do whatever they do. If
   the destination's socket is not shut by then, the chunk has been delivered whole and in order.
   */
  lemma Delivers(pre: seq<Step>, es: seq<Step>, c: nat, w: Way, b: nat, data: seq<byte>, sizes: seq<nat>)
    requires c in Reach(pre).conns && |Reach(pre).conns[c].Get(w).acts| == 1
    requires Reach(pre).conns[c].Get(w).acts[0].Kernel? && Reach(pre).conns[c].Get(w).acts[0].op == OpRead(b)
    requires 0 < |data| <= BUF_SIZE
    requires sizes != [] && (forall i :: 0 <= i < |sizes| ==> sizes[i] > 0) && Total(sizes) == |data|
    requires OwnSteps(es, c, w) == Chunk(c, w, data, sizes)
    requires var t := Continue(Reach(pre), es); c in t.conns && !t.conns[c].Sock(Dst(w)).shut
    ensures var t := Continue(Reach(pre), es);
            && t.conns[c].Get(w) == Delivered(Reach(pre).conns[c].Get(w), data)
            && b in t.bufs.mem && t.bufs.mem[b] == data
  {
    RelayLifetime.RunInv(pre);
    FromRead(Reach(pre), es, c, w, b, data, sizes);
  }

  lemma FromRead(s: State, es: seq<Step>, c: nat, w: Way, b: nat, data: seq<byte>, sizes: seq<nat>)
    requires Inv(s) && c in s.conns && |s.conns[c].Get(w).acts| == 1
    requires s.conns[c].Get(w).acts[0].Kernel? && s.conns[c].Get(w).acts[0].op == OpRead(b)
    requires 0 < |data| <= BUF_SIZE
    requires sizes != [] && (forall i :: 0 <= i < |sizes| ==> sizes[i] > 0) && Total(sizes) == |data|
    requires OwnSteps(es, c, w) == Chunk(c, w, data, sizes)
    requires c in Continue(s, es).conns && !Continue(s, es).conns[c].Sock(Dst(w)).shut
    ensures Stands(Continue(s, es), c, w, b, Dir(Delivered(s.conns[c].Get(w), data), data))
  {
    RelaySteps.Holder(s, c, w, 0);
    RelaySteps.OwnBuf(s, c, w);
    var d := Dir(s.conns[c].Get(w), s.bufs.mem[b]);
    ChunkDelivers(d, b, c, w, data, sizes);
    Interleaved(s, es, c, w, b, d);
  }

  /**
   End of stream: take any run from a reachable state with a read outstanding, in which the direction's own
   steps are a completion with no bytes, its packet, the worker's switch and what that decides on. If the
   destination's socket is not shut by then, the direction has half-closed it and is about to end.
   */
  lemma PassesEof(pre: seq<Step>, es: seq<Step>, c: nat, w: Way, b: nat)
    requires c in Reach(pre).conns && |Reach(pre).conns[c].Get(w).acts| == 1
    requires Reach(pre).conns[c].Get(w).acts[0].Kernel? && Reach(pre).conns[c].Get(w).acts[0].op == OpRead(b)
    requires OwnSteps(es, c, w) == Part(c, w, Fine([], 0))
    requires var t := Continue(Reach(pre), es); c in t.conns && !t.conns[c].Sock(Dst(w)).shut
    ensures var t := Continue(Reach(pre), es);
            t.conns[c].Get(w) == Reach(pre).conns[c].Get(w).(eof := true, acts := [Thread(Release, false)])
  {
    RelayLifetime.RunInv(pre);
    EofFrom(Reach(pre), es, c, w, b);
  }

  lemma EofFrom(s: State, es: seq<Step>, c: nat, w: Way, b: nat)
    requires Inv(s) && c in s.conns && |s.conns[c].Get(w).acts| == 1
    requires s.conns[c].Get(w).acts[0].Kernel? && s.conns[c].Get(w).acts[0].op == OpRead(b)
    requires OwnSteps(es, c, w) == Part(c, w, Fine([], 0))
    requires c in Continue(s, es).conns && !Continue(s, es).conns[c].Sock(Dst(w)).shut
    ensures Stands(Continue(s, es), c, w, b, Dir(s.conns[c].Get(w).(eof := true, acts := [Thread(Release, false)]), []))
  {
    RelaySteps.Holder(s, c, w, 0);
    RelaySteps.OwnBuf(s, c, w);
    var d := Dir(s.conns[c].Get(w), s.bufs.mem[b]);
    ReadEof(d, b, c, w);
    Interleaved(s, es, c, w, b, d);
  }

  /** A direction that does no step of its own is left alone by any number of other steps. */
  lemma {:induction false} Undisturbed(s: State, es: seq<Step>, c: nat, w: Way)
    requires Inv(s) && Busy(s, c, w) && OwnSteps(es, c, w) == []
    requires c in Continue(s, es).conns && !Continue(s, es).conns[c].Sock(Dst(w)).shut
    ensures Continue(s, es).conns[c].Get(w) == s.conns[c].Get(w)
    decreases |es|
  {
    if es == [] {
    } else {
      StaysShut(s, es, c, Dst(w));
      OwnHead(es, c, w);
      FlowForeign(s, c, w, es[0]);
      RelayLifetime.NextKeeps(s, es[0]);
      RelaySteps.Holder(Next(s, es[0]), c, w, 0);
      Undisturbed(Next(s, es[0]), es[1..], c, w);
    }
  }
}
