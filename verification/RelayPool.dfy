/**
 The IOCP relay pool as a step system.

 A step is one atomic action of one thread (a lock-protected section, an interlocked operation, a
 socket call, a buffer allocation or free) or one completion delivered by the kernel. Everything
 the environment decides (who runs next, whether a post or an allocation succeeds, how many bytes
 move, when a peer closes) is data in the step, so a run is a sequence of steps. Any number of
 completion packets may be in handling at once, so every size of the worker pool is covered.

 Each direction carries the list of its activities: threads working on it, operations the kernel
 holds, packets waiting in the completion port. The steps do not assume that there is only one.
 Touching a freed connection or buffer, freeing twice, or using a closed socket is not excluded by
 guards either: such a step sets `fault`.
 */
module RelayPool {
  import opened Basics

  const BUF_SIZE: nat := 65536
  const POOL_KEEP: nat := 256

  datatype Ref = Nil | At(id: nat)
  datatype Way = Up | Down
  datatype Side = Client | Proxy
  datatype DirId = D(c: nat, w: Way)

  function Src(w: Way): Side { if w == Up then Client else Proxy }
  function Dst(w: Way): Side { if w == Up then Proxy else Client }

  datatype Kind = Wait | Read | Send
  datatype Sock = Sock(shut: bool, cancelled: bool, halfClosed: bool, closed: bool)

  /** What the kernel was asked to do; it keeps the buffer pointer it was given. */
  datatype Op = OpWait | OpRead(b: nat) | OpSend(b: nat, off: nat, len: nat)

  /** The socket an operation of a direction uses. */
  function Target(w: Way, op: Op): Side { if op.OpSend? then Dst(w) else Src(w) }

  /** Position inside relay_abort. */
  datatype AbortAt = Cas | ShutClient | ShutProxy | CancelClient | CancelProxy
  /** What a thread working on a direction does next. */
  datatype Task = Handle(ok: bool, n: nat) | TakeBuf | PostRead | PostSend | GiveBuf | FreeSpill(b: nat)
                | PostWait | HalfClose | Abort(at: AbortAt) | Release
  /** Position inside relay_release once the last reference is gone. */
  datatype Teardown = Unlink | CloseClient | CloseProxy | Give(w: Way) | Spill(w: Way, b: nat) | FreeConn

  /** `more`: the thread is in relay_start and still has to start dir[1]. */
  datatype Act = Thread(task: Task, more: bool)
               | Kernel(op: Op, cancelled: bool)
               | Packet(ok: bool, n: nat)

  /**
   A RELAY_DIR (state, buf, len, off) with its activities and its history: whether it has ended,
   the bytes the kernel read for it and sent for it, and whether its send side was half-closed.
   */
  datatype Flow = Flow(state: Kind, buf: Ref, len: nat, off: nat,
                       acts: seq<Act>,
                       gone: bool, read: seq<byte>, sent: seq<byte>, eof: bool)

  /** How often a connection was linked, unlinked, had each socket closed, and was freed. */
  datatype Hist = Hist(linked: nat, unlinked: nat, closedClient: nat, closedProxy: nat, freed: nat)

  /**
   A RELAY_CONN: `client` and `proxy` are s[0] and s[1], `up` and `down` are dir[0] and dir[1].
   `starting` counts relay_start calls that hold it unpublished, `ending` lists the threads past
   the last reference. `alive` is false once it is freed.
   */
  datatype Conn = Conn(alive: bool, refs: int, closing: bool, up: Flow, down: Flow, client: Sock, proxy: Sock,
                       starting: nat, ending: seq<Teardown>, hist: Hist, fault: bool) {
    function Get(w: Way): Flow { if w == Up then up else down }
    function Set(w: Way, f: Flow): Conn { if w == Up then this.(up := f) else this.(down := f) }
    function Sock(side: Side): Sock { if side == Client then client else proxy }
    function SetSock(side: Side, k: Sock): Conn
    { if side == Client then this.(client := k) else this.(proxy := k) }
    function Bad(): Conn { this.(fault := true) }
  }

  const NEW_FLOW := Flow(Wait, Nil, 0, 0, [], false, [], [], false)
  const OPEN_SOCK := Sock(false, false, false, false)
  const NEW_CONN := Conn(true, 2, false, NEW_FLOW, NEW_FLOW, OPEN_SOCK, OPEN_SOCK, 1, [], Hist(0, 0, 0, 0, 0), false)

  // ------------------------------------------------------------------ steps of one connection

  function Replace(acts: seq<Act>, k: nat, news: seq<Act>): seq<Act>
    requires k < |acts|
  { acts[..k] + news + acts[k + 1..] }

  /** Activity k of direction w becomes `news`; a relay_start that is done with dir[0] turns to dir[1]. */
  function Become(conn: Conn, w: Way, k: nat, news: seq<Act>, startDown: bool): Conn
    requires k < |conn.Get(w).acts|
  {
    var f := conn.Get(w);
    var c1 := conn.Set(w, f.(acts := Replace(f.acts, k, news)));
    if startDown then c1.(down := c1.down.(acts := c1.down.acts + [Thread(GiveBuf, false)])) else c1
  }

  function Goto(conn: Conn, w: Way, k: nat, task: Task, more: bool): Conn
    requires k < |conn.Get(w).acts|
  { Become(conn, w, k, [Thread(task, more)], false) }

  /** The switch of relay_worker. */
  function Dispatch(f: Flow, ok: bool, n: nat): (Flow, Task) {
    if !ok then (f, Abort(Cas))
    else match f.state
      case Wait => (f, if f.buf.Nil? then TakeBuf else PostRead)
      case Read => if n == 0 then (f, HalfClose) else (f.(len := n, off := 0), PostSend)
      case Send =>
        if n == 0 then (f, Abort(Cas))
        else
          var g := f.(off := f.off + n);
          (g, if g.off < g.len then PostSend
              else if g.len < BUF_SIZE / 4 then GiveBuf
              else if g.buf.Nil? then TakeBuf else PostRead)
  }

  function DoHandle(conn: Conn, w: Way, k: nat, ok: bool, n: nat, more: bool): Conn
    requires k < |conn.Get(w).acts|
  {
    var (f, task) := Dispatch(conn.Get(w), ok, n);
    Goto(conn.Set(w, f.(acts := conn.Get(w).acts)), w, k, task, more)
  }

  /** WSARecv / WSASend. A post on a socket that was shut down in both directions fails. */
  function DoPost(conn: Conn, w: Way, k: nat, op: Op, ok: bool, more: bool): Conn
    requires k < |conn.Get(w).acts|
  {
    var kind := match op case OpWait => Wait case OpRead(_) => Read case OpSend(_, _, _) => Send;
    var sock := conn.Sock(Target(w, op));
    var c1 := conn.Set(w, conn.Get(w).(state := kind));
    if sock.closed then conn.Bad()
    else if !ok || sock.shut then Goto(c1, w, k, Abort(Cas), more)
    else Become(c1, w, k, [Kernel(op, false)], more)
  }

  /** shutdown(dst, SD_SEND) on clean end of stream. */
  function DoHalfClose(conn: Conn, w: Way, k: nat, more: bool): Conn
    requires k < |conn.Get(w).acts|
  {
    var sock := conn.Sock(Dst(w));
    if sock.closed then conn.Bad()
    else
      var c1 := conn.SetSock(Dst(w), sock.(halfClosed := true));
      Goto(c1.Set(w, c1.Get(w).(eof := true)), w, k, Release, more)
  }

  function CancelActs(acts: seq<Act>, w: Way, side: Side): seq<Act> {
    seq(|acts|, k requires 0 <= k < |acts| =>
      if acts[k].Kernel? && Target(w, acts[k].op) == side then Kernel(acts[k].op, true) else acts[k])
  }

  function CancelIo(conn: Conn, side: Side): Conn {
    conn.(up := conn.up.(acts := CancelActs(conn.up.acts, Up, side)),
          down := conn.down.(acts := CancelActs(conn.down.acts, Down, side)))
  }

  /** One action of relay_abort; the compare-exchange is won by at most one caller. */
  function AbortEffect(conn: Conn, at: AbortAt): Conn {
    match at
    case Cas => conn.(closing := true)
    case ShutClient => if conn.client.closed then conn.Bad() else conn.(client := conn.client.(shut := true))
    case ShutProxy => if conn.proxy.closed then conn.Bad() else conn.(proxy := conn.proxy.(shut := true))
    case CancelClient =>
      if conn.client.closed then conn.Bad()
      else CancelIo(conn.(client := conn.client.(cancelled := true)), Client)
    case CancelProxy =>
      if conn.proxy.closed then conn.Bad()
      else CancelIo(conn.(proxy := conn.proxy.(cancelled := true)), Proxy)
  }

  /** Is `at` the last action of relay_abort for a caller that finds `closing` as given? */
  function AbortEnds(at: AbortAt, closing: bool): bool { at == CancelProxy || (at == Cas && closing) }

  function AbortNext(at: AbortAt): AbortAt {
    match at case Cas => ShutClient case ShutClient => ShutProxy
             case ShutProxy => CancelClient case CancelClient => CancelProxy case CancelProxy => CancelProxy
  }

  function DoAbort(conn: Conn, w: Way, k: nat, at: AbortAt, more: bool): Conn
    requires k < |conn.Get(w).acts|
  {
    var task := if AbortEnds(at, conn.closing) then Release else Abort(AbortNext(at));
    AbortEffect(Goto(conn, w, k, task, more), at)
  }

  /** InterlockedDecrement(&refs); the one that reaches zero goes on to tear the connection down. */
  function DoRelease(conn: Conn, w: Way, k: nat, more: bool): Conn
    requires k < |conn.Get(w).acts|
  {
    var c1 := conn.(refs := conn.refs - 1);
    var c2 := c1.Set(w, c1.Get(w).(gone := true));
    if c2.refs != 0 then Become(c2, w, k, [], more)
    else Become(c2, w, k, [], more).(ending := c2.ending + [Unlink])
  }

  function SetStage(conn: Conn, k: nat, news: seq<Teardown>): Conn
    requires k < |conn.ending|
  { conn.(ending := conn.ending[..k] + news + conn.ending[k + 1..]) }

  function DoClose(conn: Conn, k: nat, side: Side): Conn
    requires k < |conn.ending|
  {
    var sock := conn.Sock(side);
    var h := conn.hist;
    if sock.closed then conn.Bad()
    else
      SetStage(conn.SetSock(side, sock.(closed := true)), k, [if side == Client then CloseProxy else Give(Up)])
        .(hist := if side == Client then h.(closedClient := h.closedClient + 1)
                  else h.(closedProxy := h.closedProxy + 1))
  }

  function DoFree(conn: Conn): Conn {
    conn.(alive := false, hist := conn.hist.(freed := conn.hist.freed + 1))
  }

  // ------------------------------------------------------------------ buffers

  datatype BufLoc = Pooled(j: nat) | Owned(d: DirId) | InHand(d: DirId) | Freed

  /**
   The buffer stack, the contents of every allocated buffer, and the history of where each buffer
   is. `InHand(d)`: a thread took it off direction d and will free it.
   */
  datatype Bufs = Bufs(pool: seq<nat>, mem: map<nat, seq<byte>>, where: map<nat, BufLoc>, next: nat, fault: bool)

  /** relay_buf_get: pop under the lock, else malloc. */
  function PopBuf(bufs: Bufs, d: DirId, ok: bool): (Bufs, Ref) {
    if |bufs.pool| > 0 then
      var b := bufs.pool[|bufs.pool| - 1];
      (bufs.(pool := bufs.pool[..|bufs.pool| - 1], where := bufs.where[b := Owned(d)]), At(b))
    else if ok then
      var b := bufs.next;
      (bufs.(mem := bufs.mem[b := []], where := bufs.where[b := Owned(d)], next := b + 1), At(b))
    else (bufs, Nil)
  }

  /** The locked part of relay_buf_put: push, unless the pool is full. */
  function PushBuf(bufs: Bufs, d: DirId, b: nat): Bufs {
    if |bufs.pool| < POOL_KEEP
    then bufs.(pool := bufs.pool + [b], where := bufs.where[b := Pooled(|bufs.pool|)])
    else bufs.(where := bufs.where[b := InHand(d)])
  }

  /** free(b) */
  function FreeBuf(bufs: Bufs, b: nat): Bufs {
    if b !in bufs.mem then bufs.(fault := true)
    else bufs.(mem := bufs.mem - {b}, where := bufs.where[b := Freed])
  }

  // ------------------------------------------------------------------ live list

  datatype Links = Links(prev: Ref, next: Ref)

  /** The doubly linked live list with its counter and event; `order` is its history, head first. */
  datatype List = List(head: Ref, links: map<nat, Links>, active: int, done: bool, order: seq<nat>, fault: bool)

  function LinkFirst(list: List, c: nat): List {
    if list.head.At? && list.head.id !in list.links then list.(fault := true)
    else
      var links := list.links[c := Links(Nil, list.head)];
      list.(links := if list.head.At? then links[list.head.id := links[list.head.id].(prev := At(c))] else links,
            head := At(c), active := list.active + 1, done := false, order := [c] + list.order)
  }

  function Without(order: seq<nat>, c: nat): seq<nat> {
    if order == [] then [] else if order[0] == c then order[1..] else [order[0]] + Without(order[1..], c)
  }

  /** Splice c out. The links of freed connections are gone, so a dangling neighbour is a fault. */
  function UnlinkConn(list: List, c: nat): List {
    if c !in list.links then list.(fault := true)
    else
      var p, n := list.links[c].prev, list.links[c].next;
      if (p.At? && p.id !in list.links) || (n.At? && n.id !in list.links) then list.(fault := true)
      else
        var links1 := if p.At? then list.links[p.id := list.links[p.id].(next := n)] else list.links;
        var links2 := if n.At? then links1[n.id := links1[n.id].(prev := p)] else links1;
        list.(links := links2, head := if p.At? then list.head else n,
              active := list.active - 1, done := list.done || list.active - 1 == 0,
              order := Without(list.order, c))
  }

  // ------------------------------------------------------------------ the sockets' side

  /** What passed over the two sockets of a connection, in each direction, as their peers see it. */
  datatype Wire = Wire(fromClient: seq<byte>, toClient: seq<byte>, fromProxy: seq<byte>, toProxy: seq<byte>) {
    function Receive(side: Side, bytes: seq<byte>): Wire {
      match side
      case Client => this.(fromClient := fromClient + bytes)
      case Proxy => this.(fromProxy := fromProxy + bytes)
    }
    function Hand(side: Side, bytes: seq<byte>): Wire {
      match side
      case Client => this.(toClient := toClient + bytes)
      case Proxy => this.(toProxy := toProxy + bytes)
    }
  }

  const SILENT := Wire([], [], [], [])

  // ------------------------------------------------------------------ the whole pool

  /** relay_pool_abort walking the list with the lock held; `j` is the list position of c. */
  datatype Walker = NoWalk | Walk(c: nat, at: AbortAt, j: nat)

  /** `wires` is history: what the kernel moved over the sockets of each connection. */
  datatype State = State(conns: map<nat, Conn>, list: List, bufs: Bufs, walk: Walker,
                         accepting: bool, aborted: bool, nextConn: nat, fault: bool, wires: map<nat, Wire>)

  /** relay_pool_start: no connection, done event signalled, accepting. */
  const INIT := State(map[], List(Nil, map[], 0, true, [], false), Bufs([], map[], map[], 0, false), NoWalk,
                      true, false, 0, false, map[])

  datatype Outcome = Fine(data: seq<byte>, n: nat) | Failed(data: seq<byte>, n: nat)

  datatype Step =
    | Work(c: nat, w: Way, k: nat, ok: bool, out: Outcome) // activity k of a direction moves on
    | TearDown(c: nat, k: nat)                             // a thread past the last reference moves on
    | BeginStart                                           // relay_start allocates a connection
    | Admit(c: nat, running: bool)                         // its admission section
    | BeginAbort                                           // relay_pool_abort takes the lock
    | WalkOn                                               // ... and does one action
    | StopFree                                             // relay_pool_stop frees the pooled buffers

  function Put(s: State, c: nat, conn: Conn): State { s.(conns := s.conns[c := conn]) }

  predicate LockFree(s: State) { s.walk == NoWalk }

  /** A thread that works on direction w does its next action. */
  function DoTask(s: State, c: nat, w: Way, k: nat, task: Task, more: bool, ok: bool): State
    requires c in s.conns && k < |s.conns[c].Get(w).acts|
  {
    var conn := s.conns[c];
    var f := conn.Get(w);
    match task
    case Handle(good, n) => Put(s, c, DoHandle(conn, w, k, good, n, more))
    case TakeBuf =>
      if !LockFree(s) then s
      else
        var (bufs, b) := PopBuf(s.bufs, D(c, w), ok);
        var c1 := conn.Set(w, f.(buf := b));
        Put(s, c, Goto(c1, w, k, if b.At? then PostRead else Abort(Cas), more)).(bufs := bufs)
    case PostRead =>
      Put(s, c, if f.buf.Nil? then conn.Bad() else DoPost(conn, w, k, OpRead(f.buf.id), ok, more))
    case PostSend =>
      Put(s, c, if f.buf.Nil? then conn.Bad() else DoPost(conn, w, k, OpSend(f.buf.id, f.off, f.len), ok, more))
    case GiveBuf =>
      if f.buf.Nil? then Put(s, c, Goto(conn, w, k, PostWait, more))
      else if !LockFree(s) then s
      else
        var full := |s.bufs.pool| >= POOL_KEEP;
        var c1 := conn.Set(w, f.(buf := Nil));
        Put(s, c, Goto(c1, w, k, if full then FreeSpill(f.buf.id) else PostWait, more))
          .(bufs := PushBuf(s.bufs, D(c, w), f.buf.id))
    case FreeSpill(b) => Put(s, c, Goto(conn, w, k, PostWait, more)).(bufs := FreeBuf(s.bufs, b))
    case PostWait => Put(s, c, DoPost(conn, w, k, OpWait, ok, more))
    case HalfClose => Put(s, c, DoHalfClose(conn, w, k, more))
    case Abort(at) => Put(s, c, DoAbort(conn, w, k, at, more))
    case Release => Put(s, c, DoRelease(conn, w, k, more))
  }

  /** The kernel finishes an operation; bytes move now, through the buffer pointer it was given. */
  function DoComplete(s: State, c: nat, w: Way, k: nat, op: Op, out: Outcome): State
    requires c in s.conns && k < |s.conns[c].Get(w).acts|
  {
    var conn := s.conns[c];
    var f := conn.Get(w);
    match op
    case OpWait => Put(s, c, Become(conn, w, k, [Packet(out.Fine?, 0)], false))
    case OpRead(b) =>
      if b !in s.bufs.mem then s.(fault := true)
      else if |out.data| > BUF_SIZE then s
      else
        var c1 := if out.Fine? then conn.Set(w, f.(read := f.read + out.data)) else conn;
        Put(s, c, Become(c1, w, k, [Packet(out.Fine?, if out.Fine? then |out.data| else 0)], false))
          .(bufs := s.bufs.(mem := s.bufs.mem[b := out.data]))
    case OpSend(b, off, len) =>
      if b !in s.bufs.mem || len > |s.bufs.mem[b]| || off > len then s.(fault := true)
      else if out.n > len - off then s
      else
        var c1 := conn.Set(w, f.(sent := f.sent + s.bufs.mem[b][off..off + out.n]));
        Put(s, c, Become(c1, w, k, [Packet(out.Fine?, out.n)], false))
  }

  /** The bytes that a completing operation moves over the socket it was posted to. */
  function Carried(s: State, c: nat, w: Way, op: Op, out: Outcome): map<nat, Wire> {
    var wire := if c in s.wires then s.wires[c] else SILENT;
    match op
    case OpWait => s.wires
    case OpRead(b) =>
      if b in s.bufs.mem && |out.data| <= BUF_SIZE && out.Fine?
      then s.wires[c := wire.Receive(Target(w, op), out.data)] else s.wires
    case OpSend(b, off, len) =>
      if b in s.bufs.mem && len <= |s.bufs.mem[b]| && off <= len && out.n <= len - off
      then s.wires[c := wire.Hand(Target(w, op), s.bufs.mem[b][off..off + out.n])] else s.wires
  }

  function DoWork(s: State, c: nat, w: Way, k: nat, ok: bool, out: Outcome): State {
    if c !in s.conns || k >= |s.conns[c].Get(w).acts| then s
    else if !s.conns[c].alive then s.(fault := true)
    else match s.conns[c].Get(w).acts[k]
      case Thread(task, more) => DoTask(s, c, w, k, task, more, ok)
      case Kernel(op, _) => DoComplete(s, c, w, k, op, out).(wires := Carried(s, c, w, op, out))
      case Packet(good, n) => Put(s, c, Goto(s.conns[c], w, k, Handle(good, n), false))
  }

  function AfterGive(w: Way): Teardown { if w == Up then Give(Down) else FreeConn }

  function DoTearDown(s: State, c: nat, k: nat): State {
    if c !in s.conns || k >= |s.conns[c].ending| then s
    else if !s.conns[c].alive then s.(fault := true)
    else
      var conn := s.conns[c];
      match conn.ending[k]
      case Unlink =>
        if !LockFree(s) then s
        else
          Put(s, c, SetStage(conn, k, [CloseClient]).(hist := conn.hist.(unlinked := conn.hist.unlinked + 1)))
            .(list := UnlinkConn(s.list, c))
      case CloseClient => Put(s, c, DoClose(conn, k, Client))
      case CloseProxy => Put(s, c, DoClose(conn, k, Proxy))
      case Give(w) =>
        var f := conn.Get(w);
        if f.buf.Nil? then Put(s, c, SetStage(conn, k, [AfterGive(w)]))
        else if !LockFree(s) then s
        else
          var full := |s.bufs.pool| >= POOL_KEEP;
          Put(s, c, SetStage(conn.Set(w, f.(buf := Nil)), k, [if full then Spill(w, f.buf.id) else AfterGive(w)]))
            .(bufs := PushBuf(s.bufs, D(c, w), f.buf.id))
      case Spill(w, b) => Put(s, c, SetStage(conn, k, [AfterGive(w)])).(bufs := FreeBuf(s.bufs, b))
      case FreeConn =>
        Put(s, c, DoFree(SetStage(conn, k, []))).(list := s.list.(links := s.list.links - {c}))
  }

  /** relay_start: check under the lock, then publish; a refused connection is freed at once. */
  function DoAdmit(s: State, c: nat, running: bool): State {
    if c !in s.conns || s.conns[c].starting == 0 || !LockFree(s) then s
    else if !s.conns[c].alive then s.(fault := true)
    else
      var conn := s.conns[c].(starting := s.conns[c].starting - 1);
      if !s.accepting || !running then Put(s, c, DoFree(conn.(up := conn.up.(gone := true), down := conn.down.(gone := true))))
      else
        Put(s, c, conn.(up := conn.up.(acts := conn.up.acts + [Thread(GiveBuf, true)]),
                        hist := conn.hist.(linked := conn.hist.linked + 1)))
          .(list := LinkFirst(s.list, c))
  }

  function DoBeginAbort(s: State): State {
    if !LockFree(s) then s
    else if s.list.head.Nil? then s.(accepting := false, aborted := true)
    else s.(accepting := false, walk := Walk(s.list.head.id, Cas, 0))
  }

  function DoWalk(s: State): State {
    if LockFree(s) then s
    else
      var c, at, j := s.walk.c, s.walk.at, s.walk.j;
      if c !in s.conns || !s.conns[c].alive || c !in s.list.links then s.(fault := true)
      else
        var s1 := Put(s, c, AbortEffect(s.conns[c], at));
        var next := s.list.links[c].next;
        if !AbortEnds(at, s.conns[c].closing) then s1.(walk := Walk(c, AbortNext(at), j))
        else if next.At? then s1.(walk := Walk(next.id, Cas, j + 1))
        else s1.(walk := NoWalk, aborted := true)
  }

  /** No thread of the pool is in the middle of anything: the workers are joined, no relay_start runs. */
  predicate Quiet(conn: Conn) {
    && conn.starting == 0 && conn.ending == []
    && (forall k :: 0 <= k < |conn.up.acts| ==> conn.up.acts[k].Kernel?)
    && (forall k :: 0 <= k < |conn.down.acts| ==> conn.down.acts[k].Kernel?)
  }

  /** relay_pool_stop after its waits: the abort has run, the done event is signalled, all is quiet. */
  function DoStopFree(s: State): State {
    if s.aborted && s.list.done && LockFree(s) && (forall c :: c in s.conns ==> Quiet(s.conns[c])) then
      if exists b :: b in s.bufs.pool && b !in s.bufs.mem then s.(fault := true)
      else
        s.(bufs := s.bufs.(mem := map b | b in s.bufs.mem && b !in s.bufs.pool :: s.bufs.mem[b],
                           where := map b | b in s.bufs.where :: if b in s.bufs.pool then Freed else s.bufs.where[b],
                           pool := []))
    else s
  }

  function Next(s: State, e: Step): State {
    match e
    case Work(c, w, k, ok, out) => DoWork(s, c, w, k, ok, out)
    case TearDown(c, k) => DoTearDown(s, c, k)
    case BeginStart =>
      s.(conns := s.conns[s.nextConn := NEW_CONN], nextConn := s.nextConn + 1, wires := s.wires[s.nextConn := SILENT])
    case Admit(c, running) => DoAdmit(s, c, running)
    case BeginAbort => DoBeginAbort(s)
    case WalkOn => DoWalk(s)
    case StopFree => DoStopFree(s)
  }

  /** The state after a run. */
  function Reach(es: seq<Step>): State
    decreases |es|
  { if es == [] then INIT else Next(Reach(es[..|es| - 1]), es[|es| - 1]) }

  /** The state after more steps. */
  function Continue(s: State, es: seq<Step>): State
    decreases |es|
  { if es == [] then s else Continue(Next(s, es[0]), es[1..]) }
}
