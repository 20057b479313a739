/**
 What each operation of the connection tracker means, on the map from (port, protocol, family) to
 the tracked flow.
 */
module ConnSpec {
  import opened ConnChains

  const TICKS: nat := 0x1_0000_0000_0000_0000
  const STALE_MS: nat := 1800000
  const CLOSED_MS: nat := 60000
  const UDP_FLOW_MS: nat := 20000

  const NO_FIN := Fins(false, false)

  type Table = map<Key, Entry>

  function Added(m: Table, key: Key, src: Addr, dest: Addr, destPort: Port, proxyId: nat, gen: int, now: nat): Table {
    m[key := Entry(src, dest, destPort, proxyId, NO_FIN, gen, now)]
  }

  function Touched(m: Table, key: Key, now: nat): Table {
    if key in m then m[key := m[key].(last := now)] else m
  }

  function Stamped(m: Table, key: Key, gen: int): Table {
    if key in m then m[key := m[key].(gen := gen)] else m
  }

  function WithFin(f: Fins, byApp: bool): Fins { Fins(f.app || byApp, f.relay || !byApp) }

  function FinMarked(m: Table, key: Key, byApp: bool, now: nat): Table {
    if key in m then m[key := m[key].(fin := WithFin(m[key].fin, byApp), last := now)] else m
  }

  /** A cached UDP PROXY verdict still speaks for this packet. */
  predicate FlowLive(e: Entry, src: Addr, dest: Addr, destPort: Port, gen: int, now: nat) {
    && e.destPort == destPort && e.src == src && e.dest == dest
    && e.gen == gen
    && (now <= e.last || now - e.last <= UDP_FLOW_MS)
  }

  predicate Answers(m: Table, key: Key, src: Addr, dest: Addr, destPort: Port, gen: int, now: nat) {
    key in m && FlowLive(m[key], src, dest, destPort, gen, now)
  }

  function Validated(m: Table, key: Key, src: Addr, dest: Addr, destPort: Port, gen: int, now: nat): Table {
    if Answers(m, key, src, dest, destPort, gen, now) then Touched(m, key, now) else m - {key}
  }

  /** The tick subtraction is unsigned. */
  predicate Stale(e: Entry, now: nat) {
    (if e.last <= now then now - e.last else TICKS + now - e.last)
      > (if e.fin == Fins(true, true) then CLOSED_MS else STALE_MS)
  }

  function Swept(m: Table, now: nat): Table { map k | k in m && !Stale(m[k], now) :: m[k] }

  // ------------------------------------------------------------------ the same in milliseconds

  /**
   An entry survives a sweep exactly for half an hour after its last activity, or for a minute once both
   sides have sent their FIN; whatever survives is unchanged.
   */
  lemma SweptIs(m: Table, k: Key, now: nat)
    requires k in m && m[k].last <= now
    ensures k in Swept(m, now) <==> now <= m[k].last + if m[k].fin.app && m[k].fin.relay then 60000 else 1800000
    ensures k in Swept(m, now) ==> Swept(m, now)[k] == m[k]
  {
  }

  /** An accepted packet keeps its flow for twenty seconds more; a rejected one leaves no flow on the port. */
  lemma AcceptedRefreshes(m: Table, key: Key, src: Addr, dest: Addr, destPort: Port, gen: int, now: nat, later: nat)
    ensures var m' := Validated(m, key, src, dest, destPort, gen, now);
            if Answers(m, key, src, dest, destPort, gen, now)
            then Answers(m', key, src, dest, destPort, gen, later) <==> later <= now + 20000
            else key !in m'
  {
  }

  /** Each side's FIN is remembered apart, for good, and counts as activity. */
  lemma FinsAdd(m: Table, key: Key, byApp: bool, now: nat)
    requires key in m
    ensures var e' := FinMarked(m, key, byApp, now)[key];
            && (if byApp then e'.fin.app && e'.fin.relay == m[key].fin.relay else e'.fin.relay && e'.fin.app == m[key].fin.app)
            && e' == m[key].(fin := e'.fin, last := now)
    ensures FinMarked(FinMarked(m, key, true, now), key, false, now)[key].fin == Fins(true, true)
  {
  }

  /** Flow k is a UDP client of this remote endpoint. */
  predicate ClientOf(m: Table, k: Key, dest: Addr, destPort: Port) {
    k in m && k.udp && k.v6 == dest.V6? && m[k].dest == dest && m[k].destPort == destPort
  }
}

/**
 The connection tracker: every operation keeps both indexes consistent and acts on the abstract
 table exactly as ConnSpec says.
 */
module ConnTrack {
  import opened Basics
  import opened ConnChains
  import opened ConnSpec

  class Tracker {
    const fwd: Forward
    const rev: Reverse
    ghost var at: map<Key, Node>

    /** Both indexes hold exactly the nodes of `at`, each in the bucket its current key hashes to. */
    ghost predicate Valid()
      reads this, fwd, fwd.heads, rev, rev.heads, fwd.nodes, rev.nodes
    {
      && fwd.heads != rev.heads
      && fwd.Valid() && rev.Valid() && fwd.nodes == rev.nodes
      && (forall k :: k in at ==> at[k] in fwd.nodes && at[k].key == k)
      && (forall n :: n in fwd.nodes ==> n.key in at && at[n.key] == n)
      && (forall n :: n in fwd.nodes ==> n.inRev && n.revBucket == rev.hash(n.entry.dest, n.entry.destPort))
    }

    ghost function Table(): Table
      reads this, at.Values
    { map k | k in at :: at[k].entry }

    constructor (hash: (Addr, Port) -> Bucket)
      ensures Valid() && Table() == map[] && fwd.nodes == {} && rev.hash == hash
      ensures fresh(fwd) && fresh(rev) && fresh(fwd.heads) && fresh(rev.heads)
    {
      fwd := new Forward();
      rev := new Reverse(hash);
      at := map[];
    }

    /** The node of a key, or null: the lookup loop that every operation starts with. */
    method Find(key: Key) returns (n: Node?)
      requires Valid()
      ensures n == null <==> key !in at
      ensures n != null ==> n == at[key] && n.entry == old(Table())[key]
      ensures Table() == old(Table())
    {
      ghost var i;
      var prev;
      prev, n, i := fwd.Lookup(key);
    }

    // The abstract table after one key changed.
    twostate lemma TablePut(new k: Key, new e: Entry)
      requires at.Keys == old(at.Keys) + {k} && at[k].entry == e
      requires forall j :: j in old(at) && j != k ==> at[j] == old(at[j]) && at[j].entry == old(at[j].entry)
      ensures Table() == old(Table())[k := e]
    {
    }

    twostate lemma TableDrop(k: Key)
      requires at == old(at) - {k}
      requires forall j :: j in at ==> at[j].entry == old(at[j].entry)
      ensures Table() == old(Table()) - {k}
    {
    }

    /** add_connection and add_connection_v6: re-key a reused port in place, else link a new node. */
    method Add(key: Key, src: Addr, dest: Addr, destPort: Port, proxyId: nat, gen: int, now: nat)
      requires Valid()
      modifies this, fwd, fwd.heads, rev, rev.heads, fwd.nodes
      ensures Valid() && Table() == Added(old(Table()), key, src, dest, destPort, proxyId, gen, now)
      ensures fresh(fwd.nodes - old(fwd.nodes))
    {
      var e := Entry(src, dest, destPort, proxyId, NO_FIN, gen, now);
      var n := Find(key);
      if n != null {
        Rekey(n, e);
      } else {
        Link(key, e);
      }
    }

    /** A reused port: the destination may change, so the reverse index is re-keyed. */
    method Rekey(n: Node, e: Entry)
      requires Valid() && n in fwd.nodes
      modifies rev, rev.heads, n`entry, fwd.nodes`revNext, n`revBucket, n`inRev
      ensures Valid() && fwd.nodes == old(fwd.nodes) && Table() == old(Table())[n.key := e]
    {
      rev.Unlink(n);
      n.entry := e;
      rev.Insert(n);
      Rekeyed(n);
    }

    twostate lemma Rekeyed(c: Node)
      requires old(Valid()) && fwd.Valid() && rev.Valid() && c in fwd.nodes
      requires fwd.nodes == rev.nodes == old(fwd.nodes) && at == old(at)
      requires c.inRev && c.revBucket == rev.hash(c.entry.dest, c.entry.destPort)
      requires forall n :: n in fwd.nodes && n != c ==>
                 n.entry == old(n.entry) && n.inRev == old(n.inRev) && n.revBucket == old(n.revBucket)
      ensures Valid() && Table() == old(Table())[c.key := c.entry]
    {
      TablePut(c.key, c.entry);
    }

    /** A new port: link a fresh node at the head of both chains. */
    method Link(key: Key, e: Entry)
      requires Valid() && key !in at
      modifies this, fwd, fwd.heads, rev, rev.heads
      ensures Valid() && fresh(fwd.nodes - old(fwd.nodes)) && Table() == old(Table())[key := e]
    {
      var c := new Node(key, e);
      Attach(c);
      at := at[key := c];
      Linked(c);
    }

    method Attach(c: Node)
      requires fwd.Valid() && rev.Valid() && fwd.heads != rev.heads && c !in fwd.nodes && c !in rev.nodes
      modifies fwd, fwd.heads, rev, rev.heads, c`next, c`revNext, c`revBucket, c`inRev
      ensures fwd.Valid() && rev.Valid() && fwd.nodes == old(fwd.nodes) + {c} && rev.nodes == old(rev.nodes) + {c}
      ensures c.inRev && c.revBucket == rev.hash(c.entry.dest, c.entry.destPort)
    {
      fwd.Push(c);
      rev.Insert(c);
    }

    twostate lemma Linked(new c: Node)
      requires old(Valid()) && fwd.Valid() && rev.Valid() && c !in old(fwd.nodes) && c.key !in old(at)
      requires fwd.nodes == rev.nodes == old(fwd.nodes) + {c} && at == old(at)[c.key := c]
      requires c.inRev && c.revBucket == rev.hash(c.entry.dest, c.entry.destPort)
      requires forall n :: n in old(fwd.nodes) ==>
                 n.entry == old(n.entry) && n.inRev == old(n.inRev) && n.revBucket == old(n.revBucket)
      ensures Valid() && Table() == old(Table())[c.key := c.entry]
    {
      TablePut(c.key, c.entry);
    }

    /** Unlink a node from both chains; the caller frees it. */
    method Evict(prev: Node?, cur: Node, ghost i: nat)
      requires Valid() && cur in fwd.nodes
      requires i < |fwd.chains[Slot(cur.key)]| && fwd.chains[Slot(cur.key)][i] == cur
      requires prev == if i == 0 then null else fwd.chains[Slot(cur.key)][i - 1]
      modifies this, fwd, fwd.heads, rev, rev.heads, fwd.nodes`next, fwd.nodes`revNext, fwd.nodes`inRev
      ensures Valid() && at == old(at) - {cur.key} && fwd.nodes == old(fwd.nodes) - {cur}
      ensures Table() == old(Table()) - {cur.key}
      ensures fwd.chains == old(fwd.chains)[Slot(cur.key) := Cut(old(fwd.chains)[Slot(cur.key)], i)]
      ensures cur.next == old(cur.next)
    {
      Detach(prev, cur, i);
      at := at - {cur.key};
      Evicted(cur);
    }

    method Detach(prev: Node?, cur: Node, ghost i: nat)
      requires fwd.Valid() && rev.Valid() && fwd.heads != rev.heads && fwd.nodes == rev.nodes && cur in fwd.nodes && cur.inRev
      requires i < |fwd.chains[Slot(cur.key)]| && fwd.chains[Slot(cur.key)][i] == cur
      requires prev == if i == 0 then null else fwd.chains[Slot(cur.key)][i - 1]
      modifies fwd, fwd.heads, rev, rev.heads, fwd.nodes`next, fwd.nodes`revNext, cur`inRev
      ensures fwd.Valid() && rev.Valid() && fwd.nodes == rev.nodes == old(fwd.nodes) - {cur}
      ensures fwd.chains == old(fwd.chains)[Slot(cur.key) := Cut(old(fwd.chains)[Slot(cur.key)], i)]
      ensures cur.next == old(cur.next)
    {
      fwd.Unlink(prev, cur, i);
      rev.Unlink(cur);
    }

    twostate lemma Evicted(cur: Node)
      requires old(Valid()) && fwd.Valid() && rev.Valid() && cur in old(fwd.nodes)
      requires fwd.nodes == rev.nodes == old(fwd.nodes) - {cur} && at == old(at) - {cur.key}
      requires forall n :: n in fwd.nodes ==>
                 n.entry == old(n.entry) && n.inRev == old(n.inRev) && n.revBucket == old(n.revBucket)
      ensures Valid() && Table() == old(Table()) - {cur.key}
    {
      TableDrop(cur.key);
    }

    /** remove_connection */
    method Remove(key: Key)
      requires Valid()
      modifies this, fwd, fwd.heads, rev, rev.heads, fwd.nodes`next, fwd.nodes`revNext, fwd.nodes`inRev
      ensures Valid() && Table() == old(Table()) - {key} && fwd.nodes <= old(fwd.nodes)
    {
      ghost var i;
      var prev, cur;
      prev, cur, i := fwd.Lookup(key);
      assert Table() == old(Table()) && (cur == null ==> key !in Table());
      if cur != null {
        Evict(prev, cur, i);
      }
    }

    /** Overwrite fields that neither index is keyed by. */
    method Update(n: Node, e: Entry)
      requires Valid() && n in fwd.nodes && e.dest == n.entry.dest && e.destPort == n.entry.destPort
      modifies n`entry
      ensures Valid() && Table() == old(Table())[n.key := e]
    {
      n.entry := e;
      TablePut(n.key, e);
    }

    /** is_connection_tracked */
    method IsTracked(key: Key) returns (tracked: bool)
      requires Valid()
      ensures Table() == old(Table()) && (tracked <==> key in Table())
    {
      var n := Find(key);
      tracked := n != null;
    }

    /** get_connection and its variants: read the flow and refresh its activity. */
    method Get(key: Key, now: nat) returns (r: Option<Entry>)
      requires Valid()
      modifies fwd.nodes`entry
      ensures Valid() && Table() == Touched(old(Table()), key, now)
      ensures r == if key in old(Table()) then Some(old(Table())[key]) else None
    {
      var n := Find(key);
      if n == null {
        r := None;
      } else {
        r := Some(n.entry);
        Update(n, n.entry.(last := now));
      }
    }

    /** udp_flow_stamp */
    method Stamp(port: Port, v6: bool, gen: int)
      requires Valid()
      modifies fwd.nodes`entry
      ensures Valid() && Table() == Stamped(old(Table()), Key(port, true, v6), gen)
    {
      var n := Find(Key(port, true, v6));
      if n != null {
        Update(n, n.entry.(gen := gen));
      }
    }

    /** connection_fin */
    method Fin(port: Port, v6: bool, byApp: bool, now: nat)
      requires Valid()
      modifies fwd.nodes`entry
      ensures Valid() && Table() == FinMarked(old(Table()), Key(port, false, v6), byApp, now)
    {
      var n := Find(Key(port, false, v6));
      if n != null {
        Update(n, n.entry.(fin := WithFin(n.entry.fin, byApp), last := now));
      }
    }

    /** udp_flow_validate: accept and refresh a live PROXY verdict, evict anything else on the port. */
    method Validate(port: Port, v6: bool, src: Addr, dest: Addr, destPort: Port, gen: int, now: nat) returns (valid: bool)
      requires Valid()
      modifies this, fwd, fwd.heads, rev, rev.heads, fwd.nodes
      ensures Valid() && fwd.nodes <= old(fwd.nodes)
      ensures valid == Answers(old(Table()), Key(port, true, v6), src, dest, destPort, gen, now)
      ensures Table() == Validated(old(Table()), Key(port, true, v6), src, dest, destPort, gen, now)
    {
      var key := Key(port, true, v6);
      ghost var i;
      var prev, cur;
      prev, cur, i := fwd.Lookup(key);
      assert Table() == old(Table()) && (cur != null ==> cur.entry == Table()[key]);
      valid := cur != null && FlowLive(cur.entry, src, dest, destPort, gen, now);
      if valid {
        Update(cur, cur.entry.(last := now));
      } else if cur != null {
        Evict(prev, cur, i);
      }
    }

    /** Is this node a UDP client of the remote endpoint? */
    predicate Client(n: Node, dest: Addr, destPort: Port)
      reads n
    { n.key.udp && n.key.v6 == dest.V6? && n.entry.dest == dest && n.entry.destPort == destPort }

    /**
     The loop over one reverse bucket that picks the most recently active client. No client outside
     the bucket is missed: the answer is the one a scan of the whole table would give.
     */
    method FindSender(dest: Addr, destPort: Port) returns (best: Node?)
      requires Valid()
      ensures best == null <==> (forall k :: !ClientOf(Table(), k, dest, destPort))
      ensures best != null ==> best in fwd.nodes && ClientOf(Table(), best.key, dest, destPort)
      ensures best != null ==>
                forall k :: ClientOf(Table(), k, dest, destPort) ==> Table()[k].last <= best.entry.last
    {
      var b := rev.hash(dest, destPort);
      assert rev.ChainOk(b);
      ghost var chain := rev.chains[b];
      var cur: Node? := rev.heads[b];
      best := null;
      ghost var i := 0;
      while cur != null
        invariant i <= |chain| && cur == if i < |chain| then chain[i] else null
        invariant best != null ==> best in fwd.nodes && Client(best, dest, destPort)
        invariant forall j :: 0 <= j < i && Client(chain[j], dest, destPort) ==>
                    best != null && chain[j].entry.last <= best.entry.last
        decreases |chain| - i
      {
        if Client(cur, dest, destPort) && (best == null || cur.entry.last > best.entry.last) {
          best := cur;
        }
        cur, i := cur.revNext, i + 1;
      }
      forall k | ClientOf(Table(), k, dest, destPort)
        ensures best != null && Table()[k].last <= best.entry.last
      {
        assert at[k].revBucket == b && at[k] in chain;
      }
      if best != null {
        assert ClientOf(Table(), best.key, dest, destPort);
      }
    }

    /** The IPv4 reply path also refreshes the winner, after the comparison. */
    method ReplyTarget(dest: Addr, destPort: Port, now: nat) returns (target: Option<(Addr, Port)>, ghost k: Key)
      requires Valid()
      modifies fwd.nodes`entry
      ensures Valid()
      ensures target == None <==> (forall j :: !ClientOf(old(Table()), j, dest, destPort))
      ensures target == None ==> Table() == old(Table())
      ensures target != None ==>
                && ClientOf(old(Table()), k, dest, destPort)
                && (forall j :: ClientOf(old(Table()), j, dest, destPort) ==> old(Table())[j].last <= old(Table())[k].last)
                && target == Some((old(Table())[k].src, k.port)) && Table() == Touched(old(Table()), k, now)
    {
      var best := FindSender(dest, destPort);
      assert Table() == old(Table()) && (best != null ==> best.entry == Table()[best.key]);
      k := Key(0, true, false);
      if best == null {
        target := None;
      } else {
        k := best.key;
        target := Some((best.entry.src, best.key.port));
        Update(best, best.entry.(last := now));
      }
    }

    ghost predicate StaleSet(stale: set<Node>, now: nat)
      reads fwd, fwd.nodes
    { forall n :: n in fwd.nodes ==> (n in stale <==> Stale(n.entry, now)) }

    /** The first i nodes of a chain are not stale. */
    static ghost predicate Clean(chain: seq<Node>, i: nat, stale: set<Node>) {
      i <= |chain| && forall j :: 0 <= j < i ==> chain[j] !in stale
    }

    static lemma CleanCut(chain: seq<Node>, i: nat, stale: set<Node>)
      requires Clean(chain, i, stale) && i < |chain|
      ensures Clean(Cut(chain, i), i, stale)
    {
    }

    static lemma CleanNext(chain: seq<Node>, i: nat, stale: set<Node>)
      requires Clean(chain, i, stale) && i < |chain| && chain[i] !in stale
      ensures Clean(chain, i + 1, stale)
    {
    }

    static lemma CleanAll(chain: seq<Node>, stale: set<Node>)
      requires Clean(chain, |chain|, stale)
      ensures forall n :: n in chain ==> n !in stale
    {
    }

    /** Only stale nodes have gone. */
    static ghost predicate Removed(before: set<Node>, after: set<Node>, stale: set<Node>) {
      after <= before && forall n :: n in before && n !in after ==> n in stale
    }

    static lemma RemovedTwice(before: set<Node>, mid: set<Node>, after: set<Node>, stale: set<Node>)
      requires Removed(before, mid, stale) && Removed(mid, after, stale)
      ensures Removed(before, after, stale)
    {
    }

    /** The cursor of a sweep stands at position i of bucket b, and nothing stale is left before it. */
    ghost predicate Cursor(b: nat, i: nat, prev: Node?, cur: Node?, stale: set<Node>)
      reads fwd
    {
      && b < |fwd.chains| && Clean(fwd.chains[b], i, stale)
      && cur == (if i < |fwd.chains[b]| then fwd.chains[b][i] else null)
      && prev == (if i == 0 then null else fwd.chains[b][i - 1])
    }

    lemma CursorNext(b: nat, i: nat, prev: Node?, cur: Node, stale: set<Node>)
      requires Valid() && b < SIZE && Cursor(b, i, prev, cur, stale) && cur !in stale
      ensures Cursor(b, i + 1, cur, cur.next, stale)
    {
      assert fwd.ChainOk(b);
      CleanNext(fwd.chains[b], i, stale);
    }

    /** The cursor stands on a node of the bucket; whether it is stale is decided by its entry. */
    lemma CursorOn(b: nat, i: nat, prev: Node?, cur: Node, now: nat, stale: set<Node>)
      requires Valid() && b < SIZE && Cursor(b, i, prev, cur, stale) && StaleSet(stale, now)
      ensures cur in fwd.nodes && Slot(cur.key) == b && (cur in stale <==> Stale(cur.entry, now))
      ensures cur.next == Succ(fwd.chains[b], i)
    {
      assert fwd.ChainOk(b) && cur in fwd.chains[b];
    }

    lemma CursorEnd(b: nat, i: nat, prev: Node?, stale: set<Node>)
      requires Valid() && b < SIZE && Cursor(b, i, prev, null, stale)
      ensures forall n :: n in fwd.nodes && Slot(n.key) == b ==> n !in stale
    {
      CleanAll(fwd.chains[b], stale);
    }

    twostate lemma StaleKept(stale: set<Node>, new now: nat)
      requires old(StaleSet(stale, now)) && fwd.nodes <= old(fwd.nodes)
      requires forall n :: n in fwd.nodes ==> n.entry == old(n.entry)
      ensures StaleSet(stale, now)
    {
    }

    /** Unlink at the cursor; the cursor then stands on the next node. */
    method EvictAt(b: nat, prev: Node?, cur: Node, now: nat, ghost i: nat, ghost stale: set<Node>) returns (next: Node?)
      requires Valid() && b < SIZE && Cursor(b, i, prev, cur, stale) && StaleSet(stale, now)
      modifies this, fwd, fwd.heads, rev, rev.heads, fwd.nodes`next, fwd.nodes`revNext, fwd.nodes`inRev
      ensures Valid() && at == old(at) - {cur.key} && fwd.nodes == old(fwd.nodes) - {cur}
      ensures Cursor(b, i, prev, next, stale) && |fwd.chains[b]| == |old(fwd.chains[b])| - 1
      ensures StaleSet(stale, now)
    {
      CursorOn(b, i, prev, cur, now, stale);
      next := cur.next;
      CleanCut(fwd.chains[b], i, stale);
      CutAt(fwd.chains[b], i);
      Evict(prev, cur, i);
      StaleKept(stale, now);
    }

    /** The cursor stays put when it unlinks and moves on when it keeps. */
    method SweepStep(b: nat, prev: Node?, cur: Node, now: nat, ghost i: nat, ghost stale: set<Node>)
      returns (prev': Node?, next: Node?, ghost k: nat)
      requires Valid() && b < SIZE && Cursor(b, i, prev, cur, stale) && StaleSet(stale, now)
      modifies this, fwd, fwd.heads, rev, rev.heads, fwd.nodes`next, fwd.nodes`revNext, fwd.nodes`inRev
      ensures Valid() && StaleSet(stale, now) && Cursor(b, k, prev', next, stale)
      ensures Removed(old(fwd.nodes), fwd.nodes, stale) && |fwd.chains[b]| - k < |old(fwd.chains[b])| - i
    {
      CursorOn(b, i, prev, cur, now, stale);
      prev', k := prev, i;
      if Stale(cur.entry, now) {
        next := EvictAt(b, prev, cur, now, i, stale);
      } else {
        CursorNext(b, i, prev, cur, stale);
        prev', next, k := cur, cur.next, i + 1;
      }
    }

    /** One bucket of the sweep; `stale` is the set of nodes to evict. */
    method SweepBucket(b: nat, now: nat, ghost stale: set<Node>)
      requires Valid() && b < SIZE && StaleSet(stale, now)
      modifies this, fwd, fwd.heads, rev, rev.heads, fwd.nodes`next, fwd.nodes`revNext, fwd.nodes`inRev
      ensures Valid() && StaleSet(stale, now) && Removed(old(fwd.nodes), fwd.nodes, stale)
      ensures forall n :: n in fwd.nodes && Slot(n.key) == b ==> n !in stale
    {
      var prev: Node?, cur: Node? := null, fwd.heads[b];
      ghost var i := 0;
      assert fwd.ChainOk(b);
      while cur != null
        invariant Valid() && StaleSet(stale, now) && Cursor(b, i, prev, cur, stale)
        invariant Removed(old(fwd.nodes), fwd.nodes, stale)
        decreases |fwd.chains[b]| - i
      {
        ghost var mid := fwd.nodes;
        prev, cur, i := SweepStep(b, prev, cur, now, i, stale);
        RemovedTwice(old(fwd.nodes), mid, fwd.nodes, stale);
      }
      CursorEnd(b, i, prev, stale);
    }

    /** cleanup_stale_connections as one atomic sweep. */
    method Sweep(now: nat)
      requires Valid()
      modifies this, fwd, fwd.heads, rev, rev.heads, fwd.nodes`next, fwd.nodes`revNext, fwd.nodes`inRev
      ensures Valid() && Table() == Swept(old(Table()), now) && fwd.nodes <= old(fwd.nodes)
    {
      ghost var stale := set n | n in fwd.nodes && Stale(n.entry, now);
      var b := 0;
      while b < SIZE
        invariant b <= SIZE && Valid() && Removed(old(fwd.nodes), fwd.nodes, stale)
        invariant StaleSet(stale, now)
        invariant forall n :: n in fwd.nodes && Slot(n.key) < b ==> n !in stale
      {
        ghost var mid := fwd.nodes;
        SweepBucket(b, now, stale);
        RemovedTwice(old(fwd.nodes), mid, fwd.nodes, stale);
        b := b + 1;
      }
      TableSwept(now);
    }

    twostate lemma TableSwept(now: nat)
      requires forall k :: k in at ==> k in old(at) && at[k] == old(at[k]) && !Stale(at[k].entry, now)
      requires forall k :: k in old(at) && k !in at ==> Stale(old(at[k].entry), now)
      requires forall k :: k in at ==> at[k].entry == old(at[k].entry)
      ensures Table() == Swept(old(Table()), now)
    {
    }
  }

  /** The tracker as the program sets it up, with its own hash of the original destination. */
  method NewTracker() returns (t: Tracker)
    ensures t.Valid() && t.Table() == map[] && t.fwd.nodes == {}
    ensures fresh(t) && fresh(t.fwd) && fresh(t.rev) && fresh(t.fwd.heads) && fresh(t.rev.heads)
    ensures forall d: Addr, p: Port :: t.rev.hash(d, p) == RevHash(d, p)
  {
    t := new Tracker((d: Addr, p: Port) => RevHash(d, p));
  }
}
