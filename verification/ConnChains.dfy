/**
 The two intrusive hash-chain indexes of the connection tracker. Both run through the same nodes:
 the forward table through `next`, keyed by source port; the reverse table through `revNext`, keyed
 by original destination.
 */
module ConnChains {
  import opened Basics

  const SIZE: nat := 4096

  type Port = p: int | 0 <= p < 65536
  type Bucket = b: nat | b < SIZE

  /** An address in network byte order. */
  datatype Addr = V4(a: byte, b: byte, c: byte, d: byte) | V6(bytes: seq<byte>)

  /** (port, protocol, family): TCP and UDP, or IPv4 and IPv6, may share a local port. */
  datatype Key = Key(port: Port, udp: bool, v6: bool)

  /** fin_flags: bit 1 is the application's FIN, bit 2 the relay's. */
  datatype Fins = Fins(app: bool, relay: bool)

  datatype Entry = Entry(src: Addr, dest: Addr, destPort: Port, proxyId: nat, fin: Fins, gen: int, last: nat)

  class Node {
    const key: Key
    var entry: Entry
    var next: Node?
    var revNext: Node?
    var revBucket: nat
    var inRev: bool

    constructor (key: Key, entry: Entry)
      ensures this.key == key && this.entry == entry && !inRev
    {
      this.key, this.entry := key, entry;
      next, revNext, revBucket, inRev := null, null, 0, false;
    }
  }

  function FoldV6(h: bv32, bytes: seq<byte>): bv32
    decreases |bytes|
  {
    if bytes == [] then h else FoldV6(h * 31 + bytes[0] as bv32, bytes[1..])
  }

  /** rev_hash_v4 and rev_hash_v6, in 32-bit arithmetic. */
  function RevHash(dest: Addr, port: Port): Bucket {
    var h := match dest
      case V4(a, b, c, d) =>
        var ip := a as bv32 | (b as bv32 << 8) | (c as bv32 << 16) | (d as bv32 << 24);
        (ip * 2654435761) ^ (port as bv32 * 40503)
      case V6(bytes) => FoldV6(port as bv32 * 40503, bytes);
    (h % 4096) as nat
  }

  function Slot(key: Key): (b: nat)
    ensures b < SIZE
  { key.port % SIZE }

  // ------------------------------------------------------------------ chains as sequences

  function First(chain: seq<Node>): Node? { if chain == [] then null else chain[0] }

  /** What follows position i. */
  function Succ(chain: seq<Node>, i: nat): Node? { if i + 1 < |chain| then chain[i + 1] else null }

  ghost predicate Distinct(chain: seq<Node>) {
    forall i, j :: 0 <= i < j < |chain| ==> chain[i] != chain[j]
  }

  function Cut(chain: seq<Node>, i: nat): seq<Node>
    requires i < |chain|
  { chain[..i] + chain[i + 1..] }

  lemma CutMembers(chain: seq<Node>, i: nat)
    requires i < |chain| && Distinct(chain)
    ensures Distinct(Cut(chain, i))
    ensures forall n :: n in Cut(chain, i) <==> n in chain && n != chain[i]
  {
    forall n ensures n in Cut(chain, i) <==> n in chain && n != chain[i] {
      if n in chain && n != chain[i] {
        var k :| 0 <= k < |chain| && chain[k] == n;
        assert Cut(chain, i)[if k < i then k else k - 1] == n;
      }
    }
  }

  lemma CutSucc(chain: seq<Node>, i: nat, k: nat)
    requires i < |chain| && k < |chain| - 1
    ensures Cut(chain, i)[k] == chain[if k < i then k else k + 1]
    ensures Succ(Cut(chain, i), k) ==
            if k + 1 == i then Succ(chain, i) else Succ(chain, if k < i then k else k + 1)
  {
  }

  lemma CutAt(chain: seq<Node>, i: nat)
    requires i < |chain|
    ensures |Cut(chain, i)| == |chain| - 1
    ensures i > 0 ==> Cut(chain, i)[i - 1] == chain[i - 1]
    ensures i < |chain| - 1 ==> Cut(chain, i)[i] == chain[i + 1]
  {
  }

  /** The forward table. */
  class Forward {
    const heads: array<Node?>
    ghost var chains: seq<seq<Node>>
    ghost var nodes: set<Node>

    ghost predicate ChainOk(b: nat)
      requires b < |chains| && b < heads.Length
      reads this, heads, nodes`next
    {
      && Distinct(chains[b])
      && (forall n :: n in chains[b] ==> n in nodes && Slot(n.key) == b)
      && heads[b] == First(chains[b])
      && (forall i :: 0 <= i < |chains[b]| ==>
            chains[b][i].next == Succ(chains[b], i))
    }

    ghost predicate Valid()
      reads this, heads, nodes`next
    {
      && heads.Length == SIZE == |chains|
      && (forall b :: 0 <= b < SIZE ==> ChainOk(b))
      && (forall n :: n in nodes ==> n in chains[Slot(n.key)])
    }

    constructor ()
      ensures Valid() && nodes == {} && fresh(heads)
    {
      heads := new Node?[SIZE](_ => null);
      chains := seq(SIZE, _ => []);
      nodes := {};
    }

    /** Walk a bucket to the node with this key; `prev` is its predecessor, `i` its position. */
    method Lookup(key: Key) returns (prev: Node?, cur: Node?, ghost i: nat)
      requires Valid()
      ensures cur == null ==> forall n :: n in nodes ==> n.key != key
      ensures cur != null ==> cur in nodes && cur.key == key && i < |chains[Slot(key)]| && chains[Slot(key)][i] == cur
      ensures cur != null ==> prev == if i == 0 then null else chains[Slot(key)][i - 1]
    {
      var b := Slot(key);
      assert ChainOk(b);
      prev, cur, i := null, heads[b], 0;
      while cur != null && cur.key != key
        invariant i <= |chains[b]|
        invariant cur == if i < |chains[b]| then chains[b][i] else null
        invariant prev == if i == 0 then null else chains[b][i - 1]
        invariant forall k :: 0 <= k < i ==> chains[b][k].key != key
        decreases |chains[b]| - i
      {
        prev, cur, i := cur, cur.next, i + 1;
      }
      if cur == null {
        forall n | n in nodes ensures n.key != key {
          assert n in chains[Slot(n.key)];
        }
      }
    }

    method Push(n: Node)
      requires Valid() && n !in nodes
      modifies this, heads, n`next
      ensures Valid() && nodes == old(nodes) + {n}
      ensures chains == old(chains)[Slot(n.key) := [n] + old(chains)[Slot(n.key)]]
    {
      var b := Slot(n.key);
      assert ChainOk(b);
      n.next := heads[b];
      heads[b] := n;
      nodes := nodes + {n};
      chains := chains[b := [n] + chains[b]];
      forall c | 0 <= c < SIZE ensures ChainOk(c) {
        assert old(ChainOk(c));
      }
    }

    method Unlink(prev: Node?, cur: Node, ghost i: nat)
      requires Valid() && cur in nodes && i < |chains[Slot(cur.key)]| && chains[Slot(cur.key)][i] == cur
      requires prev == if i == 0 then null else chains[Slot(cur.key)][i - 1]
      modifies this, heads, nodes`next
      ensures Valid() && nodes == old(nodes) - {cur}
      ensures chains == old(chains)[Slot(cur.key) := Cut(old(chains)[Slot(cur.key)], i)]
      ensures cur.next == old(cur.next)
    {
      var b := Slot(cur.key);
      assert ChainOk(b);
      if prev == null {
        heads[b] := cur.next;
      } else {
        prev.next := cur.next;
      }
      nodes := nodes - {cur};
      chains := chains[b := Cut(chains[b], i)];
      Unlinked(prev, cur, i);
    }

    twostate lemma Unlinked(new prev: Node?, cur: Node, new i: nat)
      requires old(Valid()) && cur in old(nodes)
      requires i < |old(chains)[Slot(cur.key)]| && old(chains)[Slot(cur.key)][i] == cur
      requires prev == if i == 0 then null else old(chains)[Slot(cur.key)][i - 1]
      requires nodes == old(nodes) - {cur}
      requires chains == old(chains)[Slot(cur.key) := Cut(old(chains)[Slot(cur.key)], i)]
      requires forall c :: 0 <= c < SIZE ==>
                 heads[c] == if c == Slot(cur.key) && prev == null then old(cur.next) else old(heads[c])
      requires forall m :: m in old(nodes) ==> m.next == if m == prev then old(cur.next) else old(m.next)
      ensures Valid()
    {
      var b := Slot(cur.key);
      var chain := old(chains)[b];
      assert old(ChainOk(b));
      CutMembers(chain, i);
      assert ChainOk(b) by {
        forall k | 0 <= k < |chains[b]| ensures chains[b][k].next == Succ(chains[b], k) {
          CutSucc(chain, i, k);
        }
      }
      forall c | 0 <= c < SIZE && c != b ensures ChainOk(c) {
        assert old(ChainOk(c));
      }
      forall m | m in nodes ensures m in chains[Slot(m.key)] {
        assert m in old(chains)[Slot(m.key)];
      }
    }
  }

  /**
   The reverse table; a node remembers the bucket it is linked in. Nothing depends on how `hash`
   spreads destinations over buckets; the program uses RevHash.
   */
  class Reverse {
    const hash: (Addr, Port) -> Bucket
    const heads: array<Node?>
    ghost var chains: seq<seq<Node>>
    ghost var nodes: set<Node>

    ghost predicate ChainOk(b: nat)
      requires b < |chains| && b < heads.Length
      reads this, heads, nodes`revNext, nodes`revBucket
    {
      && Distinct(chains[b])
      && (forall n :: n in chains[b] ==> n in nodes && n.revBucket == b)
      && heads[b] == First(chains[b])
      && (forall i :: 0 <= i < |chains[b]| ==>
            chains[b][i].revNext == Succ(chains[b], i))
    }

    ghost predicate Valid()
      reads this, heads, nodes`revNext, nodes`revBucket
    {
      && heads.Length == SIZE == |chains|
      && (forall b :: 0 <= b < SIZE ==> ChainOk(b))
      && (forall n :: n in nodes ==> n.revBucket < SIZE && n in chains[n.revBucket])
    }

    constructor (hash: (Addr, Port) -> Bucket)
      ensures Valid() && nodes == {} && fresh(heads) && this.hash == hash
    {
      this.hash := hash;
      heads := new Node?[SIZE](_ => null);
      chains := seq(SIZE, _ => []);
      nodes := {};
    }

    /** rev_insert */
    method Insert(n: Node)
      requires Valid() && n !in nodes
      modifies this, heads, n`revNext, n`revBucket, n`inRev
      ensures Valid() && nodes == old(nodes) + {n}
      ensures n.inRev && n.revBucket == hash(n.entry.dest, n.entry.destPort)
      ensures chains == old(chains)[n.revBucket := [n] + old(chains)[n.revBucket]]
    {
      var b := hash(n.entry.dest, n.entry.destPort);
      assert ChainOk(b);
      n.revBucket := b;
      n.revNext := heads[b];
      heads[b] := n;
      n.inRev := true;
      nodes := nodes + {n};
      chains := chains[b := [n] + chains[b]];
      forall c | 0 <= c < SIZE ensures ChainOk(c) {
        assert old(ChainOk(c));
      }
      forall m | m in nodes ensures m.revBucket < SIZE && m in chains[m.revBucket] {
        assert m != n ==> m in old(chains)[m.revBucket];
      }
    }

    /** The node before n in its bucket. */
    method Before(n: Node) returns (prev: Node?, ghost i: nat)
      requires Valid() && n in nodes
      ensures i < |chains[n.revBucket]| && chains[n.revBucket][i] == n
      ensures prev == if i == 0 then null else chains[n.revBucket][i - 1]
    {
      var b := n.revBucket;
      assert n in chains[b] && ChainOk(b);
      var cur: Node? := heads[b];
      prev, i := null, 0;
      while cur != n
        invariant i < |chains[b]| && cur == chains[b][i]
        invariant n in chains[b][i..]
        invariant prev == if i == 0 then null else chains[b][i - 1]
        decreases |chains[b]| - i
      {
        prev, cur, i := cur, cur.revNext, i + 1;
      }
    }

    method Splice(prev: Node?, n: Node, ghost i: nat)
      requires Valid() && n in nodes && i < |chains[n.revBucket]| && chains[n.revBucket][i] == n
      requires prev == if i == 0 then null else chains[n.revBucket][i - 1]
      modifies this, heads, nodes`revNext
      ensures Valid() && nodes == old(nodes) - {n}
    {
      var b := n.revBucket;
      assert ChainOk(b);
      ghost var chain := chains[b];
      if prev == null {
        heads[b] := n.revNext;
      } else {
        prev.revNext := n.revNext;
      }
      nodes := nodes - {n};
      chains := chains[b := Cut(chain, i)];
      Spliced(prev, n, i);
    }

    twostate lemma Spliced(new prev: Node?, n: Node, new i: nat)
      requires old(Valid()) && n in old(nodes) && old(n.revBucket) == n.revBucket
      requires i < |old(chains)[n.revBucket]| && old(chains)[n.revBucket][i] == n
      requires prev == if i == 0 then null else old(chains)[n.revBucket][i - 1]
      requires nodes == old(nodes) - {n}
      requires chains == old(chains)[n.revBucket := Cut(old(chains)[n.revBucket], i)]
      requires forall c :: 0 <= c < SIZE && (c != n.revBucket || prev != null) ==> heads[c] == old(heads[c])
      requires prev == null ==> heads[n.revBucket] == old(n.revNext)
      requires forall m :: m in old(nodes) ==>
                 m.revBucket == old(m.revBucket) && m.revNext == if m == prev then old(n.revNext) else old(m.revNext)
      ensures Valid()
    {
      var b := n.revBucket;
      assert old(ChainOk(b));
      CutMembers(old(chains)[b], i);
      SplicedBucket(prev, n, i);
      forall c | 0 <= c < SIZE && c != b ensures ChainOk(c) {
        assert old(ChainOk(c));
      }
      forall m | m in nodes ensures m in chains[m.revBucket] {
        assert m in old(chains)[m.revBucket];
      }
    }

    twostate lemma SplicedBucket(new prev: Node?, n: Node, new i: nat)
      requires n in old(nodes) && old(n.revBucket) == n.revBucket < |old(chains)| == |chains| == heads.Length
      requires old(ChainOk(n.revBucket))
      requires i < |old(chains)[n.revBucket]| && old(chains)[n.revBucket][i] == n
      requires prev == if i == 0 then null else old(chains)[n.revBucket][i - 1]
      requires nodes == old(nodes) - {n}
      requires chains[n.revBucket] == Cut(old(chains)[n.revBucket], i)
      requires heads[n.revBucket] == if prev == null then old(n.revNext) else old(heads[n.revBucket])
      requires forall m :: m in old(nodes) ==>
                 m.revBucket == old(m.revBucket) && m.revNext == if m == prev then old(n.revNext) else old(m.revNext)
      ensures ChainOk(n.revBucket)
    {
      var b := n.revBucket;
      var chain := old(chains)[b];
      CutMembers(chain, i);
      forall k | 0 <= k < |chains[b]| ensures chains[b][k].revNext == Succ(chains[b], k) {
        CutSucc(chain, i, k);
      }
    }

    /** rev_unlink: find the node in the bucket it remembers and splice it out. */
    method Unlink(n: Node)
      requires Valid() && (n.inRev <==> n in nodes)
      modifies this, heads, nodes`revNext, n`revNext, n`inRev
      ensures Valid() && nodes == old(nodes) - {n} && !n.inRev
    {
      if n.inRev {
        ghost var i;
        var prev;
        prev, i := Before(n);
        Splice(prev, n, i);
        n.inRev := false;
        n.revNext := null;
      }
    }
  }
}
