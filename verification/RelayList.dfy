/**
 The doubly linked live list: linking at the head and splicing out refine a sequence.
 */
module RelayList {
  import opened RelayPool
  import opened RelayInvariant

  lemma LinkFirstKeeps(list: List, c: nat)
    requires ListOk(list) && c !in list.order
    ensures ListOk(LinkFirst(list, c)) && LinkFirst(list, c).order == [c] + list.order
  {
    var list' := LinkFirst(list, c);
    if list.order != [] { assert LinkOk(list, 0); }
    forall j | 0 <= j < |list'.order| ensures LinkOk(list', j) {
      if j > 0 {
        assert list'.order[j] == list.order[j - 1];
        assert LinkOk(list, j - 1);
      }
    }
  }

  lemma {:induction false} WithoutAt(order: seq<nat>, c: nat) returns (i: nat)
    requires c in order && Distinct(order)
    ensures i < |order| && order[i] == c
    ensures Without(order, c) == order[..i] + order[i + 1..]
  {
    if order[0] == c {
      i := 0;
    } else {
      i := WithoutAt(order[1..], c);
      i := i + 1;
      assert order[..i] + order[i + 1..] == [order[0]] + (order[1..][..i - 1] + order[1..][i..]);
    }
  }

  /** What splicing out does to the links of the entry at k. */
  lemma SplicedLink(list: List, c: nat, i: nat, k: nat)
    requires ListOk(list) && i < |list.order| && list.order[i] == c && k < |list.order| && k != i
    ensures var links' := UnlinkConn(list, c).links;
            && list.order[k] in links'
            && links'[list.order[k]].prev ==
               (if k == i + 1 then (if i == 0 then Nil else At(list.order[i - 1]))
                else if k == 0 then Nil else At(list.order[k - 1]))
            && links'[list.order[k]].next ==
               (if k + 1 == i then (if i + 1 < |list.order| then At(list.order[i + 1]) else Nil)
                else if k + 1 < |list.order| then At(list.order[k + 1]) else Nil)
  {
    assert LinkOk(list, i) && LinkOk(list, k);
    if i > 0 { assert LinkOk(list, i - 1); }
    if i + 1 < |list.order| { assert LinkOk(list, i + 1); }
  }

  lemma WithoutMembers(order: seq<nat>, i: nat, rest: seq<nat>)
    requires Distinct(order) && i < |order| && rest == order[..i] + order[i + 1..]
    ensures Distinct(rest) && |rest| == |order| - 1
    ensures forall e :: e in rest <==> e in order && e != order[i]
  {
    forall e ensures e in rest <==> e in order && e != order[i] {
      if e in order && e != order[i] {
        var k :| 0 <= k < |order| && order[k] == e;
        assert rest[if k < i then k else k - 1] == e;
      }
    }
  }

  /** Splicing out removes exactly c and keeps the order of the others. */
  lemma UnlinkKeeps(list: List, c: nat)
    requires ListOk(list) && c in list.order
    ensures ListOk(UnlinkConn(list, c))
    ensures forall e :: e in UnlinkConn(list, c).order <==> e in list.order && e != c
    ensures UnlinkConn(list, c).links.Keys == list.links.Keys
  {
    var i := WithoutAt(list.order, c);
    var list' := UnlinkConn(list, c);
    UnlinkRest(list, c, i);
    WithoutMembers(list.order, i, list'.order);
    forall j | 0 <= j < |list'.order| ensures LinkOk(list', j) {
      RestLink(list, c, i, list', j);
    }
  }

  lemma RestAt(order: seq<nat>, i: nat, rest: seq<nat>, j: nat)
    requires i < |order| && rest == order[..i] + order[i + 1..] && j < |rest|
    ensures rest[j] == order[if j < i then j else j + 1]
  {
  }

  lemma RestLink(list: List, c: nat, i: nat, list': List, j: nat)
    requires ListOk(list) && i < |list.order| && list.order[i] == c
    requires list'.links == UnlinkConn(list, c).links
    requires list'.order == list.order[..i] + list.order[i + 1..] && j < |list'.order|
    ensures LinkOk(list', j)
  {
    SplicedLink(list, c, i, if j < i then j else j + 1);
    RestAt(list.order, i, list'.order, j);
    if j > 0 { RestAt(list.order, i, list'.order, j - 1); }
    if j + 1 < |list'.order| { RestAt(list.order, i, list'.order, j + 1); }
  }

  lemma UnlinkRest(list: List, c: nat, i: nat)
    requires ListOk(list) && i < |list.order| && list.order[i] == c
    requires Without(list.order, c) == list.order[..i] + list.order[i + 1..]
    ensures var list' := UnlinkConn(list, c);
            && !list'.fault && list'.links.Keys == list.links.Keys
            && list'.order == list.order[..i] + list.order[i + 1..]
            && list'.active == list.active - 1 && list'.done == (list'.active == 0)
            && list'.head == (if i > 0 then At(list.order[0]) else if |list.order| > 1 then At(list.order[1]) else Nil)
  {
    assert LinkOk(list, i);
    if i > 0 { assert LinkOk(list, i - 1); }
    if i + 1 < |list.order| { assert LinkOk(list, i + 1); }
  }
}
