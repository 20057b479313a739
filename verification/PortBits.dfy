/**
 The per-port decision bitmaps: two arrays of 2048 words of 32 bits. They denote two sets of ports. The
 program's words are signed; since only the lowest bit of a shifted word is looked at, that makes no
 difference.
 */
module PortBits {
  import opened ConnChains

  const WORDS: nat := 2048

  /** p >> 5 and p & 31 */
  function Word(p: Port): (k: nat)
    ensures k < WORDS
  { p / 32 }

  function Bit(p: Port): bv5 { (p % 32) as bv5 }

  // ------------------------------------------------------------------ one word

  predicate Test(w: bv32, i: bv5) { (w >> i) & 1 == 1 }

  function Mask(i: bv5): bv32 { (1 as bv32) << i }

  function SetBit(w: bv32, i: bv5): bv32 { w | Mask(i) }

  function ClearBit(w: bv32, i: bv5): bv32 { w & !Mask(i) }

  /** Setting a bit changes no other bit. */
  lemma SetTest(w: bv32, i: bv5, j: bv5)
    ensures Test(SetBit(w, i), j) <==> i == j || Test(w, j)
  {
  }

  lemma ClearSelf(w: bv32, i: bv5)
    ensures !Test(ClearBit(w, i), i)
  {
  }

  lemma AndTest(w: bv32, v: bv32, j: bv5)
    ensures Test(w & v, j) <==> Test(w, j) && Test(v, j)
  {
  }

  lemma OtherMask(i: bv5, j: bv5)
    requires i != j
    ensures Test(!Mask(i), j)
  {
  }

  lemma Masked(w: bv32, v: bv32, j: bv5)
    requires Test(v, j)
    ensures Test(w & v, j) <==> Test(w, j)
  {
    AndTest(w, v, j);
  }

  lemma MaskedBy(w: bv32, v: bv32, i: bv5, j: bv5)
    requires i != j && v == !Mask(i)
    ensures Test(w & v, j) <==> Test(w, j)
  {
    OtherMask(i, j);
    Masked(w, v, j);
  }

  /** Neither does clearing one. */
  lemma ClearOther(w: bv32, i: bv5, j: bv5)
    requires i != j
    ensures Test(ClearBit(w, i), j) <==> Test(w, j)
  {
    MaskedBy(w, !Mask(i), i, j);
  }

  lemma SamePort(p: Port, q: Port)
    requires Word(p) == Word(q) && Bit(p) == Bit(q)
    ensures p == q
  {
    SameBit(p % 32, q % 32);
  }

  lemma SameBit(i: nat, j: nat)
    requires i < 32 && j < 32 && i as bv5 == j as bv5
    ensures i == j
  {
    assert (i as bv5) as nat == i;
  }

  // ------------------------------------------------------------------ a bitmap

  predicate Has(ws: seq<bv32>, p: Port)
    requires |ws| == WORDS
  { Test(ws[Word(p)], Bit(p)) }

  /** The ports whose bit is set. */
  ghost function Ports(ws: seq<bv32>): set<Port>
    requires |ws| == WORDS
  { set p: Port | 0 <= p < 65536 && Has(ws, p) }

  function With(ws: seq<bv32>, p: Port): seq<bv32>
    requires |ws| == WORDS
  { ws[Word(p) := SetBit(ws[Word(p)], Bit(p))] }

  function Without(ws: seq<bv32>, p: Port): seq<bv32>
    requires |ws| == WORDS
  { ws[Word(p) := ClearBit(ws[Word(p)], Bit(p))] }

  lemma WithHas(ws: seq<bv32>, p: Port, q: Port)
    requires |ws| == WORDS
    ensures Has(With(ws, p), q) <==> q == p || Has(ws, q)
  {
    SetTest(ws[Word(p)], Bit(p), Bit(q));
    if Word(p) == Word(q) && Bit(p) == Bit(q) { SamePort(p, q); }
  }

  lemma WithoutHas(ws: seq<bv32>, p: Port, q: Port)
    requires |ws| == WORDS
    ensures Has(Without(ws, p), q) <==> q != p && Has(ws, q)
  {
    if Word(p) == Word(q) {
      if Bit(p) == Bit(q) {
        SamePort(p, q);
        ClearSelf(ws[Word(p)], Bit(p));
      } else {
        ClearOther(ws[Word(p)], Bit(p), Bit(q));
      }
    }
  }

  /** Or-ing the mask into the word adds exactly this port. */
  lemma WithPorts(ws: seq<bv32>, p: Port)
    requires |ws| == WORDS
    ensures Ports(With(ws, p)) == Ports(ws) + {p}
  {
    forall q: Port ensures q in Ports(With(ws, p)) <==> q in Ports(ws) + {p} { WithHas(ws, p, q); }
  }

  /** And-ing its complement removes exactly this port. */
  lemma WithoutPorts(ws: seq<bv32>, p: Port)
    requires |ws| == WORDS
    ensures Ports(Without(ws, p)) == Ports(ws) - {p}
  {
    forall q: Port ensures q in Ports(Without(ws, p)) <==> q in Ports(ws) - {p} { WithoutHas(ws, p, q); }
  }

  lemma NoPorts(ws: seq<bv32>)
    requires |ws| == WORDS && forall k :: 0 <= k < WORDS ==> ws[k] == 0
    ensures Ports(ws) == {}
  {
    forall p: Port ensures !Has(ws, p) { ZeroTest(Bit(p)); }
  }

  lemma ZeroTest(i: bv5)
    ensures !Test(0, i)
  {
  }

  /** port_decided_bitmap and port_direct_bitmap. */
  class Decisions {
    const decided: array<bv32>
    const direct: array<bv32>

    ghost predicate Valid() { decided != direct && decided.Length == WORDS == direct.Length }

    ghost function Decided(): set<Port>
      requires Valid()
      reads decided
    { Ports(decided[..]) }

    ghost function Direct(): set<Port>
      requires Valid()
      reads direct
    { Ports(direct[..]) }

    constructor ()
      ensures Valid() && Decided() == {} == Direct() && fresh(decided) && fresh(direct)
    {
      decided := new bv32[WORDS](_ => 0);
      direct := new bv32[WORDS](_ => 0);
      new;
      NoPorts(decided[..]);
      NoPorts(direct[..]);
    }

    /** port_is_decided */
    method IsDecided(p: Port) returns (b: bool)
      requires Valid()
      ensures b <==> p in Decided()
    { b := Test(decided[Word(p)], Bit(p)); }

    /** port_is_direct */
    method IsDirect(p: Port) returns (b: bool)
      requires Valid()
      ensures b <==> p in Direct()
    { b := Test(direct[Word(p)], Bit(p)); }

    /** port_set_decided */
    method SetDecided(p: Port)
      requires Valid()
      modifies decided
      ensures Decided() == old(Decided()) + {p}
    {
      WithPorts(decided[..], p);
      decided[Word(p)] := SetBit(decided[Word(p)], Bit(p));
      assert decided[..] == With(old(decided[..]), p);
    }

    /** port_set_direct */
    method SetDirect(p: Port)
      requires Valid()
      modifies decided, direct
      ensures Decided() == old(Decided()) + {p} && Direct() == old(Direct()) + {p}
    {
      SetDecided(p);
      WithPorts(direct[..], p);
      direct[Word(p)] := SetBit(direct[Word(p)], Bit(p));
      assert direct[..] == With(old(direct[..]), p);
    }

    /** port_clear */
    method Clear(p: Port)
      requires Valid()
      modifies decided, direct
      ensures Decided() == old(Decided()) - {p} && Direct() == old(Direct()) - {p}
    {
      WithoutPorts(decided[..], p);
      WithoutPorts(direct[..], p);
      decided[Word(p)] := ClearBit(decided[Word(p)], Bit(p));
      direct[Word(p)] := ClearBit(direct[Word(p)], Bit(p));
      assert decided[..] == Without(old(decided[..]), p);
      assert direct[..] == Without(old(direct[..]), p);
    }

    /** A policy toggle zeroes both bitmaps word by word. */
    method ClearAll()
      requires Valid()
      modifies decided, direct
      ensures Decided() == {} == Direct()
    {
      for i := 0 to WORDS
        invariant forall k :: 0 <= k < i ==> decided[k] == 0 && direct[k] == 0
      {
        decided[i] := 0;
        direct[i] := 0;
      }
      NoPorts(decided[..]);
      NoPorts(direct[..]);
    }
  }
}
