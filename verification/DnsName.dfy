/**
 Decoding a possibly compressed domain name (section 4.1.4 of RFC 1035) into a fixed buffer.
 */
module DnsName {
  import opened Basics

  type Label = seq<byte>

  const DOT: byte := 46
  const MAX_JUMPS: nat := 10

  /** The 14-bit offset of a compression pointer. */
  function Target(msg: seq<byte>, pos: nat): nat
    requires pos + 1 < |msg|
  { (msg[pos] as int % 64) * 256 + msg[pos + 1] as int }

  /** At pos the message spells these labels, following exactly `ptrs` compression pointers. */
  ghost predicate Encodes(msg: seq<byte>, pos: nat, labels: seq<Label>, ptrs: nat)
    decreases ptrs, |labels|
  {
    && pos < |msg|
    && if msg[pos] == 0 then labels == [] && ptrs == 0
       else if msg[pos] >= 192 then pos + 1 < |msg| && ptrs > 0 && Encodes(msg, Target(msg, pos), labels, ptrs - 1)
       else && labels != [] && pos + 1 + msg[pos] <= |msg| && labels[0] == msg[pos + 1..pos + 1 + msg[pos]]
            && Encodes(msg, pos + 1 + msg[pos], labels[1..], ptrs)
  }

  /** The labels joined by dots. */
  function Join(labels: seq<Label>): seq<byte> {
    if labels == [] then [] else if |labels| == 1 then labels[0] else labels[0] + [DOT] + Join(labels[1..])
  }

  /** Length of the dotted text after one more label. */
  function Longer(out: nat, len: nat): nat { (if out > 0 then out + 1 else out) + len }

  /** Every label passes the room check when `out` bytes are already written. */
  predicate Fits(out: nat, labels: seq<Label>, room: nat)
    decreases |labels|
  {
    labels == [] || (out + |labels[0]| + 2 < room && Fits(Longer(out, |labels[0]|), labels[1..], room))
  }

  /** Where the name ends in place: after its terminator or its first pointer. */
  function EndOf(msg: seq<byte>, pos: nat): nat
    decreases |msg| - pos
  {
    if pos >= |msg| then pos
    else if msg[pos] == 0 then pos + 1
    else if msg[pos] >= 192 then pos + 2
    else EndOf(msg, pos + 1 + msg[pos])
  }

  function Cons(l: Label, rest: Option<seq<Label>>): Option<seq<Label>> {
    match rest case None => None case Some(ls) => Some([l] + ls)
  }

  /** The decoder's walk, with `jumps` pointers left to follow and `out` bytes already written. */
  function Walk(msg: seq<byte>, pos: nat, jumps: nat, out: nat, room: nat): Option<seq<Label>>
    decreases jumps, |msg| - pos
  {
    if pos >= |msg| then None
    else if msg[pos] == 0 then Some([])
    else if msg[pos] >= 192 then
      if pos + 1 >= |msg| || jumps == 0 then None else Walk(msg, Target(msg, pos), jumps - 1, out, room)
    else
      var len := msg[pos];
      if pos + 1 + len > |msg| || out + len + 2 >= room then None
      else Cons(msg[pos + 1..pos + 1 + len], Walk(msg, pos + 1 + len, jumps, Longer(out, len), room))
  }

  lemma {:induction false} WalkSound(msg: seq<byte>, pos: nat, jumps: nat, out: nat, room: nat) returns (ptrs: nat)
    requires Walk(msg, pos, jumps, out, room).Some?
    ensures var labels := Walk(msg, pos, jumps, out, room).value;
            ptrs <= jumps && Encodes(msg, pos, labels, ptrs) && Fits(out, labels, room)
    decreases jumps, |msg| - pos
  {
    if msg[pos] == 0 {
      ptrs := 0;
    } else if msg[pos] >= 192 {
      ptrs := WalkSound(msg, Target(msg, pos), jumps - 1, out, room);
      ptrs := ptrs + 1;
    } else {
      var len := msg[pos];
      var rest := Walk(msg, pos + 1 + len, jumps, Longer(out, len), room).value;
      ptrs := WalkSound(msg, pos + 1 + len, jumps, Longer(out, len), room);
      assert ([msg[pos + 1..pos + 1 + len]] + rest)[1..] == rest;
    }
  }

  lemma {:induction false} WalkComplete(msg: seq<byte>, pos: nat, jumps: nat, out: nat, room: nat, labels: seq<Label>, ptrs: nat)
    requires ptrs <= jumps && Encodes(msg, pos, labels, ptrs) && Fits(out, labels, room)
    ensures Walk(msg, pos, jumps, out, room) == Some(labels)
    decreases ptrs, |labels|
  {
    if msg[pos] == 0 {
    } else if msg[pos] >= 192 {
      WalkComplete(msg, Target(msg, pos), jumps - 1, out, room, labels, ptrs - 1);
    } else {
      WalkComplete(msg, pos + 1 + msg[pos], jumps, Longer(out, msg[pos]), room, labels[1..], ptrs);
      assert labels == [labels[0]] + labels[1..];
    }
  }

  /** At pos the message spells these labels with at most ten pointers. */
  ghost predicate Spells(msg: seq<byte>, pos: nat, labels: seq<Label>) {
    exists ptrs: nat :: ptrs <= MAX_JUMPS && Encodes(msg, pos, labels, ptrs)
  }

  /** The decoder accepts exactly the names with at most ten pointers whose dotted form fits. */
  lemma WalkIff(msg: seq<byte>, pos: nat, room: nat, labels: seq<Label>)
    ensures Walk(msg, pos, MAX_JUMPS, 0, room) == Some(labels) <==> Spells(msg, pos, labels) && Fits(0, labels, room)
  {
    if Walk(msg, pos, MAX_JUMPS, 0, room) == Some(labels) {
      var ptrs := WalkSound(msg, pos, MAX_JUMPS, 0, room);
      assert Spells(msg, pos, labels);
    }
    if Spells(msg, pos, labels) && Fits(0, labels, room) {
      var ptrs: nat :| ptrs <= MAX_JUMPS && Encodes(msg, pos, labels, ptrs);
      WalkComplete(msg, pos, MAX_JUMPS, 0, room, labels, ptrs);
    }
  }

  lemma {:induction false} WalkEnds(msg: seq<byte>, pos: nat, jumps: nat, out: nat, room: nat)
    requires Walk(msg, pos, jumps, out, room).Some?
    ensures pos < EndOf(msg, pos) <= |msg|
    decreases |msg| - pos
  {
    if msg[pos] != 0 && msg[pos] < 192 {
      WalkEnds(msg, pos + 1 + msg[pos], jumps, Longer(out, msg[pos]), room);
    }
  }

  // ------------------------------------------------------------------ section 4.1.4 to the letter

  /**
   What section 4.1.4 allows: length octets start with the bits 00, so labels have 1 to 63 octets (the
   prefixes 01 and 10 are reserved), and a pointer refers to a prior occurrence, so it goes back.
   */
  ghost predicate Strict(msg: seq<byte>, pos: nat, labels: seq<Label>, ptrs: nat)
    decreases ptrs, |labels|
  {
    && pos < |msg|
    && if msg[pos] == 0 then labels == [] && ptrs == 0
       else if msg[pos] >= 192 then
         pos + 1 < |msg| && ptrs > 0 && Target(msg, pos) < pos && Strict(msg, Target(msg, pos), labels, ptrs - 1)
       else && msg[pos] < 64 && labels != [] && pos + 1 + msg[pos] <= |msg| && labels[0] == msg[pos + 1..pos + 1 + msg[pos]]
            && Strict(msg, pos + 1 + msg[pos], labels[1..], ptrs)
  }

  ghost predicate StrictlySpells(msg: seq<byte>, pos: nat, labels: seq<Label>) {
    exists ptrs: nat :: ptrs <= MAX_JUMPS && Strict(msg, pos, labels, ptrs)
  }

  /** Following the name from pos meets neither a reserved length octet nor a pointer that does not go back. */
  predicate Regular(msg: seq<byte>, pos: nat, jumps: nat)
    decreases jumps, |msg| - pos
  {
    if pos >= |msg| || msg[pos] == 0 then true
    else if msg[pos] >= 192 then
      pos + 1 >= |msg| || jumps == 0 || (Target(msg, pos) < pos && Regular(msg, Target(msg, pos), jumps - 1))
    else msg[pos] < 64 && Regular(msg, pos + 1 + msg[pos], jumps)
  }

  lemma {:induction false} StrictIs(msg: seq<byte>, pos: nat, labels: seq<Label>, ptrs: nat, jumps: nat)
    requires ptrs <= jumps
    ensures Strict(msg, pos, labels, ptrs) <==> Encodes(msg, pos, labels, ptrs) && Regular(msg, pos, jumps)
    decreases ptrs, |labels|
  {
    if pos >= |msg| || msg[pos] == 0 {
    } else if msg[pos] >= 192 {
      if pos + 1 < |msg| && ptrs > 0 {
        StrictIs(msg, Target(msg, pos), labels, ptrs - 1, jumps - 1);
      }
    } else if labels != [] {
      StrictIs(msg, pos + 1 + msg[pos], labels[1..], ptrs, jumps);
    }
  }

  /**
   The decoder goes beyond section 4.1.4. What it accepts is the expansion defined there exactly if the
   walk is regular, and every such expansion with at most ten pointers that fits is accepted.
   */
  lemma StrictIff(msg: seq<byte>, pos: nat, room: nat, labels: seq<Label>)
    ensures Walk(msg, pos, MAX_JUMPS, 0, room) == Some(labels) && Regular(msg, pos, MAX_JUMPS) <==>
            StrictlySpells(msg, pos, labels) && Fits(0, labels, room)
    ensures Walk(msg, pos, MAX_JUMPS, 0, room) == Some(labels) ==>
              (StrictlySpells(msg, pos, labels) <==> Regular(msg, pos, MAX_JUMPS))
  {
    WalkIff(msg, pos, room, labels);
    if Spells(msg, pos, labels) && Regular(msg, pos, MAX_JUMPS) {
      var ptrs: nat :| ptrs <= MAX_JUMPS && Encodes(msg, pos, labels, ptrs);
      StrictIs(msg, pos, labels, ptrs, MAX_JUMPS);
    }
    if StrictlySpells(msg, pos, labels) {
      var ptrs: nat :| ptrs <= MAX_JUMPS && Strict(msg, pos, labels, ptrs);
      StrictIs(msg, pos, labels, ptrs, MAX_JUMPS);
      assert Spells(msg, pos, labels);
    }
  }

  /** Following the name from pos meets a reserved length octet. */
  predicate MeetsReserved(msg: seq<byte>, pos: nat, jumps: nat)
    decreases jumps, |msg| - pos
  {
    && pos < |msg| && msg[pos] != 0
    && if msg[pos] >= 192 then pos + 1 < |msg| && jumps > 0 && MeetsReserved(msg, Target(msg, pos), jumps - 1)
       else msg[pos] >= 64 || MeetsReserved(msg, pos + 1 + msg[pos], jumps)
  }

  predicate Short(labels: seq<Label>) { forall i :: 0 <= i < |labels| ==> |labels[i]| <= 63 }

  /** A caller can tell from the result: an over-long label is returned exactly if a reserved octet was met. */
  lemma {:induction false} LabelsShort(msg: seq<byte>, pos: nat, jumps: nat, out: nat, room: nat)
    requires Walk(msg, pos, jumps, out, room).Some?
    ensures Short(Walk(msg, pos, jumps, out, room).value) <==> !MeetsReserved(msg, pos, jumps)
    decreases jumps, |msg| - pos
  {
    if msg[pos] == 0 {
    } else if msg[pos] >= 192 {
      LabelsShort(msg, Target(msg, pos), jumps - 1, out, room);
    } else {
      var len := msg[pos];
      var rest := Walk(msg, pos + 1 + len, jumps, Longer(out, len), room).value;
      LabelsShort(msg, pos + 1 + len, jumps, Longer(out, len), room);
      ShortCons(msg[pos + 1..pos + 1 + len], rest);
    }
  }

  lemma ShortCons(l: Label, rest: seq<Label>)
    ensures Short([l] + rest) <==> |l| <= 63 && Short(rest)
  {
    if Short([l] + rest) {
      assert ([l] + rest)[0] == l;
      forall i | 0 <= i < |rest| ensures |rest[i]| <= 63 { assert ([l] + rest)[i + 1] == rest[i]; }
    }
  }

  lemma OneLabel(msg: seq<byte>, pos: nat, jumps: nat, text: Label)
    requires pos + 1 + |text| < |msg| && 1 <= |text| < 192 && msg[pos] == |text|
    requires msg[pos + 1..pos + 1 + |text|] == text && msg[pos + 1 + |text|] == 0
    ensures Walk(msg, pos, jumps, 0, 256) == Some([text])
  {
    assert Walk(msg, pos + 1 + |text|, jumps, |text|, 256) == Some([]);
    assert [text] + [] == [text];
  }

  /** An octet of 64 to 191 is read as the length of a label that no legal name has. */
  lemma ReservedAccepted(len: byte, text: Label)
    requires 64 <= len < 192 && |text| == len
    ensures var msg := [len] + text + [0];
            Walk(msg, 0, MAX_JUMPS, 0, 256) == Some([text]) && !StrictlySpells(msg, 0, [text])
  {
    var msg := [len] + text + [0];
    assert msg[1..1 + len] == text && msg[1 + len] == 0;
    OneLabel(msg, 0, MAX_JUMPS, text);
    StrictIff(msg, 0, 256, [text]);
  }

  /** A pointer may go forward. */
  lemma ForwardAccepted(text: Label)
    requires 1 <= |text| <= 63
    ensures var msg := [192, 2, |text|] + text + [0];
            Walk(msg, 0, MAX_JUMPS, 0, 256) == Some([text]) && !StrictlySpells(msg, 0, [text])
  {
    var msg := [192, 2, |text|] + text + [0];
    assert Target(msg, 0) == 2 && msg[3..3 + |text|] == text && msg[3 + |text|] == 0;
    OneLabel(msg, 2, MAX_JUMPS - 1, text);
    StrictIff(msg, 0, 256, [text]);
  }

  // ------------------------------------------------------------------ limits of section 2.3.4

  function WireLength(labels: seq<Label>): nat {
    if labels == [] then 1 else 1 + |labels[0]| + WireLength(labels[1..])
  }

  /** Labels of 1 to 63 octets, 255 octets in all. */
  predicate Legal(labels: seq<Label>) {
    && (forall i :: 0 <= i < |labels| ==> 1 <= |labels[i]| <= 63)
    && WireLength(labels) <= 255
  }

  lemma {:induction false} LegalFits(labels: seq<Label>, out: nat)
    requires out + WireLength(labels) <= (if out > 0 then 254 else 255)
    ensures Fits(out, labels, 256)
    decreases |labels|
  {
    if labels == [] {
    } else if out + |labels[0]| + 2 < 256 {
      if Longer(out, |labels[0]|) == 0 {
        LegalFits(labels[1..], 0);
      } else {
        LegalFits(labels[1..], Longer(out, |labels[0]|));
      }
    }
  }

  /** Every legal name with at most ten pointers decodes into a 256-byte buffer. */
  lemma LegalDecodes(msg: seq<byte>, pos: nat, labels: seq<Label>, ptrs: nat)
    requires Encodes(msg, pos, labels, ptrs) && ptrs <= MAX_JUMPS && Legal(labels)
    ensures Walk(msg, pos, MAX_JUMPS, 0, 256) == Some(labels)
  {
    LegalFits(labels, 0);
    WalkComplete(msg, pos, MAX_JUMPS, 0, 256, labels, ptrs);
  }

  // ------------------------------------------------------------------ the parser

  lemma {:induction false} JoinSnoc(labels: seq<Label>, l: Label)
    requires forall i :: 0 <= i < |labels| ==> labels[i] != []
    ensures labels == [] ==> Join(labels + [l]) == l
    ensures labels != [] ==> Join(labels) != [] && Join(labels + [l]) == Join(labels) + [DOT] + l
  {
    if labels == [] {
      assert labels + [l] == [l];
    } else {
      assert (labels + [l])[1..] == labels[1..] + [l];
      JoinSnoc(labels[1..], l);
      if |labels| > 1 {
        assert Join(labels + [l]) == labels[0] + [DOT] + (Join(labels[1..]) + [DOT] + l);
      }
    }
  }

  /** memcpy(&dst[out], &msg[pos], len) */
  method CopyLabel(msg: seq<byte>, pos: nat, len: nat, dst: array<byte>, out: nat)
    requires pos + len <= |msg| && out + len <= dst.Length
    modifies dst
    ensures dst[..out + len] == old(dst[..out]) + msg[pos..pos + len]
  {
    for k := 0 to len
      invariant dst[..out + k] == old(dst[..out]) + msg[pos..pos + k]
    {
      dst[out + k] := msg[pos + k];
      assert dst[..out + k + 1] == dst[..out + k] + [msg[pos + k]];
    }
  }

  function Prefixed(done: seq<Label>, rest: Option<seq<Label>>): Option<seq<Label>> {
    match rest case None => None case Some(ls) => Some(done + ls)
  }

  /** A label goes to the buffer, after a dot unless it is the first one. */
  method PutLabel(msg: seq<byte>, pos: nat, len: nat, dst: array<byte>, out0: nat, ghost done: seq<Label>) returns (out: nat)
    requires pos + len <= |msg| && out0 + len + 2 < dst.Length && len > 0
    requires (forall i :: 0 <= i < |done| ==> done[i] != []) && dst[..out0] == Join(done)
    modifies dst
    ensures out == Longer(out0, len) < dst.Length && dst[..out] == Join(done + [msg[pos..pos + len]])
  {
    out := out0;
    ghost var before := dst[..out0];
    JoinSnoc(done, msg[pos..pos + len]);
    if out > 0 {
      dst[out] := DOT;
      assert dst[..out + 1] == before + [DOT];
      out := out + 1;
    }
    CopyLabel(msg, pos, len, dst, out);
    out := out + len;
  }

  /** The parser stands at pos, has jumped so often, written `out` bytes for the labels `done`; `end` is where a jump left. */
  ghost predicate Reading(msg: seq<byte>, offset: nat, room: nat, pos: nat, out: nat, jumps: nat,
                          done: seq<Label>, jumped: bool, end: nat) {
    && jumps <= MAX_JUMPS && (forall i :: 0 <= i < |done| ==> done[i] != [])
    && Walk(msg, offset, MAX_JUMPS, 0, room) == Prefixed(done, Walk(msg, pos, MAX_JUMPS - jumps, out, room))
    && EndOf(msg, offset) == if jumped then end else EndOf(msg, pos)
  }

  lemma ReadPointer(msg: seq<byte>, offset: nat, room: nat, pos: nat, out: nat, jumps: nat,
                    done: seq<Label>, jumped: bool, end: nat)
    requires Reading(msg, offset, room, pos, out, jumps, done, jumped, end)
    requires pos + 1 < |msg| && msg[pos] >= 192 && jumps < MAX_JUMPS
    ensures Reading(msg, offset, room, Target(msg, pos), out, jumps + 1, done, true, if jumped then end else pos + 2)
  {
  }

  lemma ReadLabel(msg: seq<byte>, offset: nat, room: nat, pos: nat, out: nat, jumps: nat,
                  done: seq<Label>, jumped: bool, end: nat, len: nat)
    requires Reading(msg, offset, room, pos, out, jumps, done, jumped, end)
    requires pos < |msg| && 0 < msg[pos] < 192 && len == msg[pos] && pos + 1 + len <= |msg| && out + len + 2 < room
    ensures Reading(msg, offset, room, pos + 1 + len, Longer(out, len), jumps,
                    done + [msg[pos + 1..pos + 1 + len]], jumped, end)
  {
    PrefixedCons(done, msg[pos + 1..pos + 1 + len], Walk(msg, pos + 1 + len, MAX_JUMPS - jumps, Longer(out, len), room));
  }

  lemma ReadEnd(msg: seq<byte>, offset: nat, room: nat, pos: nat, out: nat, jumps: nat,
                done: seq<Label>, jumped: bool, end: nat)
    requires Reading(msg, offset, room, pos, out, jumps, done, jumped, end) && pos < |msg| && msg[pos] == 0
    ensures Walk(msg, offset, MAX_JUMPS, 0, room) == Some(done)
    ensures EndOf(msg, offset) == (if jumped then end else pos + 1) && offset < EndOf(msg, offset) <= |msg|
  {
    assert done + [] == done;
    WalkEnds(msg, offset, MAX_JUMPS, 0, room);
  }

  /** The places at which the parser gives up. */
  lemma ReadFails(msg: seq<byte>, offset: nat, room: nat, pos: nat, out: nat, jumps: nat,
                  done: seq<Label>, jumped: bool, end: nat)
    requires Reading(msg, offset, room, pos, out, jumps, done, jumped, end)
    requires || pos >= |msg|
             || (msg[pos] >= 192 && (pos + 1 >= |msg| || jumps == MAX_JUMPS))
             || (0 < msg[pos] < 192 && (pos + 1 + msg[pos] > |msg| || out + msg[pos] + 2 >= room))
    ensures Walk(msg, offset, MAX_JUMPS, 0, room) == None
  {
  }

  /**
   dns_parse_name. It terminates on every message, stays inside message and buffer, and on success
   leaves the dotted name, a terminator and the offset after the name.
   */
  method ParseName(msg: seq<byte>, offset: nat, dst: array<byte>) returns (ok: bool, next: nat, ghost n: nat)
    requires dst.Length > 0
    modifies dst
    ensures ok == Walk(msg, offset, MAX_JUMPS, 0, dst.Length).Some?
    ensures ok ==> n < dst.Length && dst[..n] == Join(Walk(msg, offset, MAX_JUMPS, 0, dst.Length).value) && dst[n] == 0
    ensures ok ==> next == EndOf(msg, offset) && offset < next <= |msg|
    ensures !ok ==> next == offset
  {
    var pos: nat, out: nat, jumps: nat := offset, 0, 0;
    var jumped, jumpedEnd: nat := false, 0;
    ghost var done: seq<Label>, room := [], dst.Length;
    next, n := offset, 0;
    PrefixedNil(Walk(msg, offset, MAX_JUMPS, 0, room));
    while pos < |msg|
      invariant out < dst.Length && dst[..out] == Join(done)
      invariant Reading(msg, offset, room, pos, out, jumps, done, jumped, jumpedEnd)
      decreases MAX_JUMPS - jumps, |msg| - pos
    {
      var b := msg[pos];
      if b == 0 {
        dst[out] := 0;
        n := out;
        next := if jumped then jumpedEnd else pos + 1;
        ReadEnd(msg, offset, room, pos, out, jumps, done, jumped, jumpedEnd);
        return true, next, n;
      }
      if b >= 192 {
        if pos + 1 >= |msg| || jumps == MAX_JUMPS {
          ReadFails(msg, offset, room, pos, out, jumps, done, jumped, jumpedEnd);
          return false, offset, 0;
        }
        ReadPointer(msg, offset, room, pos, out, jumps, done, jumped, jumpedEnd);
        if !jumped {
          jumpedEnd := pos + 2;
        }
        jumped := true;
        pos := Target(msg, pos);
        jumps := jumps + 1;
        continue;
      }
      var len := b as int;
      if pos + 1 + len > |msg| || out + len + 2 >= dst.Length {
        ReadFails(msg, offset, room, pos, out, jumps, done, jumped, jumpedEnd);
        return false, offset, 0;
      }
      ReadLabel(msg, offset, room, pos, out, jumps, done, jumped, jumpedEnd, len);
      out := PutLabel(msg, pos + 1, len, dst, out, done);
      done := done + [msg[pos + 1..pos + 1 + len]];
      pos := pos + 1 + len;
    }
    ReadFails(msg, offset, room, pos, out, jumps, done, jumped, jumpedEnd);
    return false, offset, 0;
  }

  lemma PrefixedNil(rest: Option<seq<Label>>)
    ensures Prefixed([], rest) == rest
  {
    if rest.Some? { assert [] + rest.value == rest.value; }
  }

  lemma PrefixedCons(done: seq<Label>, l: Label, rest: Option<seq<Label>>)
    ensures Prefixed(done, Cons(l, rest)) == Prefixed(done + [l], rest)
  {
    if rest.Some? { assert done + ([l] + rest.value) == done + [l] + rest.value; }
  }
}
