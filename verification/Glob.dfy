/**
 The two wildcard matchers: the recursive one of the Windows core and the greedy one of the macOS
 provider, against one declarative language.
 */
module Glob {

  /** '*' stands for any run of characters, everything else for itself. */
  ghost predicate Matches(p: string, t: string)
    decreases |p|
  {
    if p == [] then t == []
    else if p[0] == '*' then exists k :: 0 <= k <= |t| && Matches(p[1..], t[k..])
    else t != [] && p[0] == t[0] && Matches(p[1..], t[1..])
  }

  /** Some suffix of t matches: what a '*' in front of p means. */
  ghost predicate Suffix(p: string, t: string) { exists k :: 0 <= k <= |t| && Matches(p, t[k..]) }

  predicate AllStars(p: string) { forall i :: 0 <= i < |p| ==> p[i] == '*' }

  predicate Plain(p: string) { '*' !in p }

  // ------------------------------------------------------------------ the language

  lemma {:induction false} EmptyText(p: string)
    ensures Matches(p, []) <==> AllStars(p)
    decreases |p|
  {
    if p == [] {
    } else {
      EmptyText(p[1..]);
      assert AllStars(p) <==> p[0] == '*' && AllStars(p[1..]);
      if p[0] == '*' && Matches(p[1..], []) {
        var t: string := [];
        assert t[0..] == t;
      }
    }
  }

  lemma {:induction false} PlainPrefix(seg: string, q: string, t: string)
    requires Plain(seg)
    ensures Matches(seg + q, t) <==> seg <= t && Matches(q, t[|seg|..])
    decreases |seg|
  {
    if seg == [] {
      assert seg + q == q && t[0..] == t;
    } else {
      assert (seg + q)[1..] == seg[1..] + q && (seg + q)[0] == seg[0];
      if t != [] {
        PlainPrefix(seg[1..], q, t[1..]);
        assert t == [t[0]] + t[1..];
        assert seg == [seg[0]] + seg[1..];
        if seg <= t { assert t[1..][|seg[1..]|..] == t[|seg|..]; }
        if seg[0] == t[0] && seg[1..] <= t[1..] {
          assert t[1..][|seg[1..]|..] == t[|seg|..];
          assert seg <= t;
        }
      }
    }
  }

  lemma StarFirst(q: string, t: string)
    ensures Matches(['*'] + q, t) <==> Suffix(q, t)
  {
    assert (['*'] + q)[1..] == q;
  }

  lemma SuffixOfSuffix(p: string, t: string, j: nat)
    requires j <= |t| && Suffix(p, t[j..])
    ensures Suffix(p, t)
  {
    var k :| 0 <= k <= |t[j..]| && Matches(p, t[j..][k..]);
    assert t[j..][k..] == t[j + k..];
  }

  lemma SuffixStep(p: string, t: string)
    requires t != []
    ensures Suffix(p, t) <==> Matches(p, t) || Suffix(p, t[1..])
  {
    if Suffix(p, t) && !Matches(p, t) {
      var k :| 0 <= k <= |t| && Matches(p, t[k..]);
      assert t[0..] == t;
      assert t[1..][k - 1..] == t[k..];
    }
    if Matches(p, t) { assert t[0..] == t; }
    if Suffix(p, t[1..]) { SuffixOfSuffix(p, t, 1); }
  }

  lemma SuffixEmpty(p: string)
    ensures Suffix(p, []) <==> AllStars(p)
  {
    EmptyText(p);
    var t: string := [];
    assert t[0..] == t;
  }

  /** Consecutive stars collapse. */
  lemma StarStar(q: string, t: string)
    ensures Suffix(['*'] + q, t) <==> Suffix(q, t)
  {
    if Suffix(['*'] + q, t) {
      var k :| 0 <= k <= |t| && Matches(['*'] + q, t[k..]);
      StarFirst(q, t[k..]);
      SuffixOfSuffix(q, t, k);
    }
    if Suffix(q, t) {
      StarFirst(q, t);
      assert t[0..] == t;
    }
  }

  /** Once a literal segment has matched, an earlier star never needs to be revisited. */
  lemma LeftmostSegment(seg: string, q: string, rest: string)
    requires Plain(seg)
    ensures Suffix(seg + (['*'] + q), seg + rest) <==> Suffix(q, rest)
  {
    var t := seg + rest;
    if Suffix(seg + (['*'] + q), t) {
      var k :| 0 <= k <= |t| && Matches(seg + (['*'] + q), t[k..]);
      PlainPrefix(seg, ['*'] + q, t[k..]);
      StarFirst(q, t[k..][|seg|..]);
      assert t[k..][|seg|..] == rest[k..];
      SuffixOfSuffix(q, rest, k);
    }
    if Suffix(q, rest) {
      StarFirst(q, rest);
      assert t[|seg|..] == rest && t[0..] == t;
      PlainPrefix(seg, ['*'] + q, t);
    }
  }

  /** A literal segment that reaches the end of the text leaves only stars to match. */
  lemma SegmentAtEnd(seg: string, q: string)
    requires Plain(seg)
    ensures Suffix(seg + q, seg) <==> AllStars(q)
  {
    EmptyText(q);
    if Suffix(seg + q, seg) {
      var k :| 0 <= k <= |seg| && Matches(seg + q, seg[k..]);
      PlainPrefix(seg, q, seg[k..]);
      assert k == 0 && seg[k..][|seg|..] == [];
    }
    if AllStars(q) {
      PlainPrefix(seg, q, seg);
      assert seg[|seg|..] == [] && seg[0..] == seg;
    }
  }

  // ------------------------------------------------------------------ the recursive matcher

  function Lower(c: char): char { if 'A' <= c <= 'Z' then (c as int + 32) as char else c }

  function Fold(t: string): (r: string)
    ensures |r| == |t| && forall i :: 0 <= i < |t| ==> r[i] == Lower(t[i])
  { if t == [] then [] else [Lower(t[0])] + Fold(t[1..]) }

  lemma FoldDrop(t: string, k: nat)
    requires k <= |t|
    ensures Fold(t[k..]) == Fold(t)[k..]
  {
  }

  // One step of each loop below, on the folded strings.

  lemma CharStep(p: string, t: string, i: nat, j: nat)
    requires i <= |p| && j < |t| && (i < |p| ==> p[i] != '*')
    ensures Matches(p[i..], t[j..]) <==> i < |p| && p[i] == t[j] && Matches(p[i + 1..], t[j + 1..])
  {
    if i < |p| { assert p[i..][1..] == p[i + 1..] && t[j..][1..] == t[j + 1..]; }
  }

  lemma EndStep(p: string, i: nat)
    requires i <= |p|
    ensures AllStars(p[i..]) <==> i == |p| || (p[i] == '*' && AllStars(p[i + 1..]))
  {
    if i < |p| { assert p[i..] == [p[i]] + p[i + 1..]; }
  }

  lemma StarStep(p: string, i: nat, t: string)
    requires i < |p| && p[i] == '*'
    ensures Matches(p[i..], t) <==> Suffix(p[i + 1..], t)
    ensures Suffix(p[i..], t) <==> Suffix(p[i + 1..], t)
  {
    assert p[i..] == ['*'] + p[i + 1..];
    StarFirst(p[i + 1..], t);
    StarStar(p[i + 1..], t);
  }

  lemma EmptySuffix(q: string, t: string)
    requires q == []
    ensures Suffix(q, t)
  {
    assert Matches(q, t[|t|..]);
  }

  /** wildcard_match: case-insensitive, recursing at every star. */
  method WildcardMatch(p: string, t: string) returns (r: bool)
    ensures r == Matches(Fold(p), Fold(t))
    decreases |p|, 1
  {
    ghost var fp, ft := Fold(p), Fold(t);
    var i, j := 0, 0;
    assert fp[0..] == fp && ft[0..] == ft;
    while j < |t|
      invariant i <= |p| && j <= |t|
      invariant Matches(fp, ft) <==> Matches(fp[i..], ft[j..])
    {
      if i < |p| && p[i] == '*' {
        r := AfterStar(p, t, i, j);
        return;
      }
      CharStep(fp, ft, i, j);
      if i == |p| || Lower(p[i]) != Lower(t[j]) {
        return false;
      }
      i, j := i + 1, j + 1;
    }
    assert ft[j..] == [];
    EmptyText(fp[i..]);
    r := SkipStars(p, i);
  }

  /** After the text ends: the rest of the pattern is only stars. */
  method SkipStars(p: string, i0: nat) returns (r: bool)
    requires i0 <= |p|
    ensures r == AllStars(Fold(p)[i0..])
  {
    ghost var fp := Fold(p);
    var i := i0;
    while i < |p| && p[i] == '*'
      invariant i0 <= i <= |p| && (AllStars(fp[i0..]) <==> AllStars(fp[i..]))
    {
      EndStep(fp, i);
      i := i + 1;
    }
    EndStep(fp, i);
    r := i == |p|;
  }

  /** The star branch: skip the stars, then try every remaining position. */
  method AfterStar(p: string, t: string, i0: nat, j0: nat) returns (r: bool)
    requires i0 < |p| && p[i0] == '*' && j0 < |t|
    ensures r == Matches(Fold(p)[i0..], Fold(t)[j0..])
    decreases |p| - i0, 0
  {
    ghost var fp, ft := Fold(p), Fold(t);
    var i := i0 + 1;
    StarStep(fp, i0, ft[j0..]);
    while i < |p| && p[i] == '*'
      invariant i0 < i <= |p| && (Matches(fp[i0..], ft[j0..]) <==> Suffix(fp[i..], ft[j0..]))
    {
      StarStep(fp, i, ft[j0..]);
      i := i + 1;
    }
    if i == |p| {
      EmptySuffix(fp[i..], ft[j0..]);
      return true;
    }
    r := TryAll(p, t, i, j0);
  }

  lemma FoldBoth(p: string, t: string, i: nat, j: nat)
    requires i <= |p| && j <= |t|
    ensures Matches(Fold(p[i..]), Fold(t[j..])) <==> Matches(Fold(p)[i..], Fold(t)[j..])
  {
    FoldDrop(p, i);
    FoldDrop(t, j);
  }

  lemma Found(q: string, t: string, j0: nat, j: nat)
    requires j0 <= j <= |t| && Matches(q, t[j..])
    ensures Suffix(q, t[j0..])
  {
    assert t[j0..][j - j0..] == t[j..];
  }

  lemma NotFound(q: string, t: string, j0: nat)
    requires j0 <= |t| && q != [] && q[0] != '*' && forall k :: j0 <= k < |t| ==> !Matches(q, t[k..])
    ensures !Suffix(q, t[j0..])
  {
    forall k | 0 <= k <= |t[j0..]| ensures !Matches(q, t[j0..][k..]) { assert t[j0..][k..] == t[j0 + k..]; }
  }

  /** Try the pattern from i at every remaining position of the text. */
  method TryAll(p: string, t: string, i: nat, j0: nat) returns (r: bool)
    requires i < |p| && p[i] != '*' && j0 < |t|
    ensures r == Suffix(Fold(p)[i..], Fold(t)[j0..])
    decreases |p| - i, 2
  {
    ghost var q, ft := Fold(p)[i..], Fold(t);
    var j := j0;
    while j < |t|
      invariant j0 <= j <= |t|
      invariant forall k :: j0 <= k < j ==> !Matches(q, ft[k..])
    {
      r := WildcardMatch(p[i..], t[j..]);
      FoldBoth(p, t, i, j);
      if r {
        Found(q, ft, j0, j);
        return;
      }
      j := j + 1;
    }
    NotFound(q, ft, j0);
    r := false;
  }

  // ------------------------------------------------------------------ the greedy matcher

  /** Remaining work: positions the last star may still move to, then text, then pattern. */
  function GreedyFrom(p: string, t: string, i: nat, j: nat, star: int, mark: nat): bool
    requires i <= |p| && mark <= j <= |t| && -1 <= star < i
    decreases |t| - mark, |t| - j, |p| - i
  {
    if j < |t| then
      if i < |p| && p[i] == t[j] then GreedyFrom(p, t, i + 1, j + 1, star, mark)
      else if i < |p| && p[i] == '*' then GreedyFrom(p, t, i + 1, j, i, j)
      else if star != -1 then GreedyFrom(p, t, star + 1, mark + 1, star, mark + 1)
      else false
    else AllStars(p[i..])
  }

  /** globMatch on texts that are already lowercased. */
  function Greedy(p: string, t: string): bool { GreedyFrom(p, t, 0, 0, -1, 0) }

  method GreedyMatch(p: string, t: string) returns (r: bool)
    ensures r == Greedy(p, t)
  {
    var i, j, star, mark := 0, 0, -1, 0;
    while j < |t|
      invariant i <= |p| && mark <= j <= |t| && -1 <= star < i
      invariant Greedy(p, t) == GreedyFrom(p, t, i, j, star, mark)
      decreases |t| - mark, |t| - j, |p| - i
    {
      if i < |p| && p[i] == t[j] {
        i, j := i + 1, j + 1;
      } else if i < |p| && p[i] == '*' {
        star, mark, i := i, j, i + 1;
      } else if star != -1 {
        i, mark := star + 1, mark + 1;
        j := mark;
      } else {
        return false;
      }
    }
    while i < |p| && p[i] == '*'
      invariant i <= |p| && Greedy(p, t) == AllStars(p[i..])
    {
      assert AllStars(p[i..]) == AllStars(p[i + 1..]) by {
        assert p[i..] == [p[i]] + p[i + 1..];
      }
      i := i + 1;
    }
    r := i == |p|;
  }

  /** The text has no '*', except perhaps as its last character. */
  predicate StarOnlyLast(t: string) { forall k :: 0 <= k < |t| - 1 ==> t[k] != '*' }

  /** What the greedy matcher knows: the segment since the last star matches at mark. */
  ghost predicate Knows(p: string, t: string, i: nat, j: nat, star: int, mark: nat) {
    && i <= |p| && mark <= j <= |t| && -1 <= star < i
    && (star == -1 ==> (Matches(p, t) <==> Matches(p[i..], t[j..])))
    && (star != -1 ==>
          && i - (star + 1) == j - mark && p[star + 1..i] == t[mark..j]
          && (Matches(p, t) <==> Suffix(p[star + 1..], t[mark..])))
  }

  /** A text that is a single '*' is matched by stars only, like the empty one. */
  lemma {:induction false} StarText(q: string)
    ensures Suffix(q, ['*']) <==> AllStars(q)
    decreases |q|
  {
    var t := ['*'];
    assert t[1..] == [];
    SuffixStep(q, t);
    SuffixEmpty(q);
    if q != [] && q[0] == '*' {
      StarFirst(q[1..], t);
      assert q == ['*'] + q[1..];
      StarText(q[1..]);
    }
  }

  /** In front of the segment nothing matched, and with it the text continues differently. */
  lemma Mismatch(p: string, t: string, i: nat, j: nat, star: nat, mark: nat)
    requires Knows(p, t, i, j, star, mark) && j < |t| && Plain(t[mark..j])
    requires i == |p| || (p[i] != t[j] && p[i] != '*')
    ensures Suffix(p[star + 1..], t[mark..]) <==> Suffix(p[star + 1..], t[mark + 1..])
  {
    var seg := t[mark..j];
    assert p[star + 1..] == seg + p[i..] && t[mark..] == seg + t[j..];
    PlainPrefix(seg, p[i..], t[mark..]);
    assert t[mark..][|seg|..] == t[j..];
    SuffixStep(p[star + 1..], t[mark..]);
    assert t[mark..][1..] == t[mark + 1..];
  }

  /** One step of the greedy matcher keeps what it knows, or it already has the answer. */
  lemma GreedyStep(p: string, t: string, i: nat, j: nat, star: int, mark: nat)
    requires StarOnlyLast(t) && Knows(p, t, i, j, star, mark) && Plain(t[mark..j]) && j < |t|
    ensures i < |p| && p[i] == t[j] ==>
              if t[j] == '*' then (Matches(p, t) <==> AllStars(p[i + 1..])) && j + 1 == |t|
              else Knows(p, t, i + 1, j + 1, star, mark) && Plain(t[mark..j + 1])
    ensures i < |p| && p[i] != t[j] && p[i] == '*' ==> Knows(p, t, i + 1, j, i, j) && Plain(t[j..j])
    ensures !(i < |p| && (p[i] == t[j] || p[i] == '*')) ==>
              if star == -1 then !Matches(p, t)
              else Knows(p, t, star + 1, mark + 1, star, mark + 1) && Plain(t[mark + 1..mark + 1])
  {
    if i < |p| && p[i] == t[j] {
      GreedyEqual(p, t, i, j, star, mark);
      assert t[mark..j + 1] == t[mark..j] + [t[j]];
    } else if i < |p| && p[i] == '*' {
      GreedyStar(p, t, i, j, star, mark);
    } else if star != -1 {
      Mismatch(p, t, i, j, star, mark);
      assert t[mark + 1..mark + 1] == [] == p[star + 1..star + 1];
    }
  }

  /** On such texts every state of the greedy matcher decides membership in the language. */
  lemma {:induction false} GreedyCorrect(p: string, t: string, i: nat, j: nat, star: int, mark: nat)
    requires StarOnlyLast(t) && Knows(p, t, i, j, star, mark) && Plain(t[mark..j])
    ensures GreedyFrom(p, t, i, j, star, mark) == Matches(p, t)
    decreases |t| - mark, |t| - j, |p| - i
  {
    if j == |t| {
      GreedyEnd(p, t, i, star, mark);
    } else {
      GreedyStep(p, t, i, j, star, mark);
      if i < |p| && p[i] == t[j] {
        assert GreedyFrom(p, t, i, j, star, mark) == GreedyFrom(p, t, i + 1, j + 1, star, mark);
        if t[j] != '*' { GreedyCorrect(p, t, i + 1, j + 1, star, mark); }
      } else if i < |p| && p[i] == '*' {
        GreedyCorrect(p, t, i + 1, j, i, j);
      } else if star != -1 {
        GreedyCorrect(p, t, star + 1, mark + 1, star, mark + 1);
      }
    }
  }

  lemma GreedyEnd(p: string, t: string, i: nat, star: int, mark: nat)
    requires Knows(p, t, i, |t|, star, mark) && Plain(t[mark..])
    ensures AllStars(p[i..]) <==> Matches(p, t)
  {
    if star == -1 {
      assert t[|t|..] == [];
      EmptyText(p[i..]);
    } else {
      assert p[star + 1..] == p[star + 1..i] + p[i..] && t[mark..|t|] == t[mark..];
      SegmentAtEnd(t[mark..], p[i..]);
    }
  }

  lemma GreedyEqual(p: string, t: string, i: nat, j: nat, star: int, mark: nat)
    requires StarOnlyLast(t) && Knows(p, t, i, j, star, mark) && Plain(t[mark..j])
    requires j < |t| && i < |p| && p[i] == t[j]
    ensures t[j] != '*' ==> Knows(p, t, i + 1, j + 1, star, mark)
    ensures t[j] == '*' ==> (Matches(p, t) <==> AllStars(p[i + 1..])) && j + 1 == |t|
  {
    assert p[i..] == [p[i]] + p[i + 1..] && t[j..] == [t[j]] + t[j + 1..];
    if t[j] == '*' {
      assert t[j..] == ['*'];
      StarText(p[i + 1..]);
      if star == -1 {
        StarFirst(p[i + 1..], t[j..]);
      } else {
        assert p[star + 1..] == t[mark..j] + (['*'] + p[i + 1..]) && t[mark..] == t[mark..j] + ['*'];
        LeftmostSegment(t[mark..j], p[i + 1..], ['*']);
      }
    } else if star == -1 {
      assert p[i..][1..] == p[i + 1..] && t[j..][1..] == t[j + 1..];
    } else {
      assert p[star + 1..i + 1] == p[star + 1..i] + [p[i]] && t[mark..j + 1] == t[mark..j] + [t[j]];
    }
  }

  lemma GreedyStar(p: string, t: string, i: nat, j: nat, star: int, mark: nat)
    requires Knows(p, t, i, j, star, mark) && Plain(t[mark..j]) && i < |p| && p[i] == '*'
    ensures Knows(p, t, i + 1, j, i, j) && Plain(t[j..j])
  {
    assert p[i..] == ['*'] + p[i + 1..] && p[i + 1..i + 1] == [] == t[j..j];
    if star == -1 {
      StarFirst(p[i + 1..], t[j..]);
    } else {
      assert p[star + 1..] == t[mark..j] + (['*'] + p[i + 1..]) && t[mark..] == t[mark..j] + t[j..];
      LeftmostSegment(t[mark..j], p[i + 1..], t[j..]);
    }
  }

  /** On a text u*v with v not empty, the pattern u* matches, but the greedy matcher takes its star literally. */
  lemma GreedyWrong(t: string, k: nat)
    requires k < |t| - 1 && t[k] == '*' && Plain(t[..k])
    ensures Matches(t[..k] + ['*'], t) && !Greedy(t[..k] + ['*'], t)
  {
    var p := t[..k] + ['*'];
    PlainPrefix(t[..k], ['*'], t);
    assert ['*'] == ['*'] + [];
    StarFirst([], t[k..]);
    assert t[k..][|t| - k..] == [];
    GreedyLiteral(p, t, 0);
  }

  lemma {:induction false} GreedyLiteral(p: string, t: string, i: nat)
    requires i <= |p| < |t| && p <= t
    ensures !GreedyFrom(p, t, i, i, -1, 0)
    decreases |p| - i
  {
    if i < |p| { GreedyLiteral(p, t, i + 1); }
  }

  lemma {:induction false} FirstStar(t: string) returns (k: nat)
    requires !StarOnlyLast(t)
    ensures k < |t| - 1 && t[k] == '*' && Plain(t[..k])
  {
    k := 0;
    while t[k] != '*'
      invariant k < |t| - 1 && Plain(t[..k]) && exists m :: k <= m < |t| - 1 && t[m] == '*'
      decreases |t| - k
    {
      k := k + 1;
    }
  }

  /** The greedy matcher decides every pattern correctly on exactly the texts with no '*' before the end. */
  lemma GreedyIff(t: string)
    ensures (forall p :: Greedy(p, t) == Matches(p, t)) <==> StarOnlyLast(t)
  {
    if StarOnlyLast(t) {
      forall p ensures Greedy(p, t) == Matches(p, t) {
        assert p[0..] == p && t[0..] == t && t[0..0] == [];
        GreedyCorrect(p, t, 0, 0, -1, 0);
      }
    } else {
      var k := FirstStar(t);
      GreedyWrong(t, k);
    }
  }

  /** Both matchers give the same answer for every pattern on every text with no '*' before the end. */
  lemma MatchersAgree(p: string, t: string)
    requires StarOnlyLast(t)
    ensures Greedy(Fold(p), Fold(t)) == Matches(Fold(p), Fold(t))
  {
    GreedyIff(Fold(t));
  }
}
