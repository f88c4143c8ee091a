/** What filtering a git diff guarantees: nothing is added or reordered, a block goes exactly
    when it is binary, a diff without file sections is returned unchanged, and filtering
    twice changes nothing more. */
module GitDiffFacts {
  import opened Text
  import opened GitDiff

  /** `a` is `b` with some lines left out, the rest in their order. */
  predicate Sub(a: seq<string>, b: seq<string>)
    decreases |b|
  {
    if b == [] then a == []
    else (a != [] && a[0] == b[0] && Sub(a[1..], b[1..])) || Sub(a, b[1..])
  }

  lemma {:induction false} SubEmpty(b: seq<string>)
    ensures Sub([], b)
    decreases |b|
  {
    if b != [] {
      SubEmpty(b[1..]);
    }
  }

  lemma {:induction false} SubRefl(a: seq<string>)
    ensures Sub(a, a)
    decreases |a|
  {
    if a != [] {
      SubRefl(a[1..]);
    }
  }

  /** Leaving lines out of two parts leaves them out of the whole. */
  lemma {:induction false} SubAppend(a1: seq<string>, b1: seq<string>, a2: seq<string>, b2: seq<string>)
    requires Sub(a1, b1) && Sub(a2, b2)
    ensures Sub(a1 + a2, b1 + b2)
    decreases |b1|
  {
    if b1 == [] {
      assert a1 + a2 == a2 && b1 + b2 == b2;
    } else {
      var b := b1 + b2;
      assert b[0] == b1[0] && b[1..] == b1[1..] + b2;
      if a1 != [] && a1[0] == b1[0] && Sub(a1[1..], b1[1..]) {
        SubAppend(a1[1..], b1[1..], a2, b2);
        assert (a1 + a2)[0] == a1[0] && (a1 + a2)[1..] == a1[1..] + a2;
      } else {
        SubAppend(a1, b1[1..], a2, b2);
      }
    }
  }

  /** The kept blocks' lines are the blocks' lines with some left out. */
  lemma {:induction false} KeptSub(bs: seq<seq<string>>)
    ensures Sub(Flatten(Kept(bs)), Flatten(bs))
    decreases |bs|
  {
    if bs != [] {
      var x := bs[0];
      KeptSub(bs[1..]);
      if HasBinaryLine(x) {
        SubEmpty(x);
        SubAppend([], x, Flatten(Kept(bs[1..])), Flatten(bs[1..]));
        assert Kept(bs) == [] + Kept(bs[1..]) == Kept(bs[1..]);
        assert [] + Flatten(Kept(bs[1..])) == Flatten(Kept(bs[1..]));
      } else {
        SubRefl(x);
        SubAppend(x, x, Flatten(Kept(bs[1..])), Flatten(bs[1..]));
        assert ([x] + Kept(bs[1..]))[1..] == Kept(bs[1..]);
      }
    }
  }

  /** The blocks cover the lines exactly: joined back together they give the lines. */
  lemma {:induction false} BlocksCover(ls: seq<string>)
    ensures Flatten(Blocks(ls)) == ls
    decreases |ls|
  {
    if ls != [] {
      var n := NextHeader(ls, 1);
      BlocksCover(ls[n..]);
      assert ([ls[..n]] + Blocks(ls[n..]))[1..] == Blocks(ls[n..]);
      assert ls[..n] + ls[n..] == ls;
    }
  }

  /** Lines that start with a header are cut into well-formed blocks. */
  lemma {:induction false} BlocksWellFormed(ls: seq<string>)
    requires StartsBlocks(ls)
    ensures forall b :: b in Blocks(ls) ==> IsBlock(b)
    decreases |ls|
  {
    if ls != [] {
      var n := NextHeader(ls, 1);
      BlocksWellFormed(ls[n..]);
      assert IsBlock(ls[..n]);
    }
  }

  /** A block is kept exactly when it is one of the blocks and has no binary line. */
  lemma {:induction false} KeptMembers(bs: seq<seq<string>>, b: seq<string>)
    ensures b in Kept(bs) <==> b in bs && !HasBinaryLine(b)
    decreases |bs|
  {
    if bs != [] {
      KeptMembers(bs[1..], b);
      assert bs == [bs[0]] + bs[1..];
    }
  }

  /** Blocks without binary lines are all kept. */
  lemma {:induction false} KeptAll(bs: seq<seq<string>>)
    requires forall i :: 0 <= i < |bs| ==> !HasBinaryLine(bs[i])
    ensures Kept(bs) == bs
    decreases |bs|
  {
    if bs != [] {
      var rest := bs[1..];
      assert forall i :: 0 <= i < |rest| ==> rest[i] == bs[i + 1];
      KeptAll(rest);
      assert Kept(bs) == [bs[0]] + rest;
    }
  }

  /** Well-formed blocks joined together are empty or start with a header. */
  lemma FlattenStarts(bs: seq<seq<string>>)
    requires forall b :: b in bs ==> IsBlock(b)
    ensures StartsBlocks(Flatten(bs))
  {
    if bs != [] {
      assert bs[0] in bs;
      assert Flatten(bs)[0] == bs[0][0];
    }
  }

  /** Well-formed blocks joined together are cut back into the same blocks. */
  lemma {:induction false} BlocksOfFlatten(bs: seq<seq<string>>)
    requires forall b :: b in bs ==> IsBlock(b)
    ensures Blocks(Flatten(bs)) == bs
    decreases |bs|
  {
    if bs != [] {
      var x := bs[0];
      var rest := Flatten(bs[1..]);
      assert x in bs;
      assert forall b :: b in bs[1..] ==> b in bs;
      BlocksOfFlatten(bs[1..]);
      FlattenStarts(bs[1..]);
      NextHeaderAtBlockEnd(x, rest);
      assert (x + rest)[..|x|] == x && (x + rest)[|x|..] == rest;
      assert bs == [x] + bs[1..];
    }
  }

  /** After a block, the next header is where the following lines begin, when they start
      with one. */
  lemma NextHeaderAtBlockEnd(x: seq<string>, ys: seq<string>)
    requires IsBlock(x) && StartsBlocks(ys)
    ensures NextHeader(x + ys, 1) == |x|
  {
    var zs := x + ys;
    assert forall j :: 1 <= j < |x| ==> zs[j] == x[j];
    if ys != [] {
      assert zs[|x|] == ys[0];
    }
  }

  /** With no header in `xs` from `from` on, the first header of `xs + ys` from there is
      where `ys` begins, when `ys` starts with one. */
  lemma {:induction false} NextHeaderPastPrelude(xs: seq<string>, ys: seq<string>, from: nat)
    requires from <= |xs| && NextHeader(xs, from) == |xs| && StartsBlocks(ys)
    ensures NextHeader(xs + ys, from) == |xs|
    decreases |xs| - from
  {
    if from < |xs| {
      assert (xs + ys)[from] == xs[from];
      NextHeaderPastPrelude(xs, ys, from + 1);
    } else if ys != [] {
      assert (xs + ys)[from] == ys[0];
    }
  }

  /** Filtering keeps the prelude and the non-binary blocks and nothing else, in order. */
  lemma FilterLinesSub(ls: seq<string>)
    ensures Sub(FilterLines(ls), ls)
  {
    var p := NextHeader(ls, 0);
    var pre, rest := ls[..p], ls[p..];
    var kept := Flatten(Kept(Blocks(rest)));
    SubRefl(pre);
    KeptSub(Blocks(rest));
    BlocksCover(rest);
    SubAppend(pre, pre, kept, rest);
    SliceJoin(ls, p);
  }

  lemma SliceJoin(ls: seq<string>, p: nat)
    requires p <= |ls|
    ensures ls[..p] + ls[p..] == ls
  {
  }

  /** A block of the diff is in the output's blocks exactly when it has no binary line. */
  lemma FilterLinesBlocks(ls: seq<string>, b: seq<string>)
    ensures var p := NextHeader(ls, 0);
            b in Blocks(FilterLines(ls)[p..]) <==> b in Blocks(ls[p..]) && !HasBinaryLine(b)
  {
    var p := NextHeader(ls, 0);
    var bs := Blocks(ls[p..]);
    var out := FilterLines(ls);
    BlocksWellFormed(ls[p..]);
    forall c | c in Kept(bs)
      ensures IsBlock(c)
    {
      KeptMembers(bs, c);
    }
    BlocksOfFlatten(Kept(bs));
    assert out[p..] == Flatten(Kept(bs));
    KeptMembers(bs, b);
  }

  /** Filtering a filtered diff changes nothing more. */
  lemma FilterLinesIdempotent(ls: seq<string>)
    ensures FilterLines(FilterLines(ls)) == FilterLines(ls)
  {
    var p := NextHeader(ls, 0);
    var pre := ls[..p];
    var ks := Kept(Blocks(ls[p..]));
    var out := FilterLines(ls);
    BlocksWellFormed(ls[p..]);
    forall c | c in ks
      ensures IsBlock(c) && !HasBinaryLine(c)
    {
      KeptMembers(Blocks(ls[p..]), c);
    }
    FlattenStarts(ks);
    assert NextHeader(pre, 0) == |pre| by {
      NextHeaderPrelude(ls, p, 0);
    }
    NextHeaderPastPrelude(pre, Flatten(ks), 0);
    assert out[..p] == pre && out[p..] == Flatten(ks);
    BlocksOfFlatten(ks);
    assert forall i :: 0 <= i < |ks| ==> ks[i] in ks;
    KeptAll(ks);
  }

  /** Lines before the first header have no header among them. */
  lemma {:induction false} NextHeaderPrelude(ls: seq<string>, p: nat, from: nat)
    requires p == NextHeader(ls, 0) && from <= p
    ensures NextHeader(ls[..p], from) == p
    decreases p - from
  {
    if from < p {
      NextHeaderPrelude(ls, p, from + 1);
    }
  }

  /** A diff with no file section comes back unchanged. */
  lemma NoSectionsUnchanged(text: string)
    requires forall i :: 0 <= i < |SplitLinesKeepEnds(text)| ==> !IsHeader(SplitLinesKeepEnds(text)[i])
    ensures Concat(FilterLines(SplitLinesKeepEnds(text))) == text
  {
    var ls := SplitLinesKeepEnds(text);
    var p := NextHeader(ls, 0);
    SliceToEnd(ls, p);
    assert ls[p..] == [];
    assert FilterLines(ls) == ls;
    SplitLinesKeepEndsConcat(text);
  }
}
