/** Removing binary file sections from a git diff. A diff is read as its lines, line ends
    kept: the lines before the first "diff --git " header (the prelude), then blocks, each
    running from one header up to the next. A block that mentions binary content is
    dropped; everything else is kept verbatim and in order. */
module GitDiff {
  import opened Text

  const Header := "diff --git "
  const BinaryFiles := "Binary files "
  const BinaryPatch := "GIT binary patch"

  /** A line that opens a file section. */
  predicate IsHeader(ln: string) { HasAt(ln, Header, 0) }

  /** A line that marks its section as binary. */
  predicate IsBinaryLine(ln: string) { HasAt(ln, BinaryFiles, 0) || Strip(ln) == BinaryPatch }

  /** The condition `is_binary_block` checks: some line of the block is binary. */
  predicate HasBinaryLine(bl: seq<string>)
  {
    bl != [] && (IsBinaryLine(bl[0]) || HasBinaryLine(bl[1..]))
  }

  /** The index of the first header at or after `from`, or `|ls|` when there is none. */
  function NextHeader(ls: seq<string>, from: nat): (n: nat)
    requires from <= |ls|
    ensures from <= n <= |ls|
    ensures n < |ls| ==> IsHeader(ls[n])
    ensures forall j :: from <= j < n ==> !IsHeader(ls[j])
    decreases |ls| - from
  {
    if from == |ls| || IsHeader(ls[from]) then from else NextHeader(ls, from + 1)
  }

  /** A well-formed block: a header line followed by lines that are not headers. */
  predicate IsBlock(bl: seq<string>)
  {
    bl != [] && IsHeader(bl[0]) && forall j :: 1 <= j < |bl| ==> !IsHeader(bl[j])
  }

  /** The lines from the first header on, cut into blocks at every header. */
  function Blocks(ls: seq<string>): (bs: seq<seq<string>>)
    decreases |ls|
  {
    if ls == [] then [] else
    var n := NextHeader(ls, 1);
    [ls[..n]] + Blocks(ls[n..])
  }

  /** The blocks joined back into lines. */
  function Flatten(bs: seq<seq<string>>): seq<string>
  {
    if bs == [] then [] else bs[0] + Flatten(bs[1..])
  }

  /** The blocks that survive, in order: those without a binary line. */
  function Kept(bs: seq<seq<string>>): seq<seq<string>>
  {
    if bs == [] then []
    else (if HasBinaryLine(bs[0]) then [] else [bs[0]]) + Kept(bs[1..])
  }

  /** The filtered lines: the prelude, then the kept blocks. */
  function FilterLines(ls: seq<string>): seq<string>
  {
    var p := NextHeader(ls, 0);
    ls[..p] + Flatten(Kept(Blocks(ls[p..])))
  }

  /** `is_binary_block`: the lines in order, stopping at the first binary one. */
  method IsBinaryBlock(bl: seq<string>) returns (b: bool)
    ensures b == HasBinaryLine(bl)
  {
    for i := 0 to |bl|
      invariant HasBinaryLine(bl) == HasBinaryLine(bl[i..])
    {
      assert bl[i..][0] == bl[i] && bl[i..][1..] == bl[i + 1..];
      var s := Strip(bl[i]);
      if HasAt(bl[i], BinaryFiles, 0) {
        return true;
      }
      if s == BinaryPatch {
        return true;
      }
    }
    return false;
  }

  /** `filter_git_diff`: one pass over the lines, copying the prelude and holding each
      block until the next header (or the end) shows it is complete. */
  method FilterGitDiff(text: string) returns (r: string)
    ensures r == Concat(FilterLines(SplitLinesKeepEnds(text)))
  {
    var lines := SplitLinesKeepEnds(text);
    var out := FilterLineList(lines);
    r := Concat(out);
  }

  /** The loop of `filter_git_diff` over the lines, up to the final join. */
  method FilterLineList(lines: seq<string>) returns (out: seq<string>)
    ensures out == FilterLines(lines)
  {
    out := [];
    var block: seq<string> := [];
    var inBlock := false;
    var preludeCopied := false;
    ghost var q := 0;
    for i := 0 to |lines|
      invariant ScanState(out, block, inBlock, q) == ScanTo(lines, i)
    {
      var ln := lines[i];
      if HasAt(ln, Header, 0) {
        if inBlock {
          var binary := IsBinaryBlock(block);
          if !binary {
            out := out + block;
          }
          block := [];
        } else {
          if !preludeCopied {
            preludeCopied := true;
          }
        }
        q := i;
        inBlock := true;
      }
      if inBlock {
        block := block + [ln];
      } else {
        out := out + [ln];
      }
    }
    ScanComplete(lines);
    if inBlock && block != [] {
      var binary := IsBinaryBlock(block);
      if !binary {
        out := out + block;
      }
    }
  }

  /** What the loop holds after a number of lines: the output so far, the open block, whether
      a block is open and (for the proof) where the open block starts. */
  datatype ScanState = ScanState(out: seq<string>, block: seq<string>, inBlock: bool, start: nat)

  /** One line of the loop. */
  ghost function Step(s: ScanState, lines: seq<string>, i: nat): ScanState
    requires i < |lines|
  {
    var ln := lines[i];
    if IsHeader(ln) then
      ScanState(if s.inBlock && !HasBinaryLine(s.block) then s.out + s.block else s.out, [ln], true, i)
    else if s.inBlock then ScanState(s.out, s.block + [ln], true, s.start)
    else ScanState(s.out + [ln], [], false, s.start)
  }

  /** The loop's state after the first `i` lines. */
  ghost function ScanTo(lines: seq<string>, i: nat): ScanState
    requires i <= |lines|
  {
    if i == 0 then ScanState([], [], false, 0) else Step(ScanTo(lines, i - 1), lines, i - 1)
  }

  /** The loop's state after `i` lines, read against the blocks of `lines`: before the first
      header the prelude is copied; after it, the closed blocks are filtered into the output
      and the open block runs from its header to line `i`. */
  ghost predicate ScanMeans(lines: seq<string>, i: nat, s: ScanState)
    requires i <= |lines|
  {
    var p := NextHeader(lines, 0);
    (!s.inBlock ==> i <= p && s.out == lines[..i] && s.block == [])
    && (s.inBlock ==> p <= s.start < i && s.block == lines[s.start..i] && IsBlock(s.block)
                      && StartsBlocks(lines[p..s.start])
                      && s.out == lines[..p] + Flatten(Kept(Blocks(lines[p..s.start]))))
  }

  lemma {:induction false} ScanMeaning(lines: seq<string>, i: nat)
    requires i <= |lines|
    ensures ScanMeans(lines, i, ScanTo(lines, i))
    decreases i
  {
    if i > 0 {
      ScanMeaning(lines, i - 1);
      StepMeaning(lines, ScanTo(lines, i - 1), i - 1);
    }
  }

  /** One line of the loop keeps its meaning. */
  lemma StepMeaning(lines: seq<string>, s: ScanState, i: nat)
    requires i < |lines| && ScanMeans(lines, i, s)
    ensures ScanMeans(lines, i + 1, Step(s, lines, i))
  {
    if IsHeader(lines[i]) {
      if s.inBlock {
        StepClose(lines, s, i);
      } else {
        StepOpen(lines, s, i);
      }
    } else if s.inBlock {
      StepExtend(lines, s, i);
    } else {
      StepPrelude(lines, s, i);
    }
  }

  lemma StepClose(lines: seq<string>, s: ScanState, i: nat)
    requires i < |lines| && ScanMeans(lines, i, s) && s.inBlock && IsHeader(lines[i])
    ensures ScanMeans(lines, i + 1, Step(s, lines, i))
  {
    var p := NextHeader(lines, 0);
    var prev := Flatten(Kept(Blocks(lines[p..s.start])));
    CloseBlock(lines, p, s.start, i);
    var t := Step(s, lines, i);
    if HasBinaryLine(s.block) {
      assert t.out == s.out;
    } else {
      assert t.out == (lines[..p] + prev) + s.block;
      AppendAssoc(lines[..p], prev, s.block);
    }
    assert t.out == lines[..p] + Flatten(Kept(Blocks(lines[p..i])));
    assert StartsBlocks(lines[p..i]);
    assert t.block == [lines[i]];
    SliceOne(lines, i);
    assert IsBlock(t.block);
    assert t.inBlock && t.start == i;
  }

  lemma StepOpen(lines: seq<string>, s: ScanState, i: nat)
    requires i < |lines| && ScanMeans(lines, i, s) && !s.inBlock && IsHeader(lines[i])
    ensures ScanMeans(lines, i + 1, Step(s, lines, i))
  {
    var p := NextHeader(lines, 0);
    assert i == p;
    assert lines[p..p] == [] && lines[..p] + [] == lines[..p];
    SliceOne(lines, i);
  }

  lemma StepExtend(lines: seq<string>, s: ScanState, i: nat)
    requires i < |lines| && ScanMeans(lines, i, s) && s.inBlock && !IsHeader(lines[i])
    ensures ScanMeans(lines, i + 1, Step(s, lines, i))
  {
    assert lines[s.start..i + 1] == s.block + [lines[i]];
  }

  lemma StepPrelude(lines: seq<string>, s: ScanState, i: nat)
    requires i < |lines| && ScanMeans(lines, i, s) && !s.inBlock && !IsHeader(lines[i])
    ensures ScanMeans(lines, i + 1, Step(s, lines, i))
  {
    assert lines[..i + 1] == s.out + [lines[i]];
  }

  lemma SliceOne<T>(a: seq<T>, i: nat)
    requires i < |a|
    ensures a[i..i + 1] == [a[i]]
  {
  }

  lemma SliceToEnd<T>(a: seq<T>, p: nat)
    requires p <= |a|
    ensures a[p..|a|] == a[p..] && a[..|a|] == a
  {
  }

  lemma AppendAssoc<T>(a: seq<T>, b: seq<T>, c: seq<T>)
    ensures (a + b) + c == a + (b + c)
  {
  }

  /** After the last line, closing the open block gives the filtered lines. */
  lemma ScanComplete(lines: seq<string>)
    ensures var s := ScanTo(lines, |lines|);
            FilterLines(lines)
            == if s.inBlock && s.block != [] && !HasBinaryLine(s.block) then s.out + s.block else s.out
  {
    ScanMeaning(lines, |lines|);
    var s := ScanTo(lines, |lines|);
    if s.inBlock {
      CompleteOpen(lines, s);
    } else {
      CompletePrelude(lines, s);
    }
  }

  lemma CompleteOpen(lines: seq<string>, s: ScanState)
    requires ScanMeans(lines, |lines|, s) && s.inBlock
    ensures FilterLines(lines) == if HasBinaryLine(s.block) then s.out else s.out + s.block
  {
    var p := NextHeader(lines, 0);
    var prev := Flatten(Kept(Blocks(lines[p..s.start])));
    SliceToEnd(lines, p);
    CloseBlock(lines, p, s.start, |lines|);
    if !HasBinaryLine(s.block) {
      AppendAssoc(lines[..p], prev, s.block);
    }
  }

  lemma CompletePrelude(lines: seq<string>, s: ScanState)
    requires ScanMeans(lines, |lines|, s) && !s.inBlock
    ensures FilterLines(lines) == s.out
  {
    var p := NextHeader(lines, 0);
    SliceToEnd(lines, 0);
    assert lines[p..] == [];
    assert Flatten(Kept(Blocks(lines[p..]))) == [];
  }

  /** The lines are empty or start with a header. */
  predicate StartsBlocks(ls: seq<string>) { ls == [] || IsHeader(ls[0]) }

  /** Closing the current block `lines[q..i]` extends the kept output by it, unless it is
      binary. */
  lemma CloseBlock(lines: seq<string>, p: nat, q: nat, i: nat)
    requires p <= q < i <= |lines|
    requires StartsBlocks(lines[p..q]) && IsBlock(lines[q..i])
    ensures StartsBlocks(lines[p..i])
    ensures Flatten(Kept(Blocks(lines[p..i])))
            == Flatten(Kept(Blocks(lines[p..q]))) + (if HasBinaryLine(lines[q..i]) then [] else lines[q..i])
  {
    var bs := Blocks(lines[p..q]);
    var bl := lines[q..i];
    assert lines[p..i] == lines[p..q] + bl;
    assert lines[p..i][0] == if p < q then lines[p..q][0] else bl[0];
    BlocksSnoc(lines[p..q], bl);
    KeptSnoc(bs, bl);
  }

  /** Kept text grows by a block exactly when the block has no binary line. */
  lemma {:induction false} KeptSnoc(bs: seq<seq<string>>, bl: seq<string>)
    ensures Flatten(Kept(bs + [bl])) == Flatten(Kept(bs)) + (if HasBinaryLine(bl) then [] else bl)
    decreases |bs|
  {
    if bs == [] {
      assert [] + [bl] == [bl];
      assert [bl][1..] == [];
    } else {
      var x := bs[0];
      assert (bs + [bl])[0] == x && (bs + [bl])[1..] == bs[1..] + [bl];
      KeptSnoc(bs[1..], bl);
      var k := Flatten(Kept(bs[1..]));
      var y := if HasBinaryLine(bl) then [] else bl;
      if HasBinaryLine(x) {
        assert Kept(bs) == Kept(bs[1..]);
        assert Kept(bs + [bl]) == Kept(bs[1..] + [bl]);
      } else {
        assert Kept(bs) == [x] + Kept(bs[1..]);
        assert Kept(bs + [bl]) == [x] + Kept(bs[1..] + [bl]);
        assert ([x] + Kept(bs[1..]))[1..] == Kept(bs[1..]);
        assert ([x] + Kept(bs[1..] + [bl]))[1..] == Kept(bs[1..] + [bl]);
        AppendAssoc(x, k, y);
      }
    }
  }

  /** Appending a block to lines that start with a header appends it to their blocks. */
  lemma {:induction false} BlocksSnoc(xs: seq<string>, bl: seq<string>)
    requires StartsBlocks(xs) && IsBlock(bl)
    ensures Blocks(xs + bl) == Blocks(xs) + [bl]
    decreases |xs|
  {
    if xs == [] {
      assert xs + bl == bl;
      BlocksOfBlock(bl);
    } else if NextHeader(xs, 1) < |xs| {
      var n := NextHeader(xs, 1);
      BlocksSnoc(xs[n..], bl);
      BlocksAppendFirst(xs, bl, n);
      AppendAssoc([xs[..n]], Blocks(xs[n..]), [bl]);
    } else {
      BlocksSnocLast(xs, bl);
    }
  }

  /** A single block is its own only block. */
  lemma BlocksOfBlock(bl: seq<string>)
    requires IsBlock(bl)
    ensures Blocks(bl) == [bl]
  {
    assert NextHeader(bl, 1) == |bl|;
    assert bl[..|bl|] == bl && bl[|bl|..] == [];
  }

  /** With a second header inside `xs`, the first block of `xs + ys` is that of `xs`. */
  lemma BlocksAppendFirst(xs: seq<string>, ys: seq<string>, n: nat)
    requires xs != [] && n == NextHeader(xs, 1) < |xs|
    ensures Blocks(xs + ys) == [xs[..n]] + Blocks(xs[n..] + ys)
  {
    var zs := xs + ys;
    NextHeaderPrefix(xs, ys, 1);
    assert zs[..n] == xs[..n];
    assert zs[n..] == xs[n..] + ys;
  }

  /** With no second header inside `xs`, `xs` is one block and `bl` the next. */
  lemma BlocksSnocLast(xs: seq<string>, bl: seq<string>)
    requires xs != [] && IsBlock(bl) && NextHeader(xs, 1) == |xs|
    ensures Blocks(xs + bl) == Blocks(xs) + [bl]
  {
    var ys := xs + bl;
    var n := |xs|;
    NextHeaderAtJoin(xs, bl);
    assert ys[..n] == xs && xs[..n] == xs;
    assert ys[n..] == bl && xs[n..] == [];
    BlocksOfBlock(bl);
    assert Blocks(ys) == [xs] + Blocks(bl);
    assert Blocks(xs) == [xs] + Blocks([]);
  }

  /** A header found inside `xs` is found at the same place in `xs + ys`. */
  lemma {:induction false} NextHeaderPrefix(xs: seq<string>, ys: seq<string>, from: nat)
    requires from <= |xs| && NextHeader(xs, from) < |xs|
    ensures NextHeader(xs + ys, from) == NextHeader(xs, from)
    decreases |xs| - from
  {
    if !IsHeader(xs[from]) {
      NextHeaderPrefix(xs, ys, from + 1);
    }
  }

  /** With no header in `xs` after its first line, the next header of `xs + bl` is where
      `bl` begins. */
  lemma NextHeaderAtJoin(xs: seq<string>, bl: seq<string>)
    requires xs != [] && NextHeader(xs, 1) == |xs| && IsBlock(bl)
    ensures NextHeader(xs + bl, 1) == |xs|
  {
    var ys := xs + bl;
    assert ys[|xs|] == bl[0];
    assert forall j :: 1 <= j < |xs| ==> ys[j] == xs[j];
  }
}
