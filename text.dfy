/** Python string operations used by the scripts: character classes, strip, find, split,
    splitlines, word splitting, decimal conversion and shell quoting. Strings are
    sequences of Unicode code points, as Python's `str` is. */
module Text {
  import opened Wrappers

  /** `str.isspace` for one character. */
  predicate IsSpace(c: char) {
    c == ' ' || ('\t' <= c <= '\r') || ('\U{001C}' <= c <= '\U{001F}') || c == '\U{0085}'
    || c == '\U{00A0}' || c == '\U{1680}' || ('\U{2000}' <= c <= '\U{200A}')
    || c == '\U{2028}' || c == '\U{2029}' || c == '\U{202F}' || c == '\U{205F}' || c == '\U{3000}'
  }

  /** The line boundaries `str.splitlines` recognises ("\r\n" counts as one). */
  predicate IsLineBreak(c: char) {
    c == '\n' || c == '\r' || c == '\U{000B}' || c == '\U{000C}' || ('\U{001C}' <= c <= '\U{001E}')
    || c == '\U{0085}' || c == '\U{2028}' || c == '\U{2029}'
  }

  /** ASCII `\d`. */
  predicate IsDigit(c: char) { '0' <= c <= '9' }

  predicate IsAsciiLetter(c: char) { ('a' <= c <= 'z') || ('A' <= c <= 'Z') }

  predicate AllDigits(s: string) { forall i | 0 <= i < |s| :: IsDigit(s[i]) }

  /** ASCII lower-casing, the case folding of the IGNORECASE patterns used here. */
  function Lower(c: char): (r: char)
    ensures IsAsciiLetter(c) ==> 'a' <= r <= 'z'
    ensures !('A' <= c <= 'Z') ==> r == c
  {
    if 'A' <= c <= 'Z' then (c as int + 32) as char else c
  }

  function LowerString(s: string): (r: string)
    ensures |r| == |s| && forall i | 0 <= i < |s| :: r[i] == Lower(s[i])
  {
    seq(|s|, i requires 0 <= i < |s| => Lower(s[i]))
  }

  // ---------------------------------------------------------------- strip

  /** `s.lstrip()` */
  function LStrip(s: string): (r: string)
    ensures |r| <= |s| && r == s[|s| - |r|..]
    ensures r == [] || !IsSpace(r[0])
    ensures forall i | 0 <= i < |s| - |r| :: IsSpace(s[i])
  {
    if s != [] && IsSpace(s[0]) then LStrip(s[1..]) else s
  }

  /** `s.rstrip()` */
  function RStrip(s: string): (r: string)
    ensures |r| <= |s| && r == s[..|r|]
    ensures r == [] || !IsSpace(r[|r| - 1])
    ensures forall i | |r| <= i < |s| :: IsSpace(s[i])
  {
    if s != [] && IsSpace(s[|s| - 1]) then RStrip(s[..|s| - 1]) else s
  }

  /** `s.strip()` */
  function Strip(s: string): (r: string)
    ensures r == [] || (!IsSpace(r[0]) && !IsSpace(r[|r| - 1]))
    decreases |s|
  {
    if s != [] && IsSpace(s[0]) then Strip(s[1..]) else RStrip(s)
  }

  /** `strip` is `lstrip` followed by `rstrip`. */
  lemma {:induction false} StripIsBoth(s: string)
    ensures Strip(s) == RStrip(LStrip(s))
    decreases |s|
  {
    if s != [] && IsSpace(s[0]) {
      StripIsBoth(s[1..]);
    }
  }

  /** Stripping leaves nothing exactly when every character is whitespace. */
  lemma StripEmpty(s: string)
    ensures Strip(s) == [] <==> forall i | 0 <= i < |s| :: IsSpace(s[i])
  {
    StripIsBoth(s);
    var t := LStrip(s);
    if t != [] {
      assert t[0] == s[|s| - |t|] && !IsSpace(t[0]);
      assert RStrip(t) != [] && RStrip(t)[0] == t[0];
    }
  }

  /** `s.lstrip(c)` for a single character `c`. */
  function LStripChar(s: string, c: char): (r: string)
    ensures |r| <= |s| && r == s[|s| - |r|..]
    ensures r == [] || r[0] != c
    ensures forall i | 0 <= i < |s| - |r| :: s[i] == c
  {
    if s != [] && s[0] == c then LStripChar(s[1..], c) else s
  }

  /** `s.rstrip(c)` for a single character `c`. */
  function RStripChar(s: string, c: char): (r: string)
    ensures |r| <= |s| && r == s[..|r|]
    ensures r == [] || r[|r| - 1] != c
    ensures forall i | |r| <= i < |s| :: s[i] == c
  {
    if s != [] && s[|s| - 1] == c then RStripChar(s[..|s| - 1], c) else s
  }

  /** `s.strip(c)` for a single character `c`. */
  function StripChar(s: string, c: char): (r: string)
    ensures r == [] || (r[0] != c && r[|r| - 1] != c)
    ensures c !in s ==> r == s
  {
    RStripChar(LStripChar(s, c), c)
  }

  // ---------------------------------------------------------------- search

  /** `p` occurs in `s` at index `k`. */
  predicate HasAt(s: string, p: string, k: int) {
    0 <= k && k + |p| <= |s| && s[k..k + |p|] == p
  }

  /** `s.find(p, from)`: the first occurrence at or after `from`. */
  function FindFrom(s: string, p: string, from: nat): (r: Option<nat>)
    decreases |s| - from
    ensures r.Some? ==> from <= r.value && HasAt(s, p, r.value)
    ensures r.Some? ==> forall j | from <= j < r.value :: !HasAt(s, p, j)
    ensures r.None? ==> forall j | from <= j :: !HasAt(s, p, j)
  {
    if from + |p| > |s| then None
    else if s[from..from + |p|] == p then Some(from)
    else FindFrom(s, p, from + 1)
  }

  /** `p in s` */
  predicate Contains(s: string, p: string) { FindFrom(s, p, 0).Some? }

  lemma ContainsIff(s: string, p: string)
    ensures Contains(s, p) <==> exists k :: HasAt(s, p, k)
  {
  }

  /** The last occurrence of `p` at an index at most `k` (`s.rfind(p, 0, k + |p|)`). */
  function FindLastAtMost(s: string, p: string, k: int): (r: Option<nat>)
    decreases k + 1
    ensures r.Some? ==> r.value <= k && HasAt(s, p, r.value)
    ensures r.Some? ==> forall j | r.value < j <= k :: !HasAt(s, p, j)
    ensures r.None? ==> forall j | j <= k :: !HasAt(s, p, j)
  {
    if k < 0 then None
    else if HasAt(s, p, k) then Some(k)
    else FindLastAtMost(s, p, k - 1)
  }

  /** `s.rfind(p)` */
  function FindLast(s: string, p: string): (r: Option<nat>)
    ensures r.Some? ==> HasAt(s, p, r.value) && forall j | r.value < j :: !HasAt(s, p, j)
    ensures r.None? ==> forall j :: !HasAt(s, p, j)
  {
    FindLastAtMost(s, p, |s|)
  }

  /** `s.split(sep)[-1]`: the text after the last occurrence of `sep`, or all of `s`.
      (For the separators used here no two occurrences can overlap, so the last
      occurrence is also the last one Python's left-to-right split consumes.) */
  function AfterLast(s: string, sep: string): (r: string)
    ensures |r| <= |s| && r == s[|s| - |r|..]
    ensures FindLast(s, sep).None? ==> r == s
    ensures FindLast(s, sep).Some? ==> |sep| <= |s| - |r| && s[|s| - |r| - |sep|..|s| - |r|] == sep
  {
    match FindLast(s, sep)
    case None => s
    case Some(k) => s[k + |sep|..]
  }

  /** After the last occurrence of a character there is no further occurrence of it. */
  lemma AfterLastChar(s: string, c: char)
    ensures c !in AfterLast(s, [c])
    ensures c in s ==> |AfterLast(s, [c])| < |s| && s[|s| - |AfterLast(s, [c])| - 1] == c
    ensures c !in s ==> AfterLast(s, [c]) == s
  {
    var r := AfterLast(s, [c]);
    forall j ensures HasAt(s, [c], j) <==> 0 <= j < |s| && s[j] == c { HasAtChar(s, c, j); }
  }

  /** `s.rsplit(sep, 1)[0]`: the text before the last occurrence of `sep`, or all of `s`. */
  function BeforeLast(s: string, sep: string): (r: string)
    ensures |r| <= |s| && r == s[..|r|]
    ensures FindLast(s, sep).Some? ==> HasAt(s, sep, |r|) && s == r + sep + AfterLast(s, sep)
  {
    match FindLast(s, sep)
    case None => s
    case Some(k) => s[..k]
  }

  // ---------------------------------------------------------------- split

  /** The first index of `c` in `s`. */
  function IndexOf(s: string, c: char): (r: Option<nat>)
    ensures r.Some? ==> r.value < |s| && s[r.value] == c && c !in s[..r.value]
    ensures r.None? <==> c !in s
  {
    if s == [] then None
    else if s[0] == c then Some(0)
    else match IndexOf(s[1..], c)
      case None => None
      case Some(i) => Some(i + 1)
  }

  /** `sep.join(parts)` */
  function Join(parts: seq<string>, sep: string): string {
    if |parts| == 0 then ""
    else if |parts| == 1 then parts[0]
    else parts[0] + sep + Join(parts[1..], sep)
  }

  lemma JoinCons(parts: seq<string>, sep: string)
    requires |parts| >= 2
    ensures Join(parts, sep) == parts[0] + (sep + Join(parts[1..], sep))
  {
  }

  lemma HeadTail<T>(xs: seq<T>)
    requires xs != []
    ensures xs == [xs[0]] + xs[1..]
  {
  }

  /** Words joined by spaces split back into those words. */
  lemma {:induction false} JoinWords(ws: seq<string>)
    requires forall w | w in ws :: IsWord(w)
    ensures Words(Join(ws, " ")) == ws
  {
    if |ws| == 0 {
      WordsUnfold("");
    } else if |ws| == 1 {
      WordsOfWord(ws[0]);
    } else {
      var rest := Join(ws[1..], " ");
      assert forall w | w in ws[1..] :: w in ws;
      JoinWords(ws[1..]);
      JoinCons(ws, " ");
      WordsOfWord(ws[0]);
      WordsAfterSpace(rest);
      WordsAppend(ws[0], " " + rest);
      HeadTail(ws);
    }
  }

  /** Joining two non-empty lists of parts: the two joins with one separator between. */
  lemma {:induction false} JoinAppend(a: seq<string>, b: seq<string>, sep: string)
    requires a != [] && b != []
    ensures Join(a + b, sep) == Join(a, sep) + sep + Join(b, sep)
  {
    var ab := a + b;
    JoinCons(ab, sep);
    if |a| == 1 {
      assert ab[1..] == b;
    } else {
      assert ab[1..] == a[1..] + b;
      JoinAppend(a[1..], b, sep);
      JoinCons(a, sep);
    }
  }

  /** A character in neither the parts nor the separator is not in their join. */
  lemma {:induction false} JoinAvoids(parts: seq<string>, sep: string, c: char)
    requires forall w | w in parts :: c !in w
    requires c !in sep
    ensures c !in Join(parts, sep)
  {
    if |parts| >= 2 {
      assert forall w | w in parts[1..] :: w in parts;
      JoinAvoids(parts[1..], sep, c);
      JoinCons(parts, sep);
    }
  }

  /** `s.split(c)` for a one-character separator: always at least one piece, none of
      which contains the separator. */
  function Split(s: string, c: char): (r: seq<string>)
    decreases |s|
    ensures |r| >= 1
    ensures forall i | 0 <= i < |r| :: c !in r[i]
  {
    match IndexOf(s, c)
    case None => [s]
    case Some(i) => [s[..i]] + Split(s[i + 1..], c)
  }

  lemma {:induction false} SplitJoin(s: string, c: char)
    ensures Join(Split(s, c), [c]) == s
    decreases |s|
  {
    match IndexOf(s, c)
    case None =>
    case Some(i) =>
      var rest := Split(s[i + 1..], c);
      SplitJoin(s[i + 1..], c);
      var r := [s[..i]] + rest;
      assert Split(s, c) == r;
      JoinCons(r, [c]);
      assert r[0] == s[..i] && r[1..] == rest;
      assert s == s[..i] + ([c] + s[i + 1..]);
  }

  /** Splitting a join at a separator that occurs in none of the parts gives the parts
      back. */
  lemma {:induction false} JoinSplit(parts: seq<string>, c: char)
    requires parts != []
    requires forall p | p in parts :: c !in p
    ensures Split(Join(parts, [c]), c) == parts
    decreases |parts|
  {
    var p0 := parts[0];
    if |parts| == 1 {
      assert IndexOf(p0, c).None?;
    } else {
      var rest := Join(parts[1..], [c]);
      var s := Join(parts, [c]);
      JoinCons(parts, [c]);
      assert s == p0 + ([c] + rest);
      assert s[|p0|] == c;
      assert s[..|p0|] == p0;
      assert s[|p0| + 1..] == rest;
      assert IndexOf(s, c) == Some(|p0|);
      assert forall p | p in parts[1..] :: p in parts;
      JoinSplit(parts[1..], c);
      HeadTail(parts);
    }
  }

  /** The text before the last `c` of `a + [c] + b`, when `b` has no `c`, is `a`. */
  lemma BeforeLastChar(a: string, c: char, b: string)
    requires c !in b
    ensures BeforeLast(a + [c] + b, [c]) == a
  {
    var s := a + [c] + b;
    HasAtChar(s, c, |a|);
    forall j | |a| < j ensures !HasAt(s, [c], j) {
      HasAtChar(s, c, j);
      if j < |s| {
        assert s[j] == b[j - |a| - 1];
      }
    }
    assert FindLast(s, [c]) == Some(|a|);
  }

  lemma HasAtChar(s: string, c: char, j: int)
    ensures HasAt(s, [c], j) <==> 0 <= j < |s| && s[j] == c
  {
    if 0 <= j < |s| { assert s[j..j + 1] == [s[j]]; }
  }

  /** Dropping everything up to and including an occurrence of `c` keeps the text after
      the last `c`. */
  lemma AfterLastDrop(s: string, c: char, i: nat)
    requires i < |s| && s[i] == c
    ensures AfterLast(s, [c]) == AfterLast(s[i + 1..], [c])
  {
    var t := s[i + 1..];
    HasAtChar(s, c, i);
    match FindLast(t, [c])
    case None =>
      forall j | i < j ensures !HasAt(s, [c], j) {
        HasAtChar(s, c, j);
        HasAtChar(t, c, j - i - 1);
      }
      assert FindLast(s, [c]) == Some(i);
    case Some(k) =>
      HasAtChar(t, c, k);
      HasAtChar(s, c, k + i + 1);
      forall j | k + i + 1 < j ensures !HasAt(s, [c], j) {
        HasAtChar(s, c, j);
        HasAtChar(t, c, j - i - 1);
      }
      assert FindLast(s, [c]) == Some(k + i + 1);
  }


  /** The last piece of `s.split(c)` is the text after the last `c`, which is what
      `s.rpartition(c)[2]` returns. */
  lemma {:induction false} LastSplitIsAfterLast(s: string, c: char)
    ensures Split(s, c)[|Split(s, c)| - 1] == AfterLast(s, [c])
    decreases |s|
  {
    match IndexOf(s, c)
    case None =>
      SplitNoChar(s, c);
    case Some(i) =>
      LastSplitIsAfterLast(s[i + 1..], c);
      SplitAfterStep(s, c, i);
  }

  /** The step of the induction: the claim for what follows the first `c` gives it for `s`. */
  lemma SplitAfterStep(s: string, c: char, i: nat)
    requires IndexOf(s, c) == Some(i)
    requires var t := s[i + 1..]; Split(t, c)[|Split(t, c)| - 1] == AfterLast(t, [c])
    ensures Split(s, c)[|Split(s, c)| - 1] == AfterLast(s, [c])
  {
    SplitLastStep(s, c, i);
    AfterLastDrop(s, c, i);
  }

  lemma SplitNoChar(s: string, c: char)
    requires IndexOf(s, c).None?
    ensures Split(s, c) == [s] && AfterLast(s, [c]) == s
  {
    forall j ensures !HasAt(s, [c], j) { HasAtChar(s, c, j); }
  }

  /** The last piece of a split is the last piece of the split of what follows the first `c`. */
  lemma SplitLastStep(s: string, c: char, i: nat)
    requires IndexOf(s, c) == Some(i)
    ensures var rest := Split(s[i + 1..], c);
      Split(s, c)[|Split(s, c)| - 1] == rest[|rest| - 1]
  {
    var rest := Split(s[i + 1..], c);
    assert Split(s, c) == [s[..i]] + rest;
  }

  // ---------------------------------------------------------------- words

  /** Length of the leading run of non-space characters. */
  function NonSpacePrefix(s: string): (n: nat)
    ensures n <= |s| && (n < |s| ==> IsSpace(s[n]))
    ensures forall i | 0 <= i < n :: !IsSpace(s[i])
  {
    if s == [] || IsSpace(s[0]) then 0 else 1 + NonSpacePrefix(s[1..])
  }

  predicate IsWord(w: string) { w != [] && forall j | 0 <= j < |w| :: !IsSpace(w[j]) }

  /** A non-empty run of visible ASCII characters is a word. */
  lemma VisibleWord(w: string)
    requires w != [] && forall j | 0 <= j < |w| :: '!' <= w[j] <= '~'
    ensures IsWord(w)
  {
  }

  /** `s.split()`: the maximal runs of non-space characters. */
  function Words(s: string): (r: seq<string>)
    decreases |s|
    ensures forall w | w in r :: IsWord(w)
    ensures r == [] <==> LStrip(s) == []
  {
    var t := LStrip(s);
    if t == [] then []
    else
      var n := NonSpacePrefix(t);
      assert n > 0;
      var w := t[..n];
      assert IsWord(w) by { forall j | 0 <= j < |w| ensures !IsSpace(w[j]) { assert w[j] == t[j]; } }
      [w] + Words(t[n..])
  }

  lemma {:induction false} LStripAppend(x: string, y: string)
    ensures LStrip(x) != [] ==> LStrip(x + y) == LStrip(x) + y
    ensures LStrip(x) == [] ==> LStrip(x + y) == LStrip(y)
    decreases |x|
  {
    if x != [] {
      assert (x + y)[0] == x[0] && (x + y)[1..] == x[1..] + y;
      if IsSpace(x[0]) {
        LStripAppend(x[1..], y);
      }
    } else {
      assert x + y == y;
    }
  }

  lemma {:induction false} NonSpacePrefixAppend(t: string, y: string)
    requires y == [] || IsSpace(y[0])
    ensures NonSpacePrefix(t + y) == NonSpacePrefix(t)
    decreases |t|
  {
    if t == [] {
      assert t + y == y;
    } else {
      assert (t + y)[0] == t[0] && (t + y)[1..] == t[1..] + y;
      if !IsSpace(t[0]) {
        NonSpacePrefixAppend(t[1..], y);
      }
    }
  }

  lemma SliceAppend(a: string, b: string, n: nat)
    requires n <= |a|
    ensures (a + b)[..n] == a[..n] && (a + b)[n..] == a[n..] + b
  {
  }

  lemma ConsAssoc<T>(a: T, b: seq<T>, c: seq<T>)
    ensures [a] + (b + c) == ([a] + b) + c
  {
  }

  /** Appending text that starts with a space (or nothing) appends its words. */
  lemma {:induction false} WordsAppend(x: string, y: string)
    requires y == [] || IsSpace(y[0])
    ensures Words(x + y) == Words(x) + Words(y)
    decreases |x|
  {
    var t := LStrip(x);
    LStripAppend(x, y);
    WordsUnfold(x);
    WordsUnfold(x + y);
    if t != [] {
      var n := NonSpacePrefix(t);
      NonSpacePrefixAppend(t, y);
      SliceAppend(t, y, n);
      var rest := t[n..];
      WordsAppend(rest, y);
      assert Words(x + y) == [t[..n]] + (Words(rest) + Words(y));
      assert Words(x) == [t[..n]] + Words(rest);
      ConsAssoc(t[..n], Words(rest), Words(y));
    } else {
      WordsUnfold(y);
      assert Words(x) == [];
      assert Words(x + y) == Words(y);
    }
  }

  lemma WordsUnfold(s: string)
    ensures LStrip(s) == [] ==> Words(s) == []
    ensures LStrip(s) != [] ==>
      Words(s) == [LStrip(s)[..NonSpacePrefix(LStrip(s))]] + Words(LStrip(s)[NonSpacePrefix(LStrip(s))..])
  {
  }

  /** One space and one word read back as that word. */
  lemma WordsOfSpacedWord(w: string)
    requires IsWord(w)
    ensures Words(" " + w) == [w]
  {
    LStripSpaced(w);
    NonSpacePrefixWord(w);
    WordsStep(" " + w, w, |w|);
    assert w[..|w|] == w && w[|w|..] == [];
    WordsUnfold([]);
  }

  lemma LStripSpaced(w: string)
    requires IsWord(w)
    ensures LStrip(" " + w) == w
  {
    assert (" " + w)[1..] == w;
  }

  lemma NonSpacePrefixWord(w: string)
    requires IsWord(w)
    ensures NonSpacePrefix(w) == |w|
  {
  }

  /** The first word of `s` ends where the stripped text's non-space prefix ends. */
  lemma WordsStep(s: string, t: string, n: nat)
    requires LStrip(s) == t && t != [] && NonSpacePrefix(t) == n
    ensures Words(s) == [t[..n]] + Words(t[n..])
  {
  }

  /** A leading space changes nothing about the words. */
  lemma WordsAfterSpace(x: string)
    ensures Words(" " + x) == Words(x)
  {
    assert (" " + x)[1..] == x;
    assert LStrip(" " + x) == LStrip(x);
    WordsUnfold(" " + x);
    WordsUnfold(x);
  }

  lemma WordsOfWord(w: string)
    requires IsWord(w)
    ensures Words(w) == [w]
  {
    WordsOfSpacedWord(w);
    WordsAfterSpace(w);
  }

  // ---------------------------------------------------------------- lines

  /** Length of the first line of `s`, including its line break. */
  function FirstLineLength(s: string): (k: nat)
    requires s != []
    ensures 0 < k <= |s|
    ensures forall i | 0 <= i < k - 1 :: !IsLineBreak(s[i]) || (i == k - 2 && s[i] == '\r' && s[i + 1] == '\n')
  {
    if IsLineBreak(s[0]) then (if s[0] == '\r' && |s| > 1 && s[1] == '\n' then 2 else 1)
    else if |s| == 1 then 1
    else 1 + FirstLineLength(s[1..])
  }

  /** `s.splitlines(keepends=True)` */
  function SplitLinesKeepEnds(s: string): (r: seq<string>)
    decreases |s|
    ensures forall i | 0 <= i < |r| :: r[i] != []
  {
    if s == [] then [] else
    var k := FirstLineLength(s);
    [s[..k]] + SplitLinesKeepEnds(s[k..])
  }

  function Concat(ls: seq<string>): string {
    if ls == [] then "" else ls[0] + Concat(ls[1..])
  }

  lemma ConcatAppend(a: seq<string>, b: seq<string>)
    ensures Concat(a + b) == Concat(a) + Concat(b)
  {
    if a != [] {
      assert (a + b)[0] == a[0] && (a + b)[1..] == a[1..] + b;
      ConcatAppend(a[1..], b);
    } else {
      assert a + b == b;
    }
  }

  /** Keeping the line ends loses nothing: the lines concatenate back to the text. */
  lemma {:induction false} SplitLinesKeepEndsConcat(s: string)
    ensures Concat(SplitLinesKeepEnds(s)) == s
    decreases |s|
  {
    if s != [] {
      var k := FirstLineLength(s);
      SplitLinesKeepEndsConcat(s[k..]);
      assert s == s[..k] + s[k..];
    }
  }

  /** A line without its line break. */
  function DropLineEnd(line: string): (r: string)
    ensures |r| <= |line| && r == line[..|r|]
  {
    if |line| >= 2 && line[|line| - 2..] == "\r\n" then line[..|line| - 2]
    else if line != [] && IsLineBreak(line[|line| - 1]) then line[..|line| - 1]
    else line
  }

  /** `s.splitlines()` */
  function SplitLines(s: string): (r: seq<string>)
    ensures |r| == |SplitLinesKeepEnds(s)|
    ensures forall i | 0 <= i < |r| :: r[i] == DropLineEnd(SplitLinesKeepEnds(s)[i])
  {
    var ls := SplitLinesKeepEnds(s);
    seq(|ls|, i requires 0 <= i < |ls| => DropLineEnd(ls[i]))
  }

  /** `xs[-n:]` for `n >= 0` (the whole list when it is shorter than `n`). */
  function LastN<T>(xs: seq<T>, n: nat): (r: seq<T>)
    ensures |r| == if |xs| < n then |xs| else n
    ensures r == xs[|xs| - |r|..]
  {
    if n == 0 then []  // Python's xs[-0:] is the whole list, but every caller passes n > 0
    else if |xs| <= n then xs else xs[|xs| - n..]
  }

  // ---------------------------------------------------------------- numbers

  /** The value of a string of ASCII digits, as `int()` reads it. */
  function DigitsValue(s: string): nat
    requires AllDigits(s)
  {
    if s == [] then 0 else 10 * DigitsValue(s[..|s| - 1]) + (s[|s| - 1] as int - '0' as int)
  }

  /** The length of the run of ASCII digits starting at `i` (what a greedy `\d+` or `\d*` takes). */
  function DigitRun(s: string, i: nat): (n: nat)
    requires i <= |s|
    ensures i + n <= |s|
    decreases |s| - i
  {
    if i < |s| && IsDigit(s[i]) then 1 + DigitRun(s, i + 1) else 0
  }

  /** The run holds only digits, and a non-digit (or the end) closes it. */
  lemma {:induction false} DigitRunSpec(s: string, i: nat)
    requires i <= |s|
    ensures var n := DigitRun(s, i);
      && (i + n == |s| || !IsDigit(s[i + n]))
      && forall t | i <= t < i + n :: IsDigit(s[t])
    decreases |s| - i
  {
    if i < |s| && IsDigit(s[i]) {
      DigitRunSpec(s, i + 1);
    }
  }

  /** A run of digits that ends at a non-digit is exactly what `DigitRun` finds. */
  lemma {:induction false} DigitRunExact(s: string, i: nat, n: nat)
    requires i + n <= |s|
    requires forall t | i <= t < i + n :: IsDigit(s[t])
    requires i + n == |s| || !IsDigit(s[i + n])
    ensures DigitRun(s, i) == n
    decreases n
  {
    if n > 0 {
      DigitRunExact(s, i + 1, n - 1);
    }
  }

  /** The digits of a run, read as a number. */
  function RunValue(s: string, i: nat): nat
    requires i <= |s|
  {
    var run := s[i..i + DigitRun(s, i)];
    assert AllDigits(run) by {
      DigitRunSpec(s, i);
      forall t | 0 <= t < |run| ensures IsDigit(run[t]) { assert run[t] == s[i + t]; }
    }
    DigitsValue(run)
  }

  /** `str(n)` for a natural number. */
  function NatToString(n: nat): (r: string)
    ensures r != [] && AllDigits(r) && DigitsValue(r) == n
    ensures |r| > 1 ==> r[0] != '0'
  {
    if n < 10 then [('0' as int + n) as char]
    else
      var p := NatToString(n / 10);
      var r := p + [('0' as int + n % 10) as char];
      assert r[..|r| - 1] == p;
      r
  }

  /** `str(i)` for an integer. */
  function IntToString(i: int): (r: string)
    ensures i < 0 ==> r == "-" + NatToString(-i)
    ensures i >= 0 ==> r == NatToString(i)
  {
    if i < 0 then "-" + NatToString(-i) else NatToString(i)
  }

  lemma StripDigits(s: string)
    ensures AllDigits(s) && s != [] ==> Strip(s) == s
  {
    if AllDigits(s) && s != [] {
      assert !IsSpace(s[0]) && !IsSpace(s[|s| - 1]);
      assert LStrip(s) == s;
      assert RStrip(s) == s;
    }
  }

  /** `int(s)` for the forms the scripts meet: surrounding whitespace, an optional sign and
      ASCII digits. Anything else is a ValueError (None). */
  function ParseInt(s: string): (r: Option<int>)
    ensures AllDigits(s) && s != [] ==> r == Some(DigitsValue(s))
  {
    var t := Strip(s);
    StripDigits(s);
    if t != [] && (t[0] == '-' || t[0] == '+') && |t| > 1 && AllDigits(t[1..]) then
      var m: int := DigitsValue(t[1..]);
      var v: int := if t[0] == '-' then -m else m;
      Some(v)
    else if t != [] && AllDigits(t) then Some(DigitsValue(t))
    else None
  }

  // ---------------------------------------------------------------- shell

  /** Characters `shlex.quote` leaves unquoted: `[\w@%+=:,./-]` in ASCII. */
  predicate ShellSafe(c: char) {
    IsAsciiLetter(c) || IsDigit(c) || c == '_' || c == '@' || c == '%' || c == '+' || c == '='
    || c == ':' || c == ',' || c == '.' || c == '/' || c == '-'
  }

  function EscapeQuotes(s: string): string {
    if s == [] then ""
    else (if s[0] == '\'' then "'\"'\"'" else [s[0]]) + EscapeQuotes(s[1..])
  }

  /** Text without single quotes is left as it is. */
  lemma {:induction false} EscapeQuotesNone(s: string)
    requires forall i | 0 <= i < |s| :: s[i] != '\''
    ensures EscapeQuotes(s) == s
  {
    if s != [] {
      EscapeQuotesNone(s[1..]);
      assert s == [s[0]] + s[1..];
    }
  }

  /** `shlex.quote(s)` */
  function ShellQuote(s: string): (r: string)
    ensures s == [] ==> r == "''"
    ensures (s != [] && forall i | 0 <= i < |s| :: ShellSafe(s[i])) ==> r == s
    ensures (exists i | 0 <= i < |s| :: !ShellSafe(s[i])) ==> |r| >= 2 && r[0] == '\'' && r[|r| - 1] == '\''
  {
    if s == [] then "''"
    else if forall i | 0 <= i < |s| :: ShellSafe(s[i]) then s
    else "'" + EscapeQuotes(s) + "'"
  }

  /** `shlex.join(args)` */
  function ShellJoin(args: seq<string>): string {
    Join(seq(|args|, i requires 0 <= i < |args| => ShellQuote(args[i])), " ")
  }
}
