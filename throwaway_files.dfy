/** The throwaway-files bar chart: the label colour chosen for a bar colour, and the count
    of files created before a threshold round and never touched again, split by whether
    they sit at the repository root. */
module ThrowawayFiles {
  import opened Wrappers
  import opened Text
  import opened FileHistory
  import opened CodeReuse

  // ---------------------------------------------------------------- label colour

  predicate IsHexDigit(c: char) { IsDigit(c) || ('a' <= c <= 'f') || ('A' <= c <= 'F') }

  predicate AllHex(s: string) { forall i | 0 <= i < |s| :: IsHexDigit(s[i]) }

  function HexDigitValue(c: char): (v: nat)
    requires IsHexDigit(c)
    ensures v < 16
  {
    if IsDigit(c) then c as int - '0' as int
    else if 'a' <= c <= 'f' then c as int - 'a' as int + 10
    else c as int - 'A' as int + 10
  }

  /** The value of a string of hexadecimal digits. */
  function HexValue(s: string): nat
    requires AllHex(s)
  {
    if s == [] then 0 else 16 * HexValue(s[..|s| - 1]) + HexDigitValue(s[|s| - 1])
  }

  /** `int(s, 16)` for the two-character slices the colour parser reads: surrounding
      whitespace, an optional sign and ASCII hexadecimal digits. A slice this short cannot
      hold a `0x` prefix with digits or an underscore between digits; anything else is a
      ValueError (None). */
  function ParseHex(s: string): (r: Option<int>)
    ensures AllHex(s) && s != [] ==> r == Some(HexValue(s))
  {
    var t := Strip(s);
    StripHex(s);
    if t != [] && (t[0] == '-' || t[0] == '+') && |t| > 1 && AllHex(t[1..]) then
      var m: int := HexValue(t[1..]);
      Some(if t[0] == '-' then -m else m)
    else if t != [] && AllHex(t) then Some(HexValue(t))
    else None
  }

  lemma StripHex(s: string)
    ensures AllHex(s) && s != [] ==> Strip(s) == s
  {
    if AllHex(s) && s != [] {
      assert !IsSpace(s[0]) && !IsSpace(s[|s| - 1]);
      assert LStrip(s) == s;
      assert RStrip(s) == s;
    }
  }

  /** Python's `s[i:j]` for `0 <= i <= j`: the bounds are clipped to the string. */
  function Slice(s: string, i: nat, j: nat): (r: string)
    requires i <= j
    ensures |r| <= j - i
  {
    if i >= |s| then [] else if j >= |s| then s[i..] else s[i..j]
  }

  /** `(0.299 r + 0.587 g + 0.114 b) / 255`, in exact arithmetic. */
  function Luminance(r: int, g: int, b: int): real {
    (0.299 * r as real + 0.587 * g as real + 0.114 * b as real) / 255.0
  }

  /** `get_text_color_for_background`: leading '#' removed, three two-digit channels parsed,
      "white" on a background darker than one half. */
  function TextColor(hexColor: string): Result<string> {
    var s := LStripChar(hexColor, '#');
    var r, g, b := ParseHex(Slice(s, 0, 2)), ParseHex(Slice(s, 2, 4)), ParseHex(Slice(s, 4, 6));
    if r.None? || g.None? || b.None? then Fail(ValueError("invalid literal for int() with base 16"))
    else Ok(if Luminance(r.value, g.value, b.value) < 0.5 then "white" else "black")
  }

  /** Luminance below one half, stated on integer weights. */
  lemma DarkIff(r: int, g: int, b: int)
    ensures Luminance(r, g, b) < 0.5 <==> 299 * r + 587 * g + 114 * b < 127500
  {
    var w := (299 * r + 587 * g + 114 * b) as real;
    assert Luminance(r, g, b) == w / 255000.0;
  }

  /** The lower-case hexadecimal digit of `d`. */
  function HexChar(d: nat): (c: char)
    requires d < 16
    ensures IsHexDigit(c) && HexDigitValue(c) == d
  {
    if d < 10 then ('0' as int + d) as char else ('a' as int + d - 10) as char
  }

  /** The two lower-case hexadecimal digits of a byte. */
  function HexByte(v: nat): (s: string)
    requires v < 256
    ensures |s| == 2 && AllHex(s)
  {
    [HexChar(v / 16), HexChar(v % 16)]
  }

  lemma HexByteValue(v: nat)
    requires v < 256
    ensures ParseHex(HexByte(v)) == Some(v)
  {
    var hi, lo := v / 16, v % 16;
    var s := HexByte(v);
    assert s[..1] == [HexChar(hi)];
    assert HexValue([HexChar(hi)]) == hi by {
      assert [HexChar(hi)][..0] == [];
    }
    assert HexValue(s) == 16 * hi + lo;
    assert v == 16 * hi + lo;
    assert ParseHex(s) == Some(HexValue(s));
    assert HexValue(s) == v;
  }

  /** The colour written as `#rrggbb`. */
  function Rgb(r: nat, g: nat, b: nat): string
    requires r < 256 && g < 256 && b < 256
  {
    "#" + HexByte(r) + HexByte(g) + HexByte(b)
  }

  /** Every `#rrggbb` colour parses, and gets white text exactly when its weighted channel
      sum is below half of the maximum. */
  lemma TextColorOfRgb(r: nat, g: nat, b: nat)
    requires r < 256 && g < 256 && b < 256
    ensures TextColor(Rgb(r, g, b))
            == Ok(if 299 * r + 587 * g + 114 * b < 127500 then "white" else "black")
  {
    RgbChannels(r, g, b);
    HexByteValue(r);
    HexByteValue(g);
    HexByteValue(b);
    TextColorOf(Rgb(r, g, b), r, g, b);
  }

  /** After its '#', an `#rrggbb` colour splits into its three channel texts. */
  lemma RgbChannels(r: nat, g: nat, b: nat)
    requires r < 256 && g < 256 && b < 256
    ensures var s := LStripChar(Rgb(r, g, b), '#');
      Slice(s, 0, 2) == HexByte(r) && Slice(s, 2, 4) == HexByte(g) && Slice(s, 4, 6) == HexByte(b)
  {
    var x := Rgb(r, g, b);
    var s := HexByte(r) + HexByte(g) + HexByte(b);
    assert x == "#" + s && x[1..] == s;
    assert LStripChar(x, '#') == s by {
      assert s[0] != '#';
    }
  }

  /** A colour whose three channels parse gets the text colour of its luminance. */
  lemma TextColorOf(hexColor: string, r: int, g: int, b: int)
    requires var s := LStripChar(hexColor, '#');
      ParseHex(Slice(s, 0, 2)) == Some(r) && ParseHex(Slice(s, 2, 4)) == Some(g)
      && ParseHex(Slice(s, 4, 6)) == Some(b)
    ensures TextColor(hexColor) == Ok(if 299 * r + 587 * g + 114 * b < 127500 then "white" else "black")
  {
    DarkIff(r, g, b);
  }

  /** Darkening a colour channel by channel never turns white text black. */
  lemma DarkerStaysWhite(r: nat, g: nat, b: nat, r': nat, g': nat, b': nat)
    requires r < 256 && g < 256 && b < 256
    requires r' <= r && g' <= g && b' <= b
    requires TextColor(Rgb(r, g, b)) == Ok("white")
    ensures TextColor(Rgb(r', g', b')) == Ok("white")
  {
    TextColorOfRgb(r, g, b);
    TextColorOfRgb(r', g', b');
  }

  /** Black backgrounds get white text. */
  lemma BlackGetsWhite()
    ensures TextColor("#000000") == Ok("white")
  {
    assert HexByte(0) == "00";
    assert Rgb(0, 0, 0) == "#000000";
    TextColorOfRgb(0, 0, 0);
  }

  /** White backgrounds get black text. */
  lemma WhiteGetsBlack()
    ensures TextColor("#ffffff") == Ok("black")
  {
    assert HexChar(15) == 'f';
    assert HexByte(255) == "ff";
    assert Rgb(255, 255, 255) == "#ffffff";
    TextColorOfRgb(255, 255, 255);
  }

  /** A colour with fewer than five characters after its leading '#' has an empty blue
      channel, which `int` rejects. */
  lemma ShortColorFails(hexColor: string)
    requires |LStripChar(hexColor, '#')| < 5
    ensures TextColor(hexColor).Fail?
  {
    var s := LStripChar(hexColor, '#');
    assert Slice(s, 4, 6) == [];
    assert Strip([]) == [];
    assert ParseHex(Slice(s, 4, 6)).None?;
  }

  // ---------------------------------------------------------------- throwaway files

  /** Some entry of the history, of any kind, lies after round `c`. */
  predicate LaterEntry(hist: seq<Entry>, c: int) {
    exists k | 0 <= k < |hist| :: hist[k].round > c
  }

  /** A file created before round `t` with no entry after its creation round. */
  predicate Throwaway(hist: seq<Entry>, t: int) {
    CreationRound(hist).Some? && CreationRound(hist).value < t
    && !LaterEntry(hist, CreationRound(hist).value)
  }

  /** The number of throwaway files at the root (`root`) or below it (`!root`). */
  function ThrowawayCount(h: History, t: int, root: bool): nat {
    if h == [] then 0
    else (if Throwaway(h[0].1, t) && ('/' !in h[0].0) == root then 1 else 0) + ThrowawayCount(h[1..], t, root)
  }

  /** The search for an entry after the creation round. */
  method LaterEntryScan(hist: seq<Entry>, c: int) returns (used: bool)
    ensures used <==> LaterEntry(hist, c)
  {
    for i := 0 to |hist|
      invariant forall k | 0 <= k < i :: hist[k].round <= c
    {
      if hist[i].round > c {
        return true;
      }
    }
    return false;
  }

  /** `calculate_throwaway_files`: the (root, non-root) counts of throwaway files. */
  method CountThrowawayFiles(h: History, t: int) returns (root: nat, nonRoot: nat)
    ensures root == ThrowawayCount(h, t, true) && nonRoot == ThrowawayCount(h, t, false)
  {
    root, nonRoot := 0, 0;
    for i := 0 to |h|
      invariant root + ThrowawayCount(h[i..], t, true) == ThrowawayCount(h, t, true)
      invariant nonRoot + ThrowawayCount(h[i..], t, false) == ThrowawayCount(h, t, false)
    {
      assert h[i..][1..] == h[i + 1..];
      var (name, hist) := h[i];
      if hist == [] {
        continue;
      }
      var c := FirstCreation(hist);
      if c.None? {
        continue;
      }
      if c.value >= t {
        continue;
      }
      var used := LaterEntryScan(hist, c.value);
      if !used {
        if '/' !in name {
          root := root + 1;
        } else {
          nonRoot := nonRoot + 1;
        }
      }
    }
    assert h[|h|..] == [];
  }

  /** Each file is counted at most once, at the root or below it. */
  lemma {:induction false} ThrowawayAtMostFiles(h: History, t: int)
    ensures ThrowawayCount(h, t, true) + ThrowawayCount(h, t, false) <= |h|
  {
    if h != [] {
      ThrowawayAtMostFiles(h[1..], t);
    }
  }

  /** A throwaway file has a first creation entry before `t`, and no entry of the file lies
      after that entry's round. */
  lemma ThrowawayIff(hist: seq<Entry>, t: int)
    ensures Throwaway(hist, t) <==>
              exists i | 0 <= i < |hist| ::
                hist[i].op == Created && (forall j | 0 <= j < i :: hist[j].op != Created)
                && hist[i].round < t && forall k | 0 <= k < |hist| :: hist[k].round <= hist[i].round
  {
    CreationRoundSpec(hist);
    if exists i | 0 <= i < |hist| ::
         hist[i].op == Created && (forall j | 0 <= j < i :: hist[j].op != Created)
         && hist[i].round < t && forall k | 0 <= k < |hist| :: hist[k].round <= hist[i].round
    {
      var i :| 0 <= i < |hist| &&
         hist[i].op == Created && (forall j | 0 <= j < i :: hist[j].op != Created)
         && hist[i].round < t && forall k | 0 <= k < |hist| :: hist[k].round <= hist[i].round;
      var i' :| 0 <= i' < |hist| && hist[i'].op == Created && hist[i'].round == CreationRound(hist).value
                && forall j | 0 <= j < i' :: hist[j].op != Created;
      assert i == i';
    }
  }

  /** A throwaway file is never reused after its creation. */
  lemma ThrowawayNotReused(hist: seq<Entry>, t: int)
    requires Throwaway(hist, t)
    ensures !ReusedAfter(hist, CreationRound(hist).value)
  {
    ReusedAfterIff(hist, CreationRound(hist).value);
  }

  /** A later threshold never lowers the counts. */
  lemma {:induction false} ThresholdMonotone(h: History, t: int, t': int, root: bool)
    requires t <= t'
    ensures ThrowawayCount(h, t, root) <= ThrowawayCount(h, t', root)
  {
    if h != [] {
      ThresholdMonotone(h[1..], t, t', root);
    }
  }
}
