/** The bar-and-beat progress strings of the two terminal front ends (chordflow_tui/src/ui.rs
    and src/app.rs): one square per beat, the bars separated by " | ", each square coloured by
    where the metronome stands. Both builders are loops; this module holds the value they
    build and what is proved about it. */
module MetronomeGrid {
  import opened RustInt

  const Filled: char := '⬛'
  const Hollow: char := '⬜'
  const Separator: string := " | "

  /** The first `width` squares of bar `bar`, coloured by `cell`. */
  function Row(bar: nat, width: nat, cell: (nat, nat) -> char): string
  {
    if width == 0 then "" else Row(bar, width - 1, cell) + [cell(bar, width - 1)]
  }

  /** The first `bars` bars of `width` squares each, a separator before every bar but the
      first. */
  function Grid(bars: nat, width: nat, cell: (nat, nat) -> char): string
  {
    if bars == 0 then ""
    else Grid(bars - 1, width, cell) + (if bars > 1 then Separator else "") + Row(bars - 1, width, cell)
  }

  /** The squares of a progress display: `on` up to and including the current beat of the
      current bar, `off` after it. */
  function Progress(currentBar: nat, currentBeat: nat, on: char, off: char): (nat, nat) -> char
  {
    (bar: nat, beat: nat) => if bar < currentBar || (bar == currentBar && beat <= currentBeat) then on else off
  }

  lemma {:induction false} RowShape(bar: nat, width: nat, cell: (nat, nat) -> char)
    ensures |Row(bar, width, cell)| == width
    ensures forall t :: 0 <= t < width ==> Row(bar, width, cell)[t] == cell(bar, t)
  {
    if width > 0 {
      RowShape(bar, width - 1, cell);
    }
  }

  /** The display is empty without bars, and otherwise holds `width` squares per bar and three
      characters per separator. */
  lemma {:induction false} GridLength(bars: nat, width: nat, cell: (nat, nat) -> char)
    ensures |Grid(bars, width, cell)| == if bars == 0 then 0 else bars * (width + 3) - 3
  {
    if bars > 0 {
      GridLength(bars - 1, width, cell);
      RowShape(bars - 1, width, cell);
      assert bars * (width + 3) == (bars - 1) * (width + 3) + width + 3;
    }
  }

  /** The display of fewer bars is a prefix of the display of more. */
  lemma {:induction false} GridPrefix(k: nat, bars: nat, width: nat, cell: (nat, nat) -> char)
    requires k <= bars
    ensures |Grid(k, width, cell)| <= |Grid(bars, width, cell)|
    ensures Grid(k, width, cell) == Grid(bars, width, cell)[..|Grid(k, width, cell)|]
  {
    if k < bars {
      GridPrefix(k, bars - 1, width, cell);
      var g := Grid(bars - 1, width, cell);
      assert Grid(bars, width, cell)[..|g|] == g;
    }
  }

  /** The squares and separator before bar `bar` take `bar * (width + 3)` characters. */
  lemma BarOffset(bars: nat, width: nat, cell: (nat, nat) -> char, bar: nat)
    requires bar < bars
    ensures |Grid(bar + 1, width, cell)| <= |Grid(bars, width, cell)|
    ensures Grid(bar + 1, width, cell) == Grid(bars, width, cell)[..|Grid(bar + 1, width, cell)|]
    ensures |Grid(bar, width, cell) + (if bar > 0 then Separator else "")| == bar * (width + 3)
    ensures Grid(bar + 1, width, cell) == Grid(bar, width, cell) + (if bar > 0 then Separator else "") + Row(bar, width, cell)
    ensures |Row(bar, width, cell)| == width
  {
    GridPrefix(bar + 1, bars, width, cell);
    GridLength(bar, width, cell);
    RowShape(bar, width, cell);
  }

  /** Square `beat` of bar `bar` sits at `bar * (width + 3) + beat`. */
  lemma SquareAt(bars: nat, width: nat, cell: (nat, nat) -> char, bar: nat, beat: nat)
    requires bar < bars && beat < width
    ensures bar * (width + 3) + beat < |Grid(bars, width, cell)|
    ensures Grid(bars, width, cell)[bar * (width + 3) + beat] == cell(bar, beat)
  {
    BarOffset(bars, width, cell, bar);
    RowShape(bar, width, cell);
    var lead := Grid(bar, width, cell) + (if bar > 0 then Separator else "");
    var i := bar * (width + 3) + beat;
    assert Grid(bars, width, cell)[i] == Grid(bar + 1, width, cell)[i] == Row(bar, width, cell)[beat];
  }

  /** The separator before bar `bar` sits just before its first square. */
  lemma SeparatorAt(bars: nat, width: nat, cell: (nat, nat) -> char, bar: nat)
    requires 0 < bar < bars
    ensures bar * (width + 3) <= |Grid(bars, width, cell)|
    ensures Grid(bars, width, cell)[bar * (width + 3) - 3..bar * (width + 3)] == Separator
  {
    BarOffset(bars, width, cell, bar);
    var i := bar * (width + 3);
    var g := Grid(bar + 1, width, cell);
    assert g[i - 3..i] == Separator;
    assert Grid(bars, width, cell)[i - 3..i] == g[i - 3..i];
  }

  /** Squares whose colours agree give the same display. */
  lemma {:induction false} GridCongruent(bars: nat, width: nat, c1: (nat, nat) -> char, c2: (nat, nat) -> char)
    requires forall bar: nat, beat: nat :: bar < bars && beat < width ==> c1(bar, beat) == c2(bar, beat)
    ensures Grid(bars, width, c1) == Grid(bars, width, c2)
  {
    if bars > 0 {
      GridCongruent(bars - 1, width, c1, c2);
      RowCongruent(bars - 1, width, width, c1, c2);
    }
  }

  lemma {:induction false} RowCongruent(bar: nat, k: nat, width: nat, c1: (nat, nat) -> char, c2: (nat, nat) -> char)
    requires k <= width
    requires forall beat: nat :: beat < width ==> c1(bar, beat) == c2(bar, beat)
    ensures Row(bar, k, c1) == Row(bar, k, c2)
  {
    if k > 0 {
      RowCongruent(bar, k - 1, width, c1, c2);
    }
  }

  /** How often `ch` occurs in `s`. */
  function Count(s: string, ch: char): nat
  {
    if s == [] then 0 else Count(s[..|s| - 1], ch) + (if s[|s| - 1] == ch then 1 else 0)
  }

  /** Counts add up over a concatenation. */
  lemma {:induction false} CountConcat(a: string, b: string, ch: char)
    ensures Count(a + b, ch) == Count(a, ch) + Count(b, ch)
  {
    if b == [] {
      assert a + b == a;
    } else {
      CountConcat(a, b[..|b| - 1], ch);
      assert (a + b)[..|a + b| - 1] == a + b[..|b| - 1];
    }
  }

  /** The separator holds one '|' and two spaces. */
  lemma SeparatorCount(ch: char)
    ensures Count(Separator, ch) == (if ch == '|' then 1 else 0) + (if ch == ' ' then 2 else 0)
  {
    var s0: string := [];
    var s1 := s0 + [' '];
    var s2 := s1 + ['|'];
    var s3 := s2 + [' '];
    assert s3 == Separator;
    CountSnoc(s0, ' ', ch);
    CountSnoc(s1, '|', ch);
    CountSnoc(s2, ' ', ch);
  }

  /** Appending one character counts it. */
  lemma CountSnoc(a: string, c: char, ch: char)
    ensures Count(a + [c], ch) == Count(a, ch) + (if c == ch then 1 else 0)
  {
    assert (a + [c])[..|a|] == a;
  }

  /** A row of a progress display has `on` for every beat of a finished bar, for the beats up
      to the current one in the current bar, and for none later. */
  lemma {:induction false} RowOn(bar: nat, k: nat, currentBar: nat, currentBeat: nat, on: char, off: char)
    requires on != off
    ensures Count(Row(bar, k, Progress(currentBar, currentBeat, on, off)), on)
      == if bar < currentBar then k else if bar == currentBar then Min(k, currentBeat + 1) else 0
  {
    if k > 0 {
      RowOn(bar, k - 1, currentBar, currentBeat, on, off);
      var cell := Progress(currentBar, currentBeat, on, off);
      CountSnoc(Row(bar, k - 1, cell), cell(bar, k - 1), on);
    }
  }

  function Min(a: nat, b: nat): nat
  {
    if a <= b then a else b
  }

  /** Every square is `on` or `off`, so the display has bars * width squares, and one '|' per
      separator. */
  lemma {:induction false} GridSquares(bars: nat, width: nat, currentBar: nat, currentBeat: nat, on: char, off: char)
    requires on != off && on != '|' && off != '|' && on != ' ' && off != ' '
    ensures var g := Grid(bars, width, Progress(currentBar, currentBeat, on, off));
      Count(g, on) + Count(g, off) == bars * width
      && Count(g, '|') == if bars == 0 then 0 else bars - 1
  {
    if bars > 0 {
      GridSquares(bars - 1, width, currentBar, currentBeat, on, off);
      var cell := Progress(currentBar, currentBeat, on, off);
      RowSquares(bars - 1, width, cell, on, off);
      SeparatorCount(on);
      SeparatorCount(off);
      SeparatorCount('|');
      CountGridStep(bars, width, cell, on);
      CountGridStep(bars, width, cell, off);
      CountGridStep(bars, width, cell, '|');
      assert bars * width == (bars - 1) * width + width;
    }
  }

  /** The count of a character in a display of k bars: the first k - 1 bars, the separator and
      the last row. */
  lemma CountGridStep(k: nat, width: nat, cell: (nat, nat) -> char, ch: char)
    requires k > 0
    ensures Count(Grid(k, width, cell), ch) == Count(Grid(k - 1, width, cell), ch)
      + (if k > 1 then Count(Separator, ch) else 0) + Count(Row(k - 1, width, cell), ch)
  {
    var sep := if k > 1 then Separator else "";
    CountConcat(Grid(k - 1, width, cell) + sep, Row(k - 1, width, cell), ch);
    CountConcat(Grid(k - 1, width, cell), sep, ch);
    SeparatorCount(ch);
  }

  lemma {:induction false} RowSquares(bar: nat, k: nat, cell: (nat, nat) -> char, on: char, off: char)
    requires on != off && on != '|' && off != '|'
    requires forall beat: nat :: beat < k ==> cell(bar, beat) == on || cell(bar, beat) == off
    ensures Count(Row(bar, k, cell), on) + Count(Row(bar, k, cell), off) == k
    ensures Count(Row(bar, k, cell), '|') == 0
  {
    if k > 0 {
      RowSquares(bar, k - 1, cell, on, off);
      CountSnoc(Row(bar, k - 1, cell), cell(bar, k - 1), on);
      CountSnoc(Row(bar, k - 1, cell), cell(bar, k - 1), off);
      CountSnoc(Row(bar, k - 1, cell), cell(bar, k - 1), '|');
    }
  }

  /** With the counters in range, the squares coloured `on` are the finished bars' beats plus
      the current bar's beats up to and including the current one. */
  lemma {:induction false} GridOn(bars: nat, width: nat, currentBar: nat, currentBeat: nat, on: char, off: char)
    requires on != off && on != ' ' && on != '|'
    requires currentBar < bars && currentBeat < width
    ensures Count(Grid(bars, width, Progress(currentBar, currentBeat, on, off)), on) == currentBar * width + currentBeat + 1
  {
    GridOnUpTo(bars, width, currentBar, currentBeat, on, off);
  }

  lemma {:induction false} GridOnUpTo(k: nat, width: nat, currentBar: nat, currentBeat: nat, on: char, off: char)
    requires on != off && on != ' ' && on != '|' && currentBeat < width
    ensures Count(Grid(k, width, Progress(currentBar, currentBeat, on, off)), on)
      == if k <= currentBar then k * width else currentBar * width + currentBeat + 1
  {
    if k > 0 {
      GridOnUpTo(k - 1, width, currentBar, currentBeat, on, off);
      var cell := Progress(currentBar, currentBeat, on, off);
      RowOn(k - 1, width, currentBar, currentBeat, on, off);
      CountGridStep(k, width, cell, on);
      SeparatorCount(on);
      assert k * width == (k - 1) * width + width;
    }
  }

  /** With the current beat inside the bar, "this beat's overall index is at most the current
      one's" is "an earlier bar, or the current bar up to the current beat". */
  lemma BeatIndexOrder(bar: nat, beat: nat, currentBar: nat, currentBeat: nat, width: nat)
    requires beat < width && currentBeat < width
    ensures beat + bar * width <= currentBar * width + currentBeat
      <==> bar < currentBar || (bar == currentBar && beat <= currentBeat)
  {
    if bar < currentBar {
      MulMonotone(bar + 1, currentBar, width);
      assert (bar + 1) * width == bar * width + width;
    } else if bar > currentBar {
      MulMonotone(currentBar + 1, bar, width);
      assert (currentBar + 1) * width == currentBar * width + width;
    }
  }
}
