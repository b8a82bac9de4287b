/** chordflow_tui/src/ui.rs: the metronome line of the terminal interface. One square per beat
    of every bar of the cycle, filled up to and including the current beat, hollow after it. */
module TuiUi {
  import opened Metronomes
  import opened MetronomeGrid

  /** The colouring of the terminal display for a metronome standing at `currentBar` and
      `currentBeat`. */
  function TuiCell(currentBar: nat, currentBeat: nat): (nat, nat) -> char
  {
    Progress(currentBar, currentBeat, Filled, Hollow)
  }

  /** `generate_metronome_display`: for each bar a separator (except before the first) and then
      one square per beat, filled when the bar is finished or is the current one and the beat
      has been reached. */
  method GenerateMetronomeDisplay(m: Metronome) returns (display: string)
    ensures display == Grid(m.numBars, m.numBeats, TuiCell(m.currentBar, m.currentBeat))
  {
    ghost var cell := TuiCell(m.currentBar, m.currentBeat);
    display := "";
    var bar := 0;
    while bar < m.numBars
      invariant 0 <= bar <= m.numBars
      invariant display == Grid(bar, m.numBeats, cell)
    {
      if bar > 0 {
        display := display + " | ";
      }
      var tick := 0;
      while tick < m.numBeats
        invariant 0 <= tick <= m.numBeats
        invariant display == Grid(bar, m.numBeats, cell) + (if bar > 0 then Separator else "") + Row(bar, tick, cell)
      {
        if bar < m.currentBar || (bar == m.currentBar && tick <= m.currentBeat) {
          display := display + ['⬛'];
        } else {
          display := display + ['⬜'];
        }
        tick := tick + 1;
      }
      bar := bar + 1;
    }
  }

  /** The display has one square per beat of the cycle and one '|' between consecutive bars;
      with the counters in range, the filled squares number the beats played so far in the
      cycle, the current one included. */
  lemma DisplayCounts(numBars: nat, numBeats: nat, currentBar: nat, currentBeat: nat)
    ensures var d := Grid(numBars, numBeats, TuiCell(currentBar, currentBeat));
      Count(d, Filled) + Count(d, Hollow) == numBars * numBeats
      && Count(d, '|') == (if numBars == 0 then 0 else numBars - 1)
      && (currentBar < numBars && currentBeat < numBeats ==> Count(d, Filled) == currentBar * numBeats + currentBeat + 1)
  {
    GridSquares(numBars, numBeats, currentBar, currentBeat, Filled, Hollow);
    if currentBar < numBars && currentBeat < numBeats {
      GridOn(numBars, numBeats, currentBar, currentBeat, Filled, Hollow);
    }
  }

  /** Square `beat` of bar `bar` is filled exactly when the bar is finished, or it is the
      current bar and the beat has been reached; otherwise it is hollow. */
  lemma SquareColour(numBars: nat, numBeats: nat, currentBar: nat, currentBeat: nat, bar: nat, beat: nat)
    requires bar < numBars && beat < numBeats
    ensures var d := Grid(numBars, numBeats, TuiCell(currentBar, currentBeat));
      var i := bar * (numBeats + 3) + beat;
      i < |d| && (d[i] == Filled <==> bar < currentBar || (bar == currentBar && beat <= currentBeat))
      && (d[i] == Hollow <==> !(bar < currentBar || (bar == currentBar && beat <= currentBeat)))
  {
    SquareAt(numBars, numBeats, TuiCell(currentBar, currentBeat), bar, beat);
  }

  /** Without bars the display is empty. */
  lemma NoBarsNoDisplay(numBeats: nat, currentBar: nat, currentBeat: nat)
    ensures Grid(0, numBeats, TuiCell(currentBar, currentBeat)) == ""
  {
  }

  /** A bar of four beats, square by square. */
  lemma RowOfFour(bar: nat, cell: (nat, nat) -> char)
    ensures Row(bar, 4, cell) == [cell(bar, 0), cell(bar, 1), cell(bar, 2), cell(bar, 3)]
  {
    assert Row(bar, 1, cell) == [cell(bar, 0)] by {
      assert Row(bar, 0, cell) == "";
    }
    assert Row(bar, 2, cell) == [cell(bar, 0), cell(bar, 1)];
    assert Row(bar, 3, cell) == [cell(bar, 0), cell(bar, 1), cell(bar, 2)];
  }

  /** A display of two bars of four beats, square by square. */
  lemma TwoBarsOfFour(cell: (nat, nat) -> char)
    ensures Grid(2, 4, cell)
      == [cell(0, 0), cell(0, 1), cell(0, 2), cell(0, 3), ' ', '|', ' ', cell(1, 0), cell(1, 1), cell(1, 2), cell(1, 3)]
  {
    RowOfFour(0, cell);
    RowOfFour(1, cell);
    assert Grid(1, 4, cell) == Row(0, 4, cell) by {
      assert Grid(0, 4, cell) == "";
    }
    assert Grid(2, 4, cell) == Row(0, 4, cell) + Separator + Row(1, 4, cell);
  }

  /** The displays of the unit test of ui.rs: two bars of four beats at the start, on the third
      beat, and on the third beat of the second bar. */
  lemma DisplayAtStart()
    ensures Grid(2, 4, TuiCell(0, 0)) == "⬛⬜⬜⬜ | ⬜⬜⬜⬜"
  {
    TwoBarsOfFour(TuiCell(0, 0));
  }

  lemma DisplayOnThirdBeat()
    ensures Grid(2, 4, TuiCell(0, 2)) == "⬛⬛⬛⬜ | ⬜⬜⬜⬜"
  {
    TwoBarsOfFour(TuiCell(0, 2));
  }

  lemma DisplayInSecondBar()
    ensures Grid(2, 4, TuiCell(1, 2)) == "⬛⬛⬛⬛ | ⬛⬛⬛⬜"
  {
    TwoBarsOfFour(TuiCell(1, 2));
  }
}
