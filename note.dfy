/** chordflow_music_theory/src/note.rs: letters, spelled notes, transposition by an interval
    and the list of selectable roots. */
module Notes {
  import opened Accidentals
  import opened Intervals
  import opened RustInt

  datatype NoteLetter = C | D | E | F | G | A | B

  /** The letters in declaration order, as `NoteLetter::iter()` yields them. */
  const AllLetters: seq<NoteLetter> := [C, D, E, F, G, A, B]

  /** `to_index`: the position of the letter among the seven. */
  function LetterIndex(l: NoteLetter): (k: int)
    ensures 0 <= k < 7
  {
    match l
    case C => 0
    case D => 1
    case E => 2
    case F => 3
    case G => 4
    case A => 5
    case B => 6
  }

  /** `from_letter_index`: panics outside 0..6. */
  function LetterFromIndex(k: int): (l: NoteLetter)
    requires 0 <= k < 7
    ensures LetterIndex(l) == k
  {
    match k
    case 0 => C
    case 1 => D
    case 2 => E
    case 3 => F
    case 4 => G
    case 5 => A
    case _ => B
  }

  /** Letter indices are positions in the declaration order. */
  lemma LetterIndexPosition(l: NoteLetter)
    ensures AllLetters[LetterIndex(l)] == l && LetterFromIndex(LetterIndex(l)) == l
  {
  }

  /** `NoteLetter::to_semitones`: the natural pitch class of the letter. */
  function LetterSemitones(l: NoteLetter): (s: int)
    ensures 0 <= s < 12
  {
    match l
    case C => 0
    case D => 2
    case E => 4
    case F => 5
    case G => 7
    case A => 9
    case B => 11
  }

  /** The letter's name, as the derived `Display`/`AsRefStr` print it. */
  function LetterName(l: NoteLetter): (s: string)
    ensures |s| == 1 && s[0] in "CDEFGAB"
  {
    match l
    case C => "C"
    case D => "D"
    case E => "E"
    case F => "F"
    case G => "G"
    case A => "A"
    case B => "B"
  }

  /** `NoteLetter::from_string`: only the seven upper-case names; anything else panics. */
  function LetterFromString(s: string): (l: NoteLetter)
    requires s in {"C", "D", "E", "F", "G", "A", "B"}
    ensures LetterName(l) == s
  {
    match s
    case "C" => C
    case "D" => D
    case "E" => E
    case "F" => F
    case "G" => G
    case "A" => A
    case _ => B
  }

  /** A note is a letter plus a signed count of sharps (positive) or flats (negative). */
  datatype Note = Note(letter: NoteLetter, accidentals: int)

  /** `Note::to_semitones`: not reduced modulo 12, so Cb is -1 and B# is 12. */
  function NoteSemitones(n: Note): (s: int)
    ensures s - n.accidentals == LetterSemitones(n.letter)
  {
    LetterSemitones(n.letter) + n.accidentals
  }

  /** `add_interval` as written: the letter moves by the interval's letter distance (mod 7), the
      pitch by its size (Rust remainder mod 12), and the accidental count is whatever separates
      the new pitch from the new letter's natural pitch, without reduction. The octave has no
      letter distance and panics. */
  function AddIntervalAsWritten(n: Note, i: Interval): (r: Note)
    requires i != Octave
    ensures LetterIndex(r.letter) == (LetterIndex(n.letter) + IntervalIndex(i)) % 7
    ensures NoteSemitones(r) == Rem(NoteSemitones(n) + IntervalSemitones(i), 12)
  {
    var newSemitones := Rem(LetterSemitones(n.letter) + n.accidentals + IntervalSemitones(i), 12);
    var newLetter := LetterFromIndex((LetterIndex(n.letter) + IntervalIndex(i)) % 7);
    Note(newLetter, newSemitones - LetterSemitones(newLetter))
  }

  /** The accidental count that spells a pitch-class difference x with the fewest signs
      (ties go to sharps). */
  function SpelledOffset(x: int): (k: int)
    ensures -5 <= k <= 6 && (k - x) % 12 == 0
    ensures -5 <= x <= 6 ==> k == x
  {
    var m := x % 12;
    if m > 6 then m - 12 else m
  }

  /** `add_interval` with the pitch difference reduced to the nearest spelling: the same letter
      as the source computes and at most six sharps or five flats (the pitch is stated by
      AddIntervalPitch). */
  function AddInterval(n: Note, i: Interval): (r: Note)
    requires i != Octave
    ensures LetterIndex(r.letter) == (LetterIndex(n.letter) + IntervalIndex(i)) % 7
    ensures -5 <= r.accidentals <= 6
  {
    var written := AddIntervalAsWritten(n, i);
    Note(written.letter, SpelledOffset(written.accidentals))
  }

  /** The transposed note sounds the interval above n, up to whole octaves. */
  lemma AddIntervalPitch(n: Note, i: Interval)
    requires i != Octave
    ensures (NoteSemitones(AddInterval(n, i)) - (NoteSemitones(n) + IntervalSemitones(i))) % 12 == 0
  {
    var written := AddIntervalAsWritten(n, i);
    var s := NoteSemitones(n) + IntervalSemitones(i);
    var k := SpelledOffset(written.accidentals);
    assert LetterSemitones(written.letter) + written.accidentals == Rem(s, 12);
    RemOctaveCongruent(s);
    SumOfOctaves(k - written.accidentals, Rem(s, 12) - s);
    assert NoteSemitones(AddInterval(n, i)) - s == (k - written.accidentals) + (Rem(s, 12) - s);
  }

  /** Wherever the source already spells the result with at most six sharps or five flats,
      the two definitions agree. */
  lemma AddIntervalAgrees(n: Note, i: Interval)
    requires i != Octave
    requires -5 <= AddIntervalAsWritten(n, i).accidentals <= 6
    ensures AddInterval(n, i) == AddIntervalAsWritten(n, i)
  {
  }

  /** G sharp plus a major third: the source spells the result B with eleven flats, where B sharp
      is meant. */
  lemma AddIntervalElevenFlats()
    ensures AddIntervalAsWritten(Note(G, 1), MajorThird) == Note(B, -11)
    ensures AddInterval(Note(G, 1), MajorThird) == Note(B, 1)
  {
  }

  /** The accidental suffix of `Display`: n sharps, n flats, or nothing. */
  function AccidentalText(k: int): (s: string)
    ensures k >= 0 ==> |s| == k && forall j :: 0 <= j < |s| ==> s[j] == '#'
    ensures k < 0 ==> |s| == -k && forall j :: 0 <= j < |s| ==> s[j] == 'b'
  {
    if k > 0 then seq(k, _ => '#')
    else if k < 0 then seq(-k, _ => 'b')
    else ""
  }

  /** `Display for Note`: the letter name followed by the accidental suffix. */
  function NoteToString(n: Note): (s: string)
    ensures |s| >= 1 && s[..1] == LetterName(n.letter) && s[1..] == AccidentalText(n.accidentals)
  {
    LetterName(n.letter) + AccidentalText(n.accidentals)
  }

  /** The filter of `generate_all_roots`: B#, Cb, E# and Fb are not offered. */
  predicate IsOfferedRoot(l: NoteLetter, a: Accidental)
  {
    !(l == C && a == Flat) && !(l == E && a == Sharp) && !(l == B && a == Sharp) && !(l == F && a == Flat)
  }

  /** The three pairs of one letter, in accidental declaration order. */
  function LetterPairs(l: NoteLetter): (ps: seq<(NoteLetter, Accidental)>)
    ensures |ps| == 3 && forall k :: 0 <= k < 3 ==> ps[k] == (l, AllAccidentals[k])
  {
    [(l, Natural), (l, Sharp), (l, Flat)]
  }

  /** The cartesian product letters x accidentals, letter-major, as `cartesian_product` orders it. */
  function CartesianPairs(ls: seq<NoteLetter>): (ps: seq<(NoteLetter, Accidental)>)
    ensures |ps| == 3 * |ls|
  {
    if ls == [] then [] else LetterPairs(ls[0]) + CartesianPairs(ls[1..])
  }

  /** The filter-and-map stage: order is kept and excluded pairs are dropped. */
  function OfferedRoots(ps: seq<(NoteLetter, Accidental)>): (r: seq<Note>)
    ensures |r| <= |ps|
    ensures forall j :: 0 <= j < |r| ==> IsOfferedNote(r[j])
  {
    if ps == [] then []
    else if IsOfferedRoot(ps[0].0, ps[0].1) then
      [Note(ps[0].0, AccidentalSemitones(ps[0].1))] + OfferedRoots(ps[1..])
    else OfferedRoots(ps[1..])
  }

  /** Filtering distributes over concatenation, so the roots can be read off letter by letter. */
  lemma {:induction false} OfferedRootsAppend(xs: seq<(NoteLetter, Accidental)>, ys: seq<(NoteLetter, Accidental)>)
    ensures OfferedRoots(xs + ys) == OfferedRoots(xs) + OfferedRoots(ys)
  {
    if xs != [] {
      assert (xs + ys)[1..] == xs[1..] + ys;
      OfferedRootsAppend(xs[1..], ys);
    } else {
      assert xs + ys == ys;
    }
  }

  /** `generate_all_roots`. */
  function AllRoots(): (r: seq<Note>)
    ensures forall j :: 0 <= j < |r| ==> IsOfferedNote(r[j])
  {
    OfferedRoots(CartesianPairs(AllLetters))
  }

  /** The spellings offered for one letter: natural, sharp, flat, minus the four excluded ones. */
  function LetterRoots(l: NoteLetter): seq<Note>
  {
    match l
    case C => [Note(C, 0), Note(C, 1)]
    case E => [Note(E, 0), Note(E, -1)]
    case F => [Note(F, 0), Note(F, 1)]
    case B => [Note(B, 0), Note(B, -1)]
    case _ => [Note(l, 0), Note(l, 1), Note(l, -1)]
  }

  lemma OneLetterRoots(l: NoteLetter)
    ensures OfferedRoots(LetterPairs(l)) == LetterRoots(l)
  {
    var ps := LetterPairs(l);
    assert ps[1..][1..][1..] == [];
  }

  /** The seventeen roots, in the order the selector cycles through them. */
  const ListedRoots: seq<Note> := [
    Note(C, 0), Note(C, 1),
    Note(D, 0), Note(D, 1), Note(D, -1),
    Note(E, 0), Note(E, -1),
    Note(F, 0), Note(F, 1),
    Note(G, 0), Note(G, 1), Note(G, -1),
    Note(A, 0), Note(A, 1), Note(A, -1),
    Note(B, 0), Note(B, -1)
  ]

  /** The offered spellings of each letter in turn. */
  function RootsByLetter(ls: seq<NoteLetter>): seq<Note>
  {
    if ls == [] then [] else LetterRoots(ls[0]) + RootsByLetter(ls[1..])
  }

  /** Filtering the product is the same as taking each letter's offered spellings in turn. */
  lemma {:induction false} OfferedRootsByLetter(ls: seq<NoteLetter>)
    ensures OfferedRoots(CartesianPairs(ls)) == RootsByLetter(ls)
  {
    if ls != [] {
      OfferedRootsAppend(LetterPairs(ls[0]), CartesianPairs(ls[1..]));
      OneLetterRoots(ls[0]);
      OfferedRootsByLetter(ls[1..]);
    }
  }

  /** `generate_all_roots` yields exactly the seventeen listed roots. */
  lemma AllRootsListing()
    ensures AllRoots() == ListedRoots
  {
    OfferedRootsByLetter(AllLetters);
    var ls := AllLetters;
    assert RootsByLetter(ls[6..]) == [Note(B, 0), Note(B, -1)];
    assert RootsByLetter(ls[5..]) == [Note(A, 0), Note(A, 1), Note(A, -1)] + RootsByLetter(ls[6..]);
    assert RootsByLetter(ls[4..]) == [Note(G, 0), Note(G, 1), Note(G, -1)] + RootsByLetter(ls[5..]);
    assert RootsByLetter(ls[3..]) == [Note(F, 0), Note(F, 1)] + RootsByLetter(ls[4..]);
    assert RootsByLetter(ls[2..]) == [Note(E, 0), Note(E, -1)] + RootsByLetter(ls[3..]);
    assert RootsByLetter(ls[1..]) == [Note(D, 0), Note(D, 1), Note(D, -1)] + RootsByLetter(ls[2..]);
    assert RootsByLetter(ls) == [Note(C, 0), Note(C, 1)] + RootsByLetter(ls[1..]);
  }

  /** No root is listed twice. */
  lemma ListedRootsDistinct()
    ensures forall j, k :: 0 <= j < k < |ListedRoots| ==> ListedRoots[j] != ListedRoots[k]
  {
  }

  /** C natural comes first, no root is offered twice, and B#, Cb, E# and Fb are never
      offered. */
  lemma AllRootsProperties()
    ensures |AllRoots()| == 17 && AllRoots()[0] == Note(C, 0)
    ensures forall j, k :: 0 <= j < k < |AllRoots()| ==> AllRoots()[j] != AllRoots()[k]
    ensures Note(B, 1) !in AllRoots() && Note(C, -1) !in AllRoots()
    ensures Note(E, 1) !in AllRoots() && Note(F, -1) !in AllRoots()
  {
    AllRootsListing();
    ListedRootsDistinct();
    assert !IsOfferedNote(Note(B, 1)) && !IsOfferedNote(Note(C, -1));
    assert !IsOfferedNote(Note(E, 1)) && !IsOfferedNote(Note(F, -1));
  }

  /** The notes `generate_all_roots` offers, described without enumerating them: at most one
      sharp or flat, and none of B#, Cb, E#, Fb. */
  predicate IsOfferedNote(n: Note)
  {
    -1 <= n.accidentals <= 1
    && n != Note(B, 1) && n != Note(C, -1) && n != Note(E, 1) && n != Note(F, -1)
  }

  /** A note is among the generated roots exactly when it is an offered spelling. */
  lemma AllRootsAreOffered(n: Note)
    ensures n in AllRoots() <==> IsOfferedNote(n)
  {
    if IsOfferedNote(n) {
      AllRootsListing();
      match n.letter
      case C => assert n == ListedRoots[0] || n == ListedRoots[1];
      case D => assert n == ListedRoots[2] || n == ListedRoots[3] || n == ListedRoots[4];
      case E => assert n == ListedRoots[5] || n == ListedRoots[6];
      case F => assert n == ListedRoots[7] || n == ListedRoots[8];
      case G => assert n == ListedRoots[9] || n == ListedRoots[10] || n == ListedRoots[11];
      case A => assert n == ListedRoots[12] || n == ListedRoots[13] || n == ListedRoots[14];
      case B => assert n == ListedRoots[15] || n == ListedRoots[16];
    }
  }

  /** The letters' natural pitches rise strictly with their index. */
  lemma LetterSemitonesIncreasing(j: int, k: int)
    requires 0 <= j < k < 7
    ensures LetterSemitones(AllLetters[j]) < LetterSemitones(AllLetters[k])
  {
  }

  /** The spellings the source's test expects for C transposed by each interval. */
  function ExpectedFromC(i: Interval): Note
    requires i != Octave
  {
    match i
    case Unison => Note(C, 0)
    case MinorSecond => Note(D, -1)
    case MajorSecond => Note(D, 0)
    case MinorThird => Note(E, -1)
    case MajorThird => Note(E, 0)
    case PerfectFourth => Note(F, 0)
    case AugmentedFourth => Note(F, 1)
    case Tritone => Note(F, 1)
    case DiminishedFifth => Note(G, -1)
    case PerfectFifth => Note(G, 0)
    case MinorSixth => Note(A, -1)
    case MajorSixth => Note(A, 0)
    case MinorSeventh => Note(B, -1)
    case MajorSeventh => Note(B, 0)
  }

  /** From C natural nothing wraps: the letter is the interval's letter distance and the
      accidentals are what separates the interval's size from that letter's natural pitch. */
  lemma FromCNatural(i: Interval)
    requires i != Octave
    ensures var l := LetterFromIndex(IntervalIndex(i));
      AddIntervalAsWritten(Note(C, 0), i) == Note(l, IntervalSemitones(i) - LetterSemitones(l))
  {
    var s := IntervalSemitones(i);
    var d := IntervalIndex(i);
    assert Rem(LetterSemitones(C) + 0 + s, 12) == s by {
      ModInRange(s, 12);
    }
    assert (LetterIndex(C) + d) % 7 == d by {
      ModInRange(d, 7);
    }
  }

  /** C transposed by each interval but the octave gives the expected spelling. */
  lemma AddIntervalFromC(i: Interval)
    requires i != Octave
    ensures AddIntervalAsWritten(Note(C, 0), i) == ExpectedFromC(i)
  {
    FromCNatural(i);
    match i
    case Unison =>
    case MinorSecond =>
    case MajorSecond =>
    case MinorThird =>
    case MajorThird =>
    case PerfectFourth =>
    case AugmentedFourth =>
    case Tritone =>
    case DiminishedFifth =>
    case PerfectFifth =>
    case MinorSixth =>
    case MajorSixth =>
    case MinorSeventh =>
    case MajorSeventh =>
  }

  /** F# up a perfect fifth is C#. */
  lemma AddIntervalFSharpFifth()
    ensures AddIntervalAsWritten(Note(F, 1), PerfectFifth) == Note(C, 1)
  {
  }
}
