/** src/progression.rs: a practice progression is a list of chords, each held for a number of
    bars, read from text such as "3C 2Bm 1F#aug". */
module ProgressionParser {
  import opened Wrappers
  import opened Notes
  import opened Accidentals
  import opened Qualities
  import opened Chords
  import LegacyQualities

  datatype ProgressionChord = ProgressionChord(chord: Chord, bars: nat)

  datatype Progression = Progression(chords: seq<ProgressionChord>)

  /** `\d`, read as an ASCII decimal digit. */
  predicate IsDigit(c: char)
  {
    '0' <= c <= '9'
  }

  /** The letter class `[ABCDEFGabcdefgh]`. */
  predicate IsLetterChar(c: char)
  {
    c in "ABCDEFGabcdefgh"
  }

  /** The quality alternatives of the pattern, in the order written: `M|m|aug|dim|maj7|7|m7b5`. */
  const QualityAlternativesAsWritten: seq<string> := ["M", "m", "aug", "dim", "maj7", "7", "m7b5"]

  /** The same alternatives with each one placed before any shorter alternative it starts with,
      plus the minor seventh's own symbol "m7". */
  const QualityAlternatives: seq<string> := ["maj7", "m7b5", "m7", "aug", "dim", "M", "m", "7"]

  /** Does `w` occur in `s` at position `p`? */
  predicate OccursAt(s: string, p: nat, w: string)
  {
    p + |w| <= |s| && s[p..p + |w|] == w
  }

  /** Leftmost-first alternation: the first alternative, in list order from index `i` on, that
      occurs at `p`. */
  function FirstAlternativeFrom(s: string, p: nat, alts: seq<string>, i: nat): Option<string>
    requires i <= |alts|
    decreases |alts| - i
  {
    if i == |alts| then None
    else if OccursAt(s, p, alts[i]) then Some(alts[i])
    else FirstAlternativeFrom(s, p, alts, i + 1)
  }

  /** The alternative found from `i` on is one of those alternatives and occurs at `p`; when
      none is found, none of them occurs there. */
  lemma {:induction false} FirstAlternativeFromSound(s: string, p: nat, alts: seq<string>, i: nat)
    requires i <= |alts|
    ensures var r := FirstAlternativeFrom(s, p, alts, i);
      (r.Some? ==> exists k :: i <= k < |alts| && alts[k] == r.value && OccursAt(s, p, r.value))
      && (r.None? ==> forall k :: i <= k < |alts| ==> !OccursAt(s, p, alts[k]))
    decreases |alts| - i
  {
    if i < |alts| && !OccursAt(s, p, alts[i]) {
      FirstAlternativeFromSound(s, p, alts, i + 1);
    }
  }

  /** The alternative the pattern's quality group takes at `p`, if any. */
  function FirstAlternative(s: string, p: nat, alts: seq<string>): Option<string>
  {
    FirstAlternativeFrom(s, p, alts, 0)
  }

  /** The letter a capture denotes. The upper-case letters read as their names; the lower-case
      ones are read by a function of src/music/note.rs, passed in as `lowercase`. */
  function CapturedLetter(c: char, lowercase: char -> NoteLetter): NoteLetter
  {
    match c
    case 'C' => C
    case 'D' => D
    case 'E' => E
    case 'F' => F
    case 'G' => G
    case 'A' => A
    case 'B' => B
    case _ => lowercase(c)
  }

  /** The optional accidental group at `q`: taken whenever a sign is there. */
  function CapturedAccidental(s: string, q: nat): (r: (Accidental, nat))
    ensures r.1 == q || (r.1 == q + 1 && q < |s|)
    ensures r.1 == q ==> r.0 == Natural
  {
    if q < |s| && (s[q] == '#' || s[q] == 'b') then (AccidentalFromString([s[q]]), q + 1)
    else (Natural, q)
  }

  /** The optional quality group at `q`: the first alternative found there, Major when none is. */
  function CapturedQuality(s: string, q: nat, alts: seq<string>): (r: (Quality, nat))
    ensures r.1 >= q && (q <= |s| ==> r.1 <= |s|)
  {
    FirstAlternativeFromSound(s, q, alts, 0);
    match FirstAlternative(s, q, alts)
    case Some(w) => (LegacyQualities.LegacyFromStr(w), q + |w|)
    case None => (Major, q)
  }

  /** A match of the pattern starting at `p`, with the position just after it: a digit, a
      letter, then the optional accidental and quality groups. */
  function MatchAt(s: string, p: nat, alts: seq<string>, lowercase: char -> NoteLetter): (r: Option<(ProgressionChord, nat)>)
    ensures r.Some? <==> p + 1 < |s| && IsDigit(s[p]) && IsLetterChar(s[p + 1])
    ensures r.Some? ==> p + 2 <= r.value.1 <= |s| && 0 <= r.value.0.bars <= 9
  {
    if p + 1 < |s| && IsDigit(s[p]) && IsLetterChar(s[p + 1]) then
      var accidental := CapturedAccidental(s, p + 2);
      var quality := CapturedQuality(s, accidental.1, alts);
      var root := Note(CapturedLetter(s[p + 1], lowercase), AccidentalSemitones(accidental.0));
      Some((ProgressionChord(Chord(root, quality.0), (s[p] as int) - ('0' as int)), quality.1))
    else None
  }

  /** A digit followed by a letter of the class starts a match made of the captured groups. */
  lemma MatchFound(s: string, p: nat, alts: seq<string>, lowercase: char -> NoteLetter,
                   l: NoteLetter, a: Accidental, k: nat, q: Quality, end: nat)
    requires p + 1 < |s| && IsDigit(s[p]) && IsLetterChar(s[p + 1])
    requires CapturedLetter(s[p + 1], lowercase) == l
    requires CapturedAccidental(s, p + 2) == (a, k) && CapturedQuality(s, k, alts) == (q, end)
    ensures MatchAt(s, p, alts, lowercase)
      == Some((ProgressionChord(Chord(Note(l, AccidentalSemitones(a)), q), (s[p] as int) - ('0' as int)), end))
  {
  }

  /** `captures_iter` from position `p`: the leftmost match, then the matches after its end. */
  function Scan(s: string, p: nat, alts: seq<string>, lowercase: char -> NoteLetter): (r: seq<ProgressionChord>)
    requires p <= |s|
    ensures forall k :: 0 <= k < |r| ==> 0 <= r[k].bars <= 9
    decreases |s| - p
  {
    if p == |s| then []
    else match MatchAt(s, p, alts, lowercase)
      case Some((pc, end)) => [pc] + Scan(s, end, alts, lowercase)
      case None => Scan(s, p + 1, alts, lowercase)
  }

  /** `ProgressionChord::from_str`: every match in order, or an error when there is none. */
  function Parse(s: string, alts: seq<string>, lowercase: char -> NoteLetter): (r: Result<seq<ProgressionChord>, string>)
    ensures r.Err? ==> r.error == "Invalid progression"
    ensures r.Ok? ==> |r.value| > 0 && forall k :: 0 <= k < |r.value| ==> 0 <= r.value[k].bars <= 9
  {
    var found := Scan(s, 0, alts, lowercase);
    if found == [] then Err("Invalid progression") else Ok(found)
  }

  /** `from_str` run as the source runs it: walk the captures, pushing one entry per match, then
      reject an empty result. */
  method FromStr(s: string, alts: seq<string>, lowercase: char -> NoteLetter) returns (r: Result<seq<ProgressionChord>, string>)
    ensures r == Parse(s, alts, lowercase)
  {
    var results: seq<ProgressionChord> := [];
    var p := 0;
    while p < |s|
      invariant 0 <= p <= |s|
      invariant results + Scan(s, p, alts, lowercase) == Scan(s, 0, alts, lowercase)
      decreases |s| - p
    {
      var m := MatchAt(s, p, alts, lowercase);
      if m.Some? {
        results := results + [m.value.0];
        p := m.value.1;
      } else {
        p := p + 1;
      }
    }
    assert results + [] == results;
    if results == [] {
      r := Err("Invalid progression");
    } else {
      r := Ok(results);
    }
  }

  /** No position from `p` on holds a digit followed by a letter of the class. */
  predicate NoMatchFrom(s: string, p: nat)
  {
    forall j :: p <= j && j + 1 < |s| ==> !(IsDigit(s[j]) && IsLetterChar(s[j + 1]))
  }

  /** The scan finds nothing exactly when no digit is followed by a letter. */
  lemma {:induction false} ScanEmptyIff(s: string, p: nat, alts: seq<string>, lowercase: char -> NoteLetter)
    requires p <= |s|
    ensures Scan(s, p, alts, lowercase) == [] <==> NoMatchFrom(s, p)
    decreases |s| - p
  {
    if p < |s| {
      ScanEmptyIff(s, p + 1, alts, lowercase);
      if MatchAt(s, p, alts, lowercase).None? {
        assert NoMatchFrom(s, p) <==> NoMatchFrom(s, p + 1);
      }
    }
  }

  /** `from_str` fails, with "Invalid progression", exactly when no digit is followed by a
      letter of the class. */
  lemma ParseErrIff(s: string, alts: seq<string>, lowercase: char -> NoteLetter)
    ensures Parse(s, alts, lowercase).Err? <==> NoMatchFrom(s, 0)
  {
    ScanEmptyIff(s, 0, alts, lowercase);
  }

  /** No alternative is found at `p` when none starts with the character there. */
  lemma NoAlternativeAt(s: string, p: nat, alts: seq<string>)
    requires forall w :: w in alts ==> |w| > 0 && (p >= |s| || s[p] != w[0])
    ensures FirstAlternative(s, p, alts).None?
  {
    forall w | w in alts ensures !OccursAt(s, p, w) {
      CharDiffersAt(s, p, w);
    }
    FirstAlternativeFromSound(s, p, alts, 0);
  }

  /** An alternative does not occur where the text's character differs from its first one. */
  lemma CharDiffersAt(s: string, p: nat, w: string)
    requires |w| > 0 && (p >= |s| || s[p] != w[0])
    ensures !OccursAt(s, p, w)
  {
    if p + |w| <= |s| {
      assert s[p..p + |w|][0] == s[p];
    }
  }

  /** The alternative found is the first one, in list order, that occurs. */
  lemma {:induction false} FoundFirst(s: string, p: nat, alts: seq<string>, i: nat, k: nat)
    requires i <= k < |alts| && OccursAt(s, p, alts[k])
    requires forall j :: i <= j < k ==> !OccursAt(s, p, alts[j])
    ensures FirstAlternativeFrom(s, p, alts, i) == Some(alts[k])
    decreases k - i
  {
    if i < k {
      FoundFirst(s, p, alts, i + 1, k);
    }
  }

  /** The three matches of the test input, one lemma each. */
  lemma ExampleNoQuality()
    ensures FirstAlternative("3C 2Bm 1F#aug", 2, QualityAlternativesAsWritten).None?
  {
    NoAlternativeAt("3C 2Bm 1F#aug", 2, QualityAlternativesAsWritten);
  }

  lemma ExampleFirstMatch(lowercase: char -> NoteLetter)
    ensures MatchAt("3C 2Bm 1F#aug", 0, QualityAlternativesAsWritten, lowercase)
      == Some((ProgressionChord(Chord(Note(C, 0), Major), 3), 2))
  {
    var s := "3C 2Bm 1F#aug";
    assert s[0] == '3' && s[1] == 'C' && IsDigit(s[0]) && IsLetterChar(s[1]);
    assert CapturedLetter('C', lowercase) == C;
    assert CapturedAccidental(s, 2) == (Natural, 2);
    ExampleNoQuality();
    assert CapturedQuality("3C 2Bm 1F#aug", 2, QualityAlternativesAsWritten) == (Major, 2);
  }

  lemma ExampleMinorQuality()
    ensures CapturedQuality("3C 2Bm 1F#aug", 5, QualityAlternativesAsWritten) == (Minor, 6)
  {
    var s := "3C 2Bm 1F#aug";
    var alts := QualityAlternativesAsWritten;
    CharDiffersAt(s, 5, alts[0]);
    assert s[5..6] == alts[1];
    FoundFirst(s, 5, alts, 0, 1);
  }

  lemma ExampleSecondMatch(lowercase: char -> NoteLetter)
    ensures MatchAt("3C 2Bm 1F#aug", 3, QualityAlternativesAsWritten, lowercase)
      == Some((ProgressionChord(Chord(Note(B, 0), Minor), 2), 6))
  {
    var s := "3C 2Bm 1F#aug";
    assert s[3] == '2' && s[4] == 'B' && IsDigit(s[3]) && IsLetterChar(s[4]);
    assert CapturedLetter('B', lowercase) == B;
    assert CapturedAccidental(s, 5) == (Natural, 5);
    ExampleMinorQuality();
  }

  lemma ExampleAugmentedQuality()
    ensures CapturedQuality("3C 2Bm 1F#aug", 10, QualityAlternativesAsWritten) == (Augmented, 13)
  {
    var s := "3C 2Bm 1F#aug";
    var alts := QualityAlternativesAsWritten;
    CharDiffersAt(s, 10, alts[0]);
    CharDiffersAt(s, 10, alts[1]);
    assert s[10..13] == alts[2];
    FoundFirst(s, 10, alts, 0, 2);
  }

  lemma ExampleThirdMatch(lowercase: char -> NoteLetter)
    ensures MatchAt("3C 2Bm 1F#aug", 7, QualityAlternativesAsWritten, lowercase)
      == Some((ProgressionChord(Chord(Note(F, 1), Augmented), 1), 13))
  {
    var s := "3C 2Bm 1F#aug";
    assert s[7] == '1' && s[8] == 'F' && IsDigit(s[7]) && IsLetterChar(s[8]);
    assert CapturedLetter('F', lowercase) == F;
    assert s[9] == '#' && [s[9]] == "#";
    assert CapturedAccidental(s, 9) == (Sharp, 10);
    ExampleAugmentedQuality();
  }

  /** The scan steps past a position where no match starts. */
  lemma ScanSkips(s: string, p: nat, alts: seq<string>, lowercase: char -> NoteLetter)
    requires p < |s| && !IsDigit(s[p])
    ensures Scan(s, p, alts, lowercase) == Scan(s, p + 1, alts, lowercase)
  {
  }

  /** The scan takes the match at a position and resumes after its end. */
  lemma ScanTakes(s: string, p: nat, alts: seq<string>, lowercase: char -> NoteLetter, pc: ProgressionChord, end: nat)
    requires p < |s| && MatchAt(s, p, alts, lowercase) == Some((pc, end)) && end <= |s|
    ensures Scan(s, p, alts, lowercase) == [pc] + Scan(s, end, alts, lowercase)
  {
  }

  lemma ExampleScanTail(lowercase: char -> NoteLetter)
    ensures Scan("3C 2Bm 1F#aug", 6, QualityAlternativesAsWritten, lowercase)
      == [ProgressionChord(Chord(Note(F, 1), Augmented), 1)]
  {
    var s := "3C 2Bm 1F#aug";
    var alts := QualityAlternativesAsWritten;
    var pc := ProgressionChord(Chord(Note(F, 1), Augmented), 1);
    ExampleThirdMatch(lowercase);
    ScanTakes(s, 7, alts, lowercase, pc, 13);
    assert Scan(s, 13, alts, lowercase) == [];
    ScanSkips(s, 6, alts, lowercase);
  }

  lemma ExampleScanFromSecond(lowercase: char -> NoteLetter)
    ensures Scan("3C 2Bm 1F#aug", 2, QualityAlternativesAsWritten, lowercase)
      == [ProgressionChord(Chord(Note(B, 0), Minor), 2), ProgressionChord(Chord(Note(F, 1), Augmented), 1)]
  {
    var s := "3C 2Bm 1F#aug";
    var alts := QualityAlternativesAsWritten;
    ExampleSecondMatch(lowercase);
    ExampleScanTail(lowercase);
    ScanTakes(s, 3, alts, lowercase, ProgressionChord(Chord(Note(B, 0), Minor), 2), 6);
    ScanSkips(s, 2, alts, lowercase);
  }

  lemma ExampleScan(lowercase: char -> NoteLetter)
    ensures Scan("3C 2Bm 1F#aug", 0, QualityAlternativesAsWritten, lowercase) == [
      ProgressionChord(Chord(Note(C, 0), Major), 3),
      ProgressionChord(Chord(Note(B, 0), Minor), 2),
      ProgressionChord(Chord(Note(F, 1), Augmented), 1)]
  {
    ExampleFirstMatch(lowercase);
    ExampleScanFromSecond(lowercase);
  }

  /** The example of the source's test, read with the alternatives as written. */
  lemma ParseExample(lowercase: char -> NoteLetter)
    ensures Parse("3C 2Bm 1F#aug", QualityAlternativesAsWritten, lowercase) == Ok([
      ProgressionChord(Chord(Note(C, 0), Major), 3),
      ProgressionChord(Chord(Note(B, 0), Minor), 2),
      ProgressionChord(Chord(Note(F, 1), Augmented), 1)])
  {
    ExampleScan(lowercase);
  }

  /** As written, "maj7" is never captured: "m" comes first among the alternatives, so a major
      seventh chord reads as minor and the rest of its symbol is skipped. */
  lemma MajorSeventhShadowed(lowercase: char -> NoteLetter)
    ensures Parse("1Cmaj7", QualityAlternativesAsWritten, lowercase) == Ok([ProgressionChord(Chord(Note(C, 0), Minor), 1)])
  {
    var s := "1Cmaj7";
    var alts := QualityAlternativesAsWritten;
    ShadowedMatch(lowercase);
    assert Scan(s, 6, alts, lowercase) == [];
    assert Scan(s, 5, alts, lowercase) == [];
    assert Scan(s, 4, alts, lowercase) == [];
    assert Scan(s, 3, alts, lowercase) == [];
    assert Scan(s, 0, alts, lowercase) == [ProgressionChord(Chord(Note(C, 0), Minor), 1)];
  }

  lemma ShadowedQuality()
    ensures CapturedQuality("1Cmaj7", 2, QualityAlternativesAsWritten) == (Minor, 3)
  {
    var s := "1Cmaj7";
    assert s[2..3][0] == s[2] && s[2..3] == "m";
    assert FirstAlternative(s, 2, QualityAlternativesAsWritten) == Some("m");
  }

  lemma ShadowedMatch(lowercase: char -> NoteLetter)
    ensures MatchAt("1Cmaj7", 0, QualityAlternativesAsWritten, lowercase)
      == Some((ProgressionChord(Chord(Note(C, 0), Minor), 1), 3))
  {
    var s := "1Cmaj7";
    assert s[0] == '1' && s[1] == 'C' && IsDigit(s[0]) && IsLetterChar(s[1]);
    assert CapturedLetter('C', lowercase) == C;
    ShadowedQuality();
    assert CapturedAccidental(s, 2) == (Natural, 2);
  }

  /** An alternative occurs right after a prefix exactly when it begins what follows. */
  lemma OccursAfter(t: string, u: string, w: string)
    ensures OccursAt(t + u, |t|, w) <==> |w| <= |u| && u[..|w|] == w
  {
    if |w| <= |u| {
      assert (t + u)[|t|..|t| + |w|] == u[..|w|];
    }
  }

  /** Which alternative is found right after a prefix depends only on the text that follows. */
  lemma {:induction false} AlternativeAfterPrefix(t: string, u: string, alts: seq<string>, i: nat)
    requires i <= |alts|
    ensures FirstAlternativeFrom(t + u, |t|, alts, i) == FirstAlternativeFrom(u, 0, alts, i)
    decreases |alts| - i
  {
    if i < |alts| {
      OccursAfter(t, u, alts[i]);
      OccursAfter([], u, alts[i]);
      assert [] + u == u;
      AlternativeAfterPrefix(t, u, alts, i + 1);
    }
  }

  /** An alternative does not occur where the text's first character differs from its own. */
  lemma FirstCharDiffers(u: string, w: string)
    requires |w| > 0 && (|u| == 0 || u[0] != w[0])
    ensures !OccursAt(u, 0, w)
  {
    if |w| <= |u| {
      assert u[0..|w|][0] == u[0];
    }
  }

  /** An alternative that is a prefix of the text occurs at its start. */
  lemma PrefixOccurs(u: string, w: string)
    requires |w| <= |u| && u[..|w|] == w
    ensures OccursAt(u, 0, w)
  {
    assert u[0..|w|] == u[..|w|];
  }

  /** With the reordered alternatives, each quality's symbol on its own is found whole. */
  lemma SymbolAlone(q: Quality)
    ensures FirstAlternative(LegacyQualities.LegacySymbol(q), 0, QualityAlternatives)
      == if q == Major then None else Some(LegacyQualities.LegacySymbol(q))
  {
    var alts := QualityAlternatives;
    var u := LegacyQualities.LegacySymbol(q);
    match q
    case Major =>
      assert FirstAlternativeFrom(u, 0, alts, 0).None?;
    case MajorSeventh =>
      PrefixOccurs(u, alts[0]);
    case HalfDiminished =>
      assert u[3] != alts[0][3];
      PrefixOccurs(u, alts[1]);
    case MinorSeventh =>
      PrefixOccurs(u, alts[2]);
    case Augmented =>
      FirstCharDiffers(u, alts[0]);
      FirstCharDiffers(u, alts[1]);
      FirstCharDiffers(u, alts[2]);
      PrefixOccurs(u, alts[3]);
    case Diminished =>
      FirstCharDiffers(u, alts[0]);
      FirstCharDiffers(u, alts[1]);
      FirstCharDiffers(u, alts[2]);
      FirstCharDiffers(u, alts[3]);
      PrefixOccurs(u, alts[4]);
    case Minor =>
      FirstCharDiffers(u, alts[5]);
      PrefixOccurs(u, alts[6]);
    case Dominant =>
      FirstCharDiffers(u, alts[0]);
      FirstCharDiffers(u, alts[1]);
      FirstCharDiffers(u, alts[2]);
      FirstCharDiffers(u, alts[3]);
      FirstCharDiffers(u, alts[4]);
      FirstCharDiffers(u, alts[5]);
      FirstCharDiffers(u, alts[6]);
      PrefixOccurs(u, alts[7]);
  }

  /** With the reordered alternatives, the symbol of every quality after a root is captured whole. */
  lemma SymbolCaptured(t: string, q: Quality)
    ensures FirstAlternative(t + LegacyQualities.LegacySymbol(q), |t|, QualityAlternatives)
      == if q == Major then None else Some(LegacyQualities.LegacySymbol(q))
  {
    AlternativeAfterPrefix(t, LegacyQualities.LegacySymbol(q), QualityAlternatives, 0);
    SymbolAlone(q);
  }

  /** The text the accidental group captures for each accidental. */
  function AccidentalSign(a: Accidental): (t: string)
    ensures |t| <= 1 && (t == "" <==> a == Natural)
    ensures t != "" ==> AccidentalFromString(t) == a
  {
    match a
    case Natural => ""
    case Sharp => "#"
    case Flat => "b"
  }

  /** The accidental group after a digit and a letter takes exactly the accidental's sign. */
  lemma AccidentalGroupCaptured(d: char, l: NoteLetter, a: Accidental, u: string)
    requires u == [] || (u[0] != '#' && u[0] != 'b')
    ensures CapturedAccidental([d] + LetterName(l) + AccidentalSign(a) + u, 2) == (a, 2 + |AccidentalSign(a)|)
  {
    var s := [d] + LetterName(l) + AccidentalSign(a) + u;
    if a == Natural {
      assert u != [] ==> s[2] == u[0];
    } else {
      assert s[2] == AccidentalSign(a)[0];
      assert [s[2]] == AccidentalSign(a);
    }
  }

  /** A letter's name is in the letter class and is read back as that letter. */
  lemma LetterCaptured(l: NoteLetter, lowercase: char -> NoteLetter)
    ensures IsLetterChar(LetterName(l)[0]) && CapturedLetter(LetterName(l)[0], lowercase) == l
  {
  }

  /** After a root, the quality group takes the whole symbol and reads it as the quality. */
  lemma QualityGroupCaptured(t: string, q: Quality)
    ensures CapturedQuality(t + LegacyQualities.LegacySymbol(q), |t|, QualityAlternatives)
      == (q, |t + LegacyQualities.LegacySymbol(q)|)
  {
    SymbolCaptured(t, q);
    LegacyQualities.LegacySymbolRoundTrip(q);
  }

  /** A chord written as a bar count digit, a letter, an accidental sign and a quality symbol. */
  function WrittenChord(d: char, l: NoteLetter, a: Accidental, q: Quality): string
  {
    [d] + LetterName(l) + AccidentalSign(a) + LegacyQualities.LegacySymbol(q)
  }

  /** After a digit and a letter, groups that take the rest of the text make one whole match. */
  lemma MatchAfterRoot(t: string, u: string, l: NoteLetter, a: Accidental, q: Quality, lowercase: char -> NoteLetter)
    requires 2 <= |t| && IsDigit(t[0]) && IsLetterChar(t[1]) && CapturedLetter(t[1], lowercase) == l
    requires CapturedAccidental(t + u, 2) == (a, |t|)
    requires CapturedQuality(t + u, |t|, QualityAlternatives) == (q, |t + u|)
    ensures MatchAt(t + u, 0, QualityAlternatives, lowercase)
      == Some((ProgressionChord(Chord(Note(l, AccidentalSemitones(a)), q), (t[0] as int) - ('0' as int)), |t + u|))
  {
    assert (t + u)[0] == t[0] && (t + u)[1] == t[1];
    MatchFound(t + u, 0, QualityAlternatives, lowercase, l, a, |t|, q, |t + u|);
  }

  /** The whole written chord is one match that ends at the end of the text. */
  lemma SingleChordMatch(d: char, l: NoteLetter, a: Accidental, q: Quality, lowercase: char -> NoteLetter)
    requires IsDigit(d)
    ensures MatchAt(WrittenChord(d, l, a, q), 0, QualityAlternatives, lowercase)
      == Some((ProgressionChord(Chord(Note(l, AccidentalSemitones(a)), q), (d as int) - ('0' as int)),
               |WrittenChord(d, l, a, q)|))
  {
    var t := [d] + LetterName(l) + AccidentalSign(a);
    var u := LegacyQualities.LegacySymbol(q);
    assert t + u == WrittenChord(d, l, a, q);
    assert 2 <= |t| && t[0] == d && t[1] == LetterName(l)[0];
    LetterCaptured(l, lowercase);
    AccidentalGroupCaptured(d, l, a, u);
    QualityGroupCaptured(t, q);
    MatchAfterRoot(t, u, l, a, q, lowercase);
  }

  /** With the reordered alternatives, a single chord written as digit, letter, accidental and
      quality symbol reads back as exactly that chord held for that many bars. */
  lemma SingleChordRoundTrip(d: char, l: NoteLetter, a: Accidental, q: Quality, lowercase: char -> NoteLetter)
    requires IsDigit(d)
    ensures Parse(WrittenChord(d, l, a, q), QualityAlternatives, lowercase)
      == Ok([ProgressionChord(Chord(Note(l, AccidentalSemitones(a)), q), (d as int) - ('0' as int))])
  {
    var s := WrittenChord(d, l, a, q);
    var pc := ProgressionChord(Chord(Note(l, AccidentalSemitones(a)), q), (d as int) - ('0' as int));
    SingleChordMatch(d, l, a, q, lowercase);
    ScanTakes(s, 0, QualityAlternatives, lowercase, pc, |s|);
    assert Scan(s, |s|, QualityAlternatives, lowercase) == [];
    assert [pc] + [] == [pc];
  }

  /** Rust's decimal rendering of an unsigned integer. */
  function NatText(n: nat): (t: string)
    ensures |t| >= 1 && forall k :: 0 <= k < |t| ==> IsDigit(t[k])
  {
    var last := [('0' as int + n % 10) as char];
    if n < 10 then last else NatText(n / 10) + last
  }

  /** One entry of `Display for Progression`: "{bars}x{chord}". */
  function EntryText(pc: ProgressionChord): string
  {
    NatText(pc.bars) + "x" + ChordText(pc.chord)
  }

  /** Entries joined by single spaces, as `.join(" ")` does. */
  function JoinWithSpaces(entries: seq<string>): string
  {
    if entries == [] then ""
    else if |entries| == 1 then entries[0]
    else entries[0] + " " + JoinWithSpaces(entries[1..])
  }

  /** `Display for Progression`. */
  function ProgressionText(p: Progression): string
  {
    JoinWithSpaces(seq(|p.chords|, k requires 0 <= k < |p.chords| => EntryText(p.chords[k])))
  }

  function SpaceCount(s: string): nat
  {
    if s == [] then 0 else (if s[0] == ' ' then 1 else 0) + SpaceCount(s[1..])
  }

  lemma {:induction false} SpaceCountAppend(a: string, b: string)
    ensures SpaceCount(a + b) == SpaceCount(a) + SpaceCount(b)
  {
    if a == [] {
      assert a + b == b;
    } else {
      assert (a + b)[1..] == a[1..] + b;
      SpaceCountAppend(a[1..], b);
    }
  }

  lemma {:induction false} NoSpaceCount(s: string)
    requires forall k :: 0 <= k < |s| ==> s[k] != ' '
    ensures SpaceCount(s) == 0
  {
    if s != [] {
      NoSpaceCount(s[1..]);
    }
  }

  /** No entry contains a space: digits, an 'x', a letter, signs and a quality symbol. */
  lemma EntryHasNoSpace(pc: ProgressionChord)
    ensures SpaceCount(EntryText(pc)) == 0
  {
    var root := NoteToString(pc.chord.root);
    var sym := LegacyQualities.LegacySymbol(pc.chord.quality);
    assert forall k :: 0 <= k < |root| ==> root[k] != ' ' by {
      forall k | 0 <= k < |root| ensures root[k] != ' ' {
        if k == 0 { assert root[0] == root[..1][0]; } else { assert root[k] == root[1..][k - 1]; }
      }
    }
    assert forall k :: 0 <= k < |sym| ==> sym[k] != ' ';
    var t := EntryText(pc);
    assert t == NatText(pc.bars) + "x" + root + sym;
    NoSpaceCount(NatText(pc.bars));
    NoSpaceCount(root);
    NoSpaceCount(sym);
    NoSpaceCount("x");
    SpaceCountAppend(NatText(pc.bars), "x");
    SpaceCountAppend(NatText(pc.bars) + "x", root);
    SpaceCountAppend(NatText(pc.bars) + "x" + root, sym);
  }

  /** A progression of n chords displays with exactly n - 1 spaces, all of them separators. */
  lemma {:induction false} JoinedSpaces(entries: seq<string>)
    requires |entries| > 0
    requires forall k :: 0 <= k < |entries| ==> SpaceCount(entries[k]) == 0
    ensures SpaceCount(JoinWithSpaces(entries)) == |entries| - 1
  {
    if |entries| > 1 {
      JoinedSpaces(entries[1..]);
      SpaceCountAppend(entries[0], " ");
      SpaceCountAppend(entries[0] + " ", JoinWithSpaces(entries[1..]));
      assert SpaceCount(" ") == 1;
    }
  }

  lemma ProgressionTextSpaces(p: Progression)
    requires |p.chords| > 0
    ensures SpaceCount(ProgressionText(p)) == |p.chords| - 1
  {
    var entries := seq(|p.chords|, k requires 0 <= k < |p.chords| => EntryText(p.chords[k]));
    forall k | 0 <= k < |entries| ensures SpaceCount(entries[k]) == 0 {
      EntryHasNoSpace(p.chords[k]);
    }
    JoinedSpaces(entries);
  }
}
