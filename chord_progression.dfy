/**
  Chords: diatonic chord progressions over the spelled notes of one scale
  (music/chord_progression.py). The pure part names chords and renders a
  progression; the class `ChordProgression` owns the list that `AddChord`
  appends to.
*/
module Chords {
  import opened Wrappers
  import Scales

  /** Functional numerals for degrees 1..7. */
  const RomanNumerals: seq<string> := ["I", "II", "III", "IV", "V", "VI", "VII"]

  /** Word forms for the ten accidental names of the two alphabets. */
  const NoteMapping: map<string, string> := map[
    "C#" := "CSharp", "Db" := "DFlat",
    "D#" := "DSharp", "Eb" := "EFlat",
    "F#" := "FSharp", "Gb" := "GFlat",
    "G#" := "GSharp", "Ab" := "AFlat",
    "A#" := "ASharp", "Bb" := "BFlat"]

  /** The failures of `add_chord`: its ValueError, and the AttributeError of
      a progression whose scale kind has no quality table. */
  datatype ChordError = DegreeOutOfRange(degree: int) | NoQualityTable

  /** One `(numeral, chord)` pair of a progression. */
  datatype Entry = Entry(numeral: string, chord: string)

  /** The triad quality of each degree, 'M' major, 'm' minor, 'd' diminished;
      only major and minor scales have a table. */
  function QualityTable(kind: Scales.Kind): (r: Option<string>)
    ensures r.Some? <==> kind == Scales.Major || kind == Scales.Minor
    ensures r.Some? ==> |r.value| == 7
    ensures r.Some? ==> forall i :: 0 <= i < 7 ==> r.value[i] in "Mmd"
  {
    match kind
    case Major => Some("MmmMMmd")
    case Minor => Some("mdMmmMM")
    case _ => None
  }

  /** The minor table is the major one read from its sixth degree on: the
      relative minor shares the major scale's triads. */
  lemma MinorTableIsRotatedMajor()
    ensures forall i :: 0 <= i < 7 ==>
      QualityTable(Scales.Minor).value[i] == QualityTable(Scales.Major).value[(i + 5) % 7]
  {
    var minor, major := QualityTable(Scales.Minor).value, QualityTable(Scales.Major).value;
    forall i | 0 <= i < 7 ensures minor[i] == major[(i + 5) % 7] {
      // one case per degree, so each is checked on literal indices
      if i == 0 {} else if i == 1 {} else if i == 2 {} else if i == 3 {} else if i == 4 {} else if i == 5 {} else {}
    }
  }

  /** `note_mapping.get(name, name)`. */
  function StandardName(name: string): string {
    if name in NoteMapping then NoteMapping[name] else name
  }

  /** Every mapped name is a letter and an accidental, and maps to the
      letter followed by the accidental's word. */
  lemma NoteMappingShape()
    ensures forall n :: n in NoteMapping ==>
      |n| == 2 && (n[1] == '#' || n[1] == 'b') &&
      NoteMapping[n] == [n[0]] + AccidentalWord(n[1])
  {
  }

  /** The names of the two alphabets that the mapping leaves alone are the
      seven single letters. */
  lemma UnmappedNotesAreLetters(n: string)
    requires Scales.IsNoteName(n) && n !in NoteMapping
    ensures |n| == 1 && n[0] in "CDEFGAB"
  {
  }

  /** A single-letter name is never mapped, so it is its own chord root. */
  lemma SingleLetterKept(n: string)
    requires |n| == 1
    ensures StandardName(n) == n
  {
    NoteMappingShape();
  }

  /** The word form of an accidental: '#' reads "Sharp", anything else "Flat". */
  function AccidentalWord(accidental: char): string {
    if accidental == '#' then "Sharp" else "Flat"
  }

  /** `StandardName` on a note name: the natural names are kept, an
      accidental name becomes its letter and the accidental's word. */
  lemma StandardNameOfNote(n: string)
    requires Scales.IsNoteName(n)
    ensures |n| == 1 || |n| == 2
    ensures |n| == 1 ==> StandardName(n) == n
    ensures |n| == 2 ==> n[1] in "#b" && StandardName(n) == [n[0]] + AccidentalWord(n[1])
  {
    if n in NoteMapping {
      NoteMappingShape();
    } else {
      UnmappedNotesAreLetters(n);
    }
  }

  /** Names of one or two characters rendered as above cannot collide. */
  lemma WordFormsDiffer(n: string, m: string, sn: string, sm: string)
    requires |n| == 1 ==> sn == n
    requires |n| == 2 ==> n[1] in "#b" && sn == [n[0]] + AccidentalWord(n[1])
    requires |m| == 1 ==> sm == m
    requires |m| == 2 ==> m[1] in "#b" && sm == [m[0]] + AccidentalWord(m[1])
    requires (|n| == 1 || |n| == 2) && (|m| == 1 || |m| == 2)
    requires sn == sm
    ensures n == m
  {
    if |n| == 2 && |m| == 2 {
      assert n[0] == sn[0] && m[0] == sm[0];
      assert n[1] == m[1] by {
        assert |sn| == (if n[1] == '#' then 6 else 5);
        assert |sm| == (if m[1] == '#' then 6 else 5);
      }
      assert n == [n[0], n[1]] && m == [m[0], m[1]];
    }
  }

  /** Distinct note names give distinct chord roots. */
  lemma StandardNameInjective(n: string, m: string)
    requires Scales.IsNoteName(n) && Scales.IsNoteName(m)
    requires StandardName(n) == StandardName(m)
    ensures n == m
  {
    StandardNameOfNote(n);
    StandardNameOfNote(m);
    WordFormsDiffer(n, m, StandardName(n), StandardName(m));
  }

  /** `str.lower` on one character; only ASCII letters occur here. */
  function LowerChar(c: char): char {
    if 'A' <= c <= 'Z' then (c as int + 32) as char else c
  }

  /** `str.lower`: no upper-case ASCII letter remains, and every other
      character is kept. */
  function Lower(s: string): (r: string)
    ensures |r| == |s|
    ensures forall i :: 0 <= i < |r| ==> !('A' <= r[i] <= 'Z')
    ensures forall i :: 0 <= i < |r| && !('A' <= s[i] <= 'Z') ==> r[i] == s[i]
    ensures forall i :: 0 <= i < |r| && 'A' <= s[i] <= 'Z' ==> r[i] as int == s[i] as int + 32
  {
    seq(|s|, i requires 0 <= i < |s| => LowerChar(s[i]))
  }

  /** Lower-casing twice is lower-casing once. */
  lemma LowerIdempotent(s: string)
    ensures Lower(Lower(s)) == Lower(s)
  {
  }

  /** Every numeral is upper case, so lower-casing one changes it. */
  lemma NumeralsChangeWhenLowered(k: nat)
    requires k < |RomanNumerals|
    ensures Lower(RomanNumerals[k]) != RomanNumerals[k]
  {
    assert 'A' <= RomanNumerals[k][0] <= 'Z';
    assert Lower(RomanNumerals[k])[0] != RomanNumerals[k][0];
  }

  /** The name suffix of a quality; anything other than 'm' or 'd' reads as major. */
  function QualitySuffix(q: char): string {
    if q == 'm' then "Minor" else if q == 'd' then "Dim" else "Major"
  }

  /** The quality a chord name denotes, with every non-minor, non-diminished
      quality read as 'M'. */
  function CanonicalQuality(q: char): (r: char)
    ensures r in "Mmd"
    ensures q in "md" ==> r == q
  {
    if q == 'm' || q == 'd' then q else 'M'
  }

  /** The chord name of a root spelled in a scale and a quality. */
  function ChordName(root: string, q: char): string {
    StandardName(root) + QualitySuffix(q)
  }

  /** `s` ends with `suffix`. */
  predicate HasSuffix(s: string, suffix: string) {
    |suffix| <= |s| && s[|s| - |suffix|..] == suffix
  }

  /** Reads a chord name back into its root and quality. */
  function SplitChord(c: string): Option<(string, char)> {
    if HasSuffix(c, "Minor") then Some((c[..|c| - 5], 'm'))
    else if HasSuffix(c, "Dim") then Some((c[..|c| - 3], 'd'))
    else if HasSuffix(c, "Major") then Some((c[..|c| - 5], 'M'))
    else None
  }

  /** A minor chord name reads back as its root and 'm'. */
  lemma SplitMinor(r: string)
    ensures SplitChord(r + "Minor") == Some((r, 'm'))
  {
    var c := r + "Minor";
    assert c[|c| - 5..] == "Minor";
    assert c[..|c| - 5] == r;
  }

  /** A diminished chord name reads back as its root and 'd'. */
  lemma SplitDim(r: string)
    ensures SplitChord(r + "Dim") == Some((r, 'd'))
  {
    var c := r + "Dim";
    assert c[|c| - 1] == 'm';
    assert c[|c| - 3..] == "Dim";
    assert c[..|c| - 3] == r;
  }

  /** A major chord name reads back as its root and 'M'. */
  lemma SplitMajor(r: string)
    ensures SplitChord(r + "Major") == Some((r, 'M'))
  {
    var c := r + "Major";
    assert c[|c| - 4] == 'a' && c[|c| - 1] == 'r';
    assert c[|c| - 5..] == "Major";
    assert c[..|c| - 5] == r;
  }

  /** A chord name determines the standardized root and the quality it was
      built from. */
  lemma SplitChordName(root: string, q: char)
    ensures SplitChord(ChordName(root, q)) == Some((StandardName(root), CanonicalQuality(q)))
  {
    if q == 'm' {
      SplitMinor(StandardName(root));
    } else if q == 'd' {
      SplitDim(StandardName(root));
    } else {
      SplitMajor(StandardName(root));
    }
  }

  /** What `add_chord(degree)` appends, or the error it raises, for a
      progression over `notes` with quality table `qualities`. */
  function ChordAt(notes: seq<string>, qualities: Option<string>, degree: int): (r: Result<Entry, ChordError>)
    requires |notes| <= |RomanNumerals|
    requires qualities.Some? ==> |notes| <= |qualities.value|
    ensures r.Ok? <==> 1 <= degree <= |notes| && qualities.Some?
    ensures !(1 <= degree <= |notes|) ==> r == Err(DegreeOutOfRange(degree))
    ensures 1 <= degree <= |notes| && qualities.None? ==> r == Err(NoQualityTable)
  {
    if !(1 <= degree <= |notes|) then Err(DegreeOutOfRange(degree))
    else if qualities.None? then Err(NoQualityTable)
    else
      var q := qualities.value[degree - 1];
      var numeral := RomanNumerals[degree - 1];
      Ok(Entry(if q == 'm' then Lower(numeral) else numeral, ChordName(notes[degree - 1], q)))
  }

  /** A successful entry names the degree's note and quality, and its numeral
      is the degree's numeral, lower-cased exactly when the triad is minor. */
  lemma ChordAtMeaning(notes: seq<string>, qualities: Option<string>, degree: int)
    requires |notes| <= |RomanNumerals|
    requires qualities.Some? ==> |notes| <= |qualities.value|
    requires ChordAt(notes, qualities, degree).Ok?
    ensures var e, q := ChordAt(notes, qualities, degree).value, qualities.value[degree - 1];
      SplitChord(e.chord) == Some((StandardName(notes[degree - 1]), CanonicalQuality(q))) &&
      Lower(e.numeral) == Lower(RomanNumerals[degree - 1]) &&
      (e.numeral == RomanNumerals[degree - 1] <==> q != 'm') &&
      (q == 'm' ==> e.numeral == Lower(RomanNumerals[degree - 1]))
  {
    var q := qualities.value[degree - 1];
    SplitChordName(notes[degree - 1], q);
    LowerIdempotent(RomanNumerals[degree - 1]);
    NumeralsChangeWhenLowered(degree - 1);
  }

  /** Degree `d` of the relative minor is the same chord as degree `d + 5`
      (wrapping past seven) of the major scale; only the numerals differ. */
  lemma RelativeMinorChords(s: Scales.Scale, d: int)
    requires s.kind == Scales.Major && Scales.BuildScale(s).Ok? && 1 <= d <= 7
    ensures Scales.BuildScale(Scales.RelativeMinorOf(s)).Ok?
    ensures var major, minor := Scales.BuildScale(s).value, Scales.BuildScale(Scales.RelativeMinorOf(s)).value;
      |major| == 7 && |minor| == 7 &&
      ChordAt(minor, QualityTable(Scales.Minor), d).Ok? &&
      ChordAt(major, QualityTable(Scales.Major), (d + 4) % 7 + 1).Ok? &&
      ChordAt(minor, QualityTable(Scales.Minor), d).value.chord
        == ChordAt(major, QualityTable(Scales.Major), (d + 4) % 7 + 1).value.chord
  {
    Scales.RelativeMinorScale(s);
    MinorTableIsRotatedMajor();
    var major, minor := Scales.BuildScale(s).value, Scales.BuildScale(Scales.RelativeMinorOf(s)).value;
    assert minor[d - 1] == major[(d + 4) % 7];
    assert QualityTable(Scales.Minor).value[d - 1] == QualityTable(Scales.Major).value[(d + 4) % 7];
  }

  /** `f"{func} ({chord})"`. */
  function FormatEntry(e: Entry): string {
    e.numeral + " (" + e.chord + ")"
  }

  /** `' - '.join(...)` of the formatted entries, in order. */
  function Render(p: seq<Entry>): string {
    if |p| == 0 then ""
    else if |p| == 1 then FormatEntry(p[0])
    else Render(p[..|p| - 1]) + " - " + FormatEntry(p[|p| - 1])
  }

  /** Appending an entry extends the rendering at its end: the first entry
      alone, any later one after a separator. */
  lemma {:induction false} RenderAppend(p: seq<Entry>, e: Entry)
    ensures Render(p + [e]) == if |p| == 0 then FormatEntry(e) else Render(p) + " - " + FormatEntry(e)
  {
    assert (p + [e])[..|p|] == p;
  }

  /** The rendering of a progression starts with the rendering of every
      prefix of it: later chords never rewrite earlier ones. */
  lemma {:induction false} RenderPrefix(p: seq<Entry>, k: nat)
    requires 0 < k <= |p|
    ensures Render(p[..k]) <= Render(p)
    decreases |p|
  {
    if k < |p| {
      RenderPrefix(p[..|p| - 1], k);
      assert p[..|p| - 1][..k] == p[..k];
      assert Render(p) == Render(p[..|p| - 1]) + " - " + FormatEntry(p[|p| - 1]);
    } else {
      assert p[..k] == p;
    }
  }

  /** Builder of a progression over one built scale. */
  class ChordProgression {
    /** The spelled notes of the scale, `self.scale`. */
    const scale: seq<string>
    /** `self.chord_qualities`; absent for a scale kind without a table. */
    const qualities: Option<string>
    /** `self.progression`, in insertion order. */
    var progression: seq<Entry>

    /** The scale has at most seven notes, and a table covers every one. */
    predicate Valid() {
      |scale| <= |RomanNumerals| && (qualities.Some? ==> |scale| <= |qualities.value|)
    }

    /** `ChordProgression(scale)` for a scale that builds. */
    constructor(s: Scales.Scale)
      requires Scales.BuildScale(s).Ok?
      ensures scale == Scales.BuildScale(s).value
      ensures qualities == QualityTable(s.kind)
      ensures progression == []
      ensures Valid()
    {
      scale := Scales.BuildScale(s).value;
      qualities := QualityTable(s.kind);
      progression := [];
      Scales.BuildScaleLength(s);
    }

    /** `add_chord(degree)`: on success one entry is appended at the end and
        the rendering grows by it; on an error nothing changes. */
    method AddChord(degree: int) returns (r: Result<Entry, ChordError>)
      requires Valid()
      modifies this
      ensures r == ChordAt(scale, qualities, degree)
      ensures r.Ok? ==> progression == old(progression) + [r.value]
      ensures r.Err? ==> progression == old(progression)
      ensures r.Ok? ==>
        GetProgression() == (if |old(progression)| == 0 then FormatEntry(r.value)
                             else old(GetProgression()) + " - " + FormatEntry(r.value))
    {
      if 1 <= degree <= |scale| {
        var chordRoot := scale[degree - 1];
        if qualities.None? {
          return Err(NoQualityTable);
        }
        var quality := qualities.value[degree - 1];
        chordRoot := StandardName(chordRoot);
        var numeral := RomanNumerals[degree - 1];
        var chord;
        if quality == 'm' {
          numeral := Lower(numeral);
          chord := chordRoot + "Minor";
        } else if quality == 'd' {
          chord := chordRoot + "Dim";
        } else {
          chord := chordRoot + "Major";
        }
        RenderAppend(progression, Entry(numeral, chord));
        progression := progression + [Entry(numeral, chord)];
        r := Ok(Entry(numeral, chord));
      } else {
        r := Err(DegreeOutOfRange(degree));
      }
    }

    /** `get_progression()`. */
    function GetProgression(): string
      reads this
    {
      Render(progression)
    }
  }

  /** `ChordProgression(scale)` where building the scale may fail: the
      scale's error is raised and no progression exists. */
  method NewProgression(s: Scales.Scale) returns (r: Result<ChordProgression, Scales.ScaleError>)
    ensures r.Ok? <==> Scales.BuildScale(s).Ok?
    ensures r.Err? ==> r.error == Scales.BuildScale(s).error
    ensures r.Ok? ==> fresh(r.value) && r.value.Valid() && r.value.progression == []
    ensures r.Ok? ==> r.value.scale == Scales.BuildScale(s).value && r.value.qualities == QualityTable(s.kind)
  {
    match Scales.BuildScale(s)
    case Err(e) =>
      r := Err(e);
    case Ok(_) =>
      var p := new ChordProgression(s);
      r := Ok(p);
  }

  /** The three formatted entries of the I-IV-V progression of C major. */
  lemma CMajorEntries()
    ensures FormatEntry(Entry("I", "CMajor")) == "I (CMajor)"
    ensures FormatEntry(Entry("IV", "FMajor")) == "IV (FMajor)"
    ensures FormatEntry(Entry("V", "GMajor")) == "V (GMajor)"
  {
  }

  /** The rendering of the I-IV-V progression of C major. */
  lemma CMajorRendering()
    ensures Render([Entry("I", "CMajor"), Entry("IV", "FMajor"), Entry("V", "GMajor")])
         == "I (CMajor) - IV (FMajor) - V (GMajor)"
  {
    var p := [Entry("I", "CMajor"), Entry("IV", "FMajor"), Entry("V", "GMajor")];
    CMajorEntries();
    assert p[..2][..1] == [p[0]];
    assert Render(p[..2]) == "I (CMajor)" + " - " + "IV (FMajor)";
  }

  /** Degrees 1, 4 and 5 of C major are its three major triads; degree 8 is past the scale. */
  lemma CMajorChords()
    ensures ChordAt(["C", "D", "E", "F", "G", "A", "B"], Some("MmmMMmd"), 1) == Ok(Entry("I", "CMajor"))
    ensures ChordAt(["C", "D", "E", "F", "G", "A", "B"], Some("MmmMMmd"), 4) == Ok(Entry("IV", "FMajor"))
    ensures ChordAt(["C", "D", "E", "F", "G", "A", "B"], Some("MmmMMmd"), 5) == Ok(Entry("V", "GMajor"))
    ensures ChordAt(["C", "D", "E", "F", "G", "A", "B"], Some("MmmMMmd"), 8) == Err(DegreeOutOfRange(8))
  {
    SingleLetterKept("C");
    SingleLetterKept("F");
    SingleLetterKept("G");
    assert "C" + "Major" == "CMajor";
    assert "F" + "Major" == "FMajor";
    assert "G" + "Major" == "GMajor";
  }

  /** A minor: the tonic triad is minor and its numeral lower case; the
      diminished second keeps its upper-case numeral, since only minor
      triads are lower-cased. */
  lemma AMinorChords()
    ensures ChordAt(["A", "B", "C", "D", "E", "F", "G"], Some("mdMmmMM"), 1) == Ok(Entry("i", "AMinor"))
    ensures ChordAt(["A", "B", "C", "D", "E", "F", "G"], Some("mdMmmMM"), 2) == Ok(Entry("II", "BDim"))
  {
    SingleLetterKept("A");
    SingleLetterKept("B");
    assert Lower("I") == "i";
    assert "A" + "Minor" == "AMinor";
    assert "B" + "Dim" == "BDim";
  }

  /** Accidentals take their word form: 'Bb' in F major, 'F#' in D major. */
  lemma AccidentalChords()
    ensures ChordAt(["F", "G", "A", "Bb", "C", "D", "E"], Some("MmmMMmd"), 4) == Ok(Entry("IV", "BFlatMajor"))
    ensures ChordAt(["D", "E", "F#", "G", "A", "B", "C#"], Some("MmmMMmd"), 3) == Ok(Entry("iii", "FSharpMinor"))
  {
    assert StandardName("Bb") == "BFlat";
    assert StandardName("F#") == "FSharp";
    assert Lower("III") == "iii";
    assert "BFlat" + "Major" == "BFlatMajor";
    assert "FSharp" + "Minor" == "FSharpMinor";
  }

  /** A fresh progression over C major in sharps. */
  method NewCMajorProgression() returns (p: ChordProgression)
    ensures fresh(p) && p.Valid() && p.progression == []
    ensures p.scale == ["C", "D", "E", "F", "G", "A", "B"] && p.qualities == Some("MmmMMmd")
  {
    Scales.CMajorExample();
    p := new ChordProgression(Scales.Scale("C", false, Scales.Major));
  }

  /** I, IV and V of C major, as in the example of music/tests.py; a degree past the
      seventh is refused and leaves the progression as it was. */
  method CMajorProgressionExample() returns (s: string)
    ensures s == "I (CMajor) - IV (FMajor) - V (GMajor)"
  {
    var p := NewCMajorProgression();
    CMajorChords();
    var one := p.AddChord(1);
    var four := p.AddChord(4);
    var five := p.AddChord(5);
    var past := p.AddChord(8);
    assert past.Err?;
    assert p.progression == [Entry("I", "CMajor"), Entry("IV", "FMajor"), Entry("V", "GMajor")];
    CMajorRendering();
    s := p.GetProgression();
  }
}
