# Scales and chord progressions, modelled in Dafny

This project models the music-theory core of a small ear-training program. It has two parts.

- **Scales** (`scale.dfy`, after `music/scale.py`):
  - The program has two 12-name pitch alphabets, one spelled with sharps and one with flats.
  - The constructor accepts a root from either alphabet.
  - `build_scale` finds the root in the chosen alphabet. It then spells every semitone offset of the scale as `notes[(index(root) + offset) mod 12]`, in degree order.
  - The offset lists come from `MajorScale`, `MinorScale` (natural minor) and `PentatonicScale`. `PentatonicScale` parses a trailing `m` off its input to choose the minor shape.
  - Three set operations compare the spelled names of two scales: the two differences and the union.
- **Chords** (`chord_progression.dfy`, after `music/chord_progression.py`):
  - `ChordProgression` is bound to the spelled notes of one scale and to that scale kind's table of triad qualities.
  - `add_chord(degree)` checks the range and picks the degree's note. It rewrites an accidental name into word form (`Bb` becomes `BFlat`), names the chord with a `Major`, `Minor` or `Dim` suffix, and lower-cases the Roman numeral of a minor triad. It then appends the `(numeral, chord)` pair to the progression.
  - `get_progression` renders the pairs as `numeral (chord)` joined by ` - `.

`wrappers.dfy` holds `Option` and `Result`. The errors Python raises become `Err` values:

- `InvalidRoot`: the constructor's `ValueError`.
- `RootNotInAlphabet`: `list.index`'s `ValueError`.
- `NoScaleDegrees`: the `AttributeError` of the base `Scale`, which has no offsets.
- `DegreeOutOfRange`: `add_chord`'s `ValueError`.
- `NoQualityTable`: the `AttributeError` of a progression over a pentatonic scale, which sets no quality table.

Every succeeding call returns `Ok`.

Design decisions:

- **Scales.** Scales are values of the datatype `Scale`. Their fields are assigned once and never change, so the scale functions are pure.
- **The `Kind` tag.** A `Kind` stands for the Python subclass that is picked with `isinstance`.
- **`ChordProgression`.** It is a class:
  - the scale's notes and the quality table are `const` fields;
  - the progression is a `seq` field;
  - `AddChord` reassigns that field in the same steps as the Python method.
- **`AddChord`'s contract.** It is stated against the pure function `ChordAt`. The lemmas about `ChordAt`, `SplitChord` and `Render` state what an entry and the rendering mean.
- **Union spelling.** `union` compares names literally, as `music/scale.py:34-38` does; neither scale is respelled into the other's alphabet. `Scales.UnionDoesNotRespell` shows the result: the union of C major in sharps with F major in flats contains `Bb`, and with F major in sharps it contains `A#`.
- **Relative minor.** The model also proves that the natural minor scale on a major scale's sixth degree has the major scale's notes, read from that degree on, and that every built natural minor scale arises this way from the major scale three semitones above it. The same holds for the chords of a major scale and its relative minor.

## Model

| member | source | states |
|---|---|---|
| Scales.Alphabet | music/scale.py:12 | the alphabet has 12 names; it is the flat list exactly when `use_flats`, otherwise the sharp list |
| Scales.Notes | music/scale.py:12 | `self.notes`; no contract of its own, its meaning is stated by `Scales.Alphabet` |
| Scales.IsNoteName | music/scale.py:8 | the constructor's test, a name of either alphabet; no contract of its own, its use is stated by `Scales.NewScale` |
| Scales.IndexOf | music/scale.py:16 | `list.index`: the position holds the name and no earlier position does |
| Scales.AlphabetsWellFormed | music/scale.py:4-5 | neither alphabet repeats a name; a name in both alphabets is at the same position in each |
| Scales.AlphabetDistinct | music/scale.py:12 | the chosen alphabet repeats no name |
| Scales.SharedNameSameIndex | music/scale.py:4-5 | a name both alphabets share has the same index in both |
| Scales.ScaleDegrees | music/scale.py:45-72 | the base class has no offsets; each subclass's list starts at 0, stays below 12, and has 7 entries (major, minor) or 5 (pentatonic) |
| Scales.NewScale | music/scale.py:7-12 | construction succeeds exactly when the root is a name of either alphabet, whichever alphabet is chosen; otherwise it fails with `InvalidRoot(root)` |
| Scales.InvalidRootsRejected | music/scale.py:7-9 | `H` and `C#b` are refused with `InvalidRoot` |
| Scales.MajorScale | music/scale.py:61-65 | accepted exactly for note names; the offsets are `[0,2,4,5,7,9,11]` |
| Scales.MinorScale | music/scale.py:68-72 | accepted exactly for note names; the offsets are `[0,2,3,5,7,8,10]` |
| Scales.ParseScaleString | music/scale.py:52-58 | the type is `m` exactly when the string ends in `m`; root plus the cut `m` rebuilds the string |
| Scales.PentatonicScale | music/scale.py:41-50 | accepted exactly when the parsed root is a note name, else `InvalidRoot` of that root; a trailing `m` selects `[0,3,5,7,10]`, otherwise `[0,2,4,7,9]` |
| Scales.Spell | music/scale.py:17 | as many notes as offsets; note i is the alphabet entry `(index(root) + offset_i) mod 12` |
| Scales.SpellPositions | music/scale.py:16-17 | in a repetition-free alphabet, each spelled note's own index is the root's index plus its offset, mod 12 |
| Scales.BuildScale | music/scale.py:14-17 | succeeds exactly when the root is in the chosen alphabet and the kind has offsets; a root missing from that alphabet gives `RootNotInAlphabet` even though construction accepted it; the result is the spelling above |
| Scales.SpellStartsAtRoot | music/scale.py:17 | a first offset of 0 spells the root first |
| Scales.BuildScaleStartsAtRoot | music/scale.py:14-17 | every built scale starts with its root |
| Scales.BuildScaleLength | music/scale.py:14-17 | a built major or minor scale has 7 notes, a pentatonic one 5 |
| Scales.BuildScaleInAlphabet | music/scale.py:14-17 | every spelled note is a name of the scale's own alphabet |
| Scales.MinorOffsetsAreRotatedMajor | music/scale.py:61-72 | 9 plus the i-th minor offset is the major offset five degrees on, up to an octave |
| Scales.RotatedSpelling | music/scale.py:17 | two offset lists related by that shift spell the same notes in rotation |
| Scales.RelativeMinor | music/scale.py:61-72 | the minor spelling on position k+9 is the major spelling on position k, read from its sixth degree |
| Scales.RelativeMinorOf | music/scale.py:68-72 | a helper of the model, not an operation of the Python code: `MinorScale` applied to the sixth degree of a major root; the result is exactly what `MinorScale` builds on that name in the same alphabet, and its root sits nine positions (mod 12) after the major root |
| Scales.RelativeMajorOf | music/scale.py:61-65 | a helper of the model: `MajorScale` applied to the name three positions (mod 12) after a minor root, in the same alphabet |
| Scales.RelativeMajorRoundTrip | music/scale.py:61-72 | the relative minor of a minor scale's relative major is that minor scale |
| Scales.RelativeMinorScale | music/scale.py:14-17 | a built major scale's relative minor builds, and its notes are the major notes rotated by five degrees |
| Scales.MinorHasRelativeMajor | music/scale.py:14-17 | every built natural minor scale has a relative major that builds, whose notes read from the sixth degree are the minor scale's notes |
| Scales.SpellingPreservesPitches | music/scale.py:4-17 | on a natural root, the sharp and flat spellings of any offsets agree note by note in pitch class |
| Scales.NoteSet | music/scale.py:24-25 | `set(...)`: membership is membership in the list |
| Scales.WhatDoIHaveThatYouDoNot | music/scale.py:22-26 | fails exactly when a build fails (the first scale's error first); otherwise the names of the first scale that the second lacks, compared literally |
| Scales.WhatDoYouHaveIDoNot | music/scale.py:28-32 | same failures; otherwise the names of the second scale that the first lacks |
| Scales.Union | music/scale.py:34-38 | same failures; otherwise the names in either scale, with no respelling |
| Scales.DifferencesMirror | music/scale.py:22-32 | `a.what_do_you_have_i_do_not(b)` succeeds with `b.what_do_i_have_that_you_do_not(a)` and equals it; neither difference shares a name with the subtracted scale |
| Scales.UnionCommutesAndSplits | music/scale.py:34-38 | union is commutative and is the two differences plus the shared names, so both differences are subsets of it |
| Scales.SetOperationsOfSpellings | music/scale.py:22-38 | for two built scales, the three operations are set difference and union of their spelled names |
| Scales.FlatRootWithSharpAlphabet | music/scale.py:14-16 | `MajorScale('Bb')` with sharps is constructed, but building it fails with `RootNotInAlphabet`; with flats it builds |
| Scales.KeysAgainstAlphabets | music/scale.py:2-5 | every sharp key is a sharp name; every flat key but `Cb` is a flat name; `Cb` is no note name, so `MajorScale('Cb', flats)` is refused |
| Scales.SpellMatches | music/scale.py:17 | the spelling equals a list that agrees with the formula at every position |
| Scales.CMajorExample | music/scale.py:61-65 | C major in sharps is `C D E F G A B` |
| Scales.GMajorExample | music/scale.py:61-65 | G major in sharps is `G A B C D E F#` |
| Scales.FMajorFlatsExample | music/scale.py:61-65 | F major in flats is `F G A Bb C D E` |
| Scales.FMajorSharpsExample | music/scale.py:61-65 | F major in sharps is `F G A A# C D E` |
| Scales.AMinorExample | music/scale.py:68-72 | A minor is `A B C D E F G` |
| Scales.PentatonicMajorExample | music/scale.py:41-58 | `PentatonicScale('C')` is the major shape `C D E G A` |
| Scales.PentatonicMinorExample | music/scale.py:41-58 | `PentatonicScale('Am')` is the minor shape `A C D E G` |
| Scales.CAndGNames | music/scale.py:22-38 | the differences and union of the C and G major name sets |
| Scales.SetOperationExamples | music/scale.py:22-38 | C major against G major: `{F}`, `{F#}` and `{C,D,E,F,F#,G,A,B}` |
| Scales.CAndFNames | music/scale.py:34-38 | the unions of C major's names with the flat and sharp F major names |
| Scales.UnionDoesNotRespell | music/scale.py:34-38 | the union with F major in flats contains `Bb`; in sharps it contains `A#` instead |
| Chords.QualityTable | music/chord_progression.py:18-22 | a table exists exactly for major and minor scales; it has 7 entries, each `M`, `m` or `d` |
| Chords.MinorTableIsRotatedMajor | music/chord_progression.py:19-22 | the minor table is the major one read from its sixth entry |
| Chords.NoteMappingShape | music/chord_progression.py:6-12 | every mapped name is a letter and `#` or `b`, mapped to the letter followed by `Sharp` or `Flat` |
| Chords.UnmappedNotesAreLetters | music/chord_progression.py:6-12 | the note names the mapping leaves out are the seven single letters |
| Chords.StandardName | music/chord_progression.py:30 | `note_mapping.get(root, root)`; no contract of its own, its meaning is stated by `Chords.StandardNameOfNote` and `Chords.StandardNameInjective` |
| Chords.SingleLetterKept | music/chord_progression.py:30 | a single-letter name keeps its spelling |
| Chords.StandardNameOfNote | music/chord_progression.py:30 | natural names are kept; the ten accidental names take their word form |
| Chords.WordFormsDiffer | music/chord_progression.py:30 | no two one- or two-letter names share a rendering |
| Chords.StandardNameInjective | music/chord_progression.py:30 | distinct note names give distinct chord roots |
| Chords.Lower | music/chord_progression.py:34 | no upper-case letter remains; upper-case letters shift to lower case, everything else is kept |
| Chords.LowerIdempotent | music/chord_progression.py:34 | lower-casing twice is lower-casing once |
| Chords.NumeralsChangeWhenLowered | music/chord_progression.py:32-34 | lower-casing any numeral changes it |
| Chords.CanonicalQuality | music/chord_progression.py:33-39 | every quality reads as `M`, `m` or `d`; `m` and `d` are kept |
| Chords.QualitySuffix | music/chord_progression.py:33-39 | the suffix choice; no contract of its own, its meaning is stated by `Chords.SplitChordName` |
| Chords.ChordName | music/chord_progression.py:30-39 | the standardized root followed by the suffix; no contract of its own, its meaning is stated by `Chords.SplitChordName` |
| Chords.SplitMinor | music/chord_progression.py:33-35 | a name with the suffix `Minor` reads back as its root and `m` |
| Chords.SplitDim | music/chord_progression.py:36-37 | a name with the suffix `Dim` reads back as its root and `d` |
| Chords.SplitMajor | music/chord_progression.py:38-39 | a name with the suffix `Major` reads back as its root and `M` |
| Chords.SplitChordName | music/chord_progression.py:30-39 | a chord name determines the standardized root and the quality: `Minor` for `m`, `Dim` for `d`, `Major` otherwise |
| Chords.ChordAt | music/chord_progression.py:24-43 | an entry exists exactly when 1 <= degree <= number of notes and the kind has a table; otherwise `DegreeOutOfRange(degree)`, or `NoQualityTable` in range |
| Chords.ChordAtMeaning | music/chord_progression.py:26-39 | the entry's chord is the degree's note, standardized, with its quality's suffix; the numeral is the degree's numeral, kept exactly when the triad is not minor and otherwise that numeral lower-cased |
| Chords.RelativeMinorChords | music/chord_progression.py:19-39 | degree d of a major scale's relative minor is the same chord as degree d+5 (wrapping past seven) of the major scale |
| Chords.FormatEntry | music/chord_progression.py:46 | the f-string `numeral (chord)`; no contract of its own, its values are stated by `Chords.CMajorEntries` |
| Chords.Render | music/chord_progression.py:46 | the ` - ` join in insertion order; no contract of its own, its meaning is stated by `Chords.RenderAppend` and `Chords.RenderPrefix` |
| Chords.ChordProgression.GetProgression | music/chord_progression.py:45-46 | `get_progression()`, the rendering of the progression; no contract of its own, its growth is stated by `Chords.ChordProgression.AddChord`, `Chords.RenderAppend` and `Chords.RenderPrefix` |
| Chords.RenderAppend | music/chord_progression.py:46 | appending an entry adds its formatted text at the end, after ` - ` unless it is the first |
| Chords.RenderPrefix | music/chord_progression.py:46 | the rendering of any prefix of a progression is a prefix of its rendering |
| Chords.ChordProgression.constructor | music/chord_progression.py:14-22 | the notes are the built scale, the table is the kind's, and the progression starts empty |
| Chords.ChordProgression.AddChord | music/chord_progression.py:24-43 | returns the `ChordAt` entry or error; on success exactly that entry is appended and the rendering grows by it; on an error the progression is unchanged |
| Chords.NewProgression | music/chord_progression.py:14-16 | fails with the scale's own error exactly when the scale does not build; otherwise a fresh, empty progression over it |
| Chords.CMajorChords | music/chord_progression.py:24-43 | in C major, degrees 1, 4 and 5 give `I (CMajor)`, `IV (FMajor)`, `V (GMajor)`, and degree 8 is out of range |
| Chords.AMinorChords | music/chord_progression.py:32-37 | in A minor, degree 1 is `i`/`AMinor`; degree 2 is `II`/`BDim`, keeping its upper-case numeral |
| Chords.AccidentalChords | music/chord_progression.py:29-30 | `Bb` gives `BFlatMajor` in F major; `F#` gives `FSharpMinor` in D major |
| Chords.CMajorEntries | music/chord_progression.py:46 | the three formatted entries of I-IV-V in C major |
| Chords.CMajorRendering | music/chord_progression.py:46 | I-IV-V in C major renders as `I (CMajor) - IV (FMajor) - V (GMajor)` |
| Chords.NewCMajorProgression | music/chord_progression.py:14-22 | a fresh, empty progression over C major in sharps with the major table |
| Chords.CMajorProgressionExample | music/chord_progression.py:24-46 | adding degrees 1, 4 and 5, then refusing degree 8, gives `I (CMajor) - IV (FMajor) - V (GMajor)` |

## Left out

- `__str__` of `Scale` and of `ChordProgression` (music/scale.py:19-20, music/chord_progression.py:48-49): display text that depends on Python class names.
- `SHARP_KEYS` and `FLAT_KEYS` are kept as constants and compared with the alphabets, but no operation in music/scale.py reads them.
- The error message text of the raised exceptions: each `Err` holds the offending value instead of the formatted message.
- Default arguments (`use_flats=False`): every call in the model passes the alphabet choice explicitly.
- `len(self.notes)` in `build_scale` is always 12, so the modulus is written as 12.
- Chords.Lower: models `str.lower` on ASCII letters only, because only the ASCII Roman numerals are ever lower-cased; Unicode case mapping is not modelled.
- `get_intervals`, `to_flats`/`to_sharps`, the harmonic and melodic minor scales and the mode classes appear in the tests but are not defined in music/scale.py, so they are not part of this model.
- music/music_generator.py, music/interval_generator.py, music/analyse_timing.py, music/play_chords.py and music/play_notes.py are not part of this model. They hold random choice, timed loops, text-to-speech, audio playback, file tables and numeric signal analysis.
