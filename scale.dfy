/**
  Scales: the two 12-name pitch alphabets, scale construction from semitone
  offsets, and the literal set comparisons between the spelled notes of two
  scales (music/scale.py).
*/
module Scales {
  import opened Wrappers

  /** Key names music/scale.py lists as conventionally sharp or flat; no operation reads them. */
  const SharpKeys: seq<string> := ["C", "G", "D", "A", "E", "B", "F#", "C#"]
  const FlatKeys: seq<string> := ["F", "Bb", "Eb", "Ab", "Db", "Gb", "Cb"]

  /** The pitch alphabets; position k of either one is pitch class k (0 is C). */
  const SharpNotes: seq<string> := ["C", "C#", "D", "D#", "E", "F", "F#", "G", "G#", "A", "A#", "B"]
  const FlatNotes: seq<string> := ["C", "Db", "D", "Eb", "E", "F", "Gb", "G", "Ab", "A", "Bb", "B"]

  /** The failures of the Python code: the constructor's ValueError, the
      ValueError of `list.index`, and the AttributeError of a scale without degrees. */
  datatype ScaleError =
    | InvalidRoot(root: string)
    | RootNotInAlphabet(root: string)
    | NoScaleDegrees

  /** Which class built the scale: the base `Scale` (no degrees) or a subclass. */
  datatype Kind = Plain | Major | Minor | PentatonicMajor | PentatonicMinor

  /** A constructed scale; immutable once built. */
  datatype Scale = Scale(root: string, useFlats: bool, kind: Kind)

  /** The alphabet a scale spells with: the flat one exactly when `use_flats`. */
  function Alphabet(useFlats: bool): (r: seq<string>)
    ensures |r| == 12
    ensures r == FlatNotes <==> useFlats
    ensures r == SharpNotes <==> !useFlats
  {
    assert SharpNotes[1] != FlatNotes[1];
    if useFlats then FlatNotes else SharpNotes
  }

  /** `notes` of a constructed scale. */
  function Notes(s: Scale): seq<string> {
    Alphabet(s.useFlats)
  }

  /** True for a name of either alphabet. */
  predicate IsNoteName(n: string) {
    n in SharpNotes || n in FlatNotes
  }

  /** No element occurs twice. */
  predicate Distinct<T(==)>(xs: seq<T>) {
    forall i, j :: 0 <= i < j < |xs| ==> xs[i] != xs[j]
  }

  /** First position of `x` in `xs`, as Python's `list.index`. */
  function IndexOf<T(==)>(xs: seq<T>, x: T): (r: nat)
    requires x in xs
    ensures r < |xs| && xs[r] == x
    ensures forall j :: 0 <= j < r ==> xs[j] != x
  {
    IndexFrom(xs, x, 0)
  }

  /** The scan behind `IndexOf`, from position `start` on. */
  function IndexFrom<T(==)>(xs: seq<T>, x: T, start: nat): (r: nat)
    requires start <= |xs| && x in xs[start..]
    ensures start <= r < |xs| && xs[r] == x
    ensures forall j :: start <= j < r ==> xs[j] != x
    decreases |xs| - start
  {
    if xs[start] == x then start
    else
      assert xs[start..] == [xs[start]] + xs[start + 1..];
      IndexFrom(xs, x, start + 1)
  }

  /** On a list without repetitions, `IndexOf` inverts indexing. */
  lemma IndexOfDistinct<T>(xs: seq<T>, k: nat)
    requires k < |xs| && Distinct(xs)
    ensures IndexOf(xs, xs[k]) == k
  {
  }

  /** The first occurrence of `xs[k]` is at `k` when no earlier element equals it. */
  lemma IndexOfAt<T>(xs: seq<T>, k: nat)
    requires k < |xs|
    requires forall j :: 0 <= j < k ==> xs[j] != xs[k]
    ensures IndexOf(xs, xs[k]) == k
  {
  }

  /** Neither alphabet repeats a name, and a name both alphabets share sits
      at the same position in each: spelling never changes a pitch class. */
  lemma AlphabetsWellFormed()
    ensures Distinct(SharpNotes) && Distinct(FlatNotes)
    ensures forall i, j :: 0 <= i < 12 && 0 <= j < 12 && SharpNotes[i] == FlatNotes[j] ==> i == j
  {
  }

  /** Whichever alphabet is chosen, it repeats no name. */
  lemma AlphabetDistinct(useFlats: bool)
    ensures Distinct(Alphabet(useFlats))
  {
    AlphabetsWellFormed();
  }

  /** A shared name has the same index in both alphabets. */
  lemma SharedNameSameIndex(n: string)
    requires n in SharpNotes && n in FlatNotes
    ensures IndexOf(SharpNotes, n) == IndexOf(FlatNotes, n)
  {
    AlphabetsWellFormed();
  }

  /** The semitone offsets each class fixes; the base class has none. */
  function ScaleDegrees(k: Kind): (r: Option<seq<nat>>)
    ensures r.None? <==> k == Plain
    ensures r.Some? ==> |r.value| > 0 && r.value[0] == 0
    ensures r.Some? ==> forall i :: 0 <= i < |r.value| ==> r.value[i] < 12
    ensures r.Some? ==> |r.value| == (if k == Major || k == Minor then 7 else 5)
  {
    match k
    case Plain => None
    case Major => Some([0, 2, 4, 5, 7, 9, 11])
    case Minor => Some([0, 2, 3, 5, 7, 8, 10])
    case PentatonicMinor => Some([0, 3, 5, 7, 10])
    case PentatonicMajor => Some([0, 2, 4, 7, 9])
  }

  /** The `Scale` constructor: the root must be a name of either alphabet,
      whichever alphabet is chosen. */
  function NewScale(root: string, useFlats: bool, kind: Kind): (r: Result<Scale, ScaleError>)
    ensures r.Ok? <==> IsNoteName(root)
    ensures r.Ok? ==> r.value.root == root && r.value.useFlats == useFlats && r.value.kind == kind
    ensures r.Err? ==> r.error == InvalidRoot(root)
  {
    if root !in SharpNotes && root !in FlatNotes then Err(InvalidRoot(root))
    else Ok(Scale(root, useFlats, kind))
  }

  /** `MajorScale(root, use_flats)`. */
  function MajorScale(root: string, useFlats: bool): (r: Result<Scale, ScaleError>)
    ensures r.Ok? <==> IsNoteName(root)
    ensures r.Ok? ==> r.value == Scale(root, useFlats, Major)
    ensures r.Ok? ==> ScaleDegrees(r.value.kind) == Some([0, 2, 4, 5, 7, 9, 11])
  {
    NewScale(root, useFlats, Major)
  }

  /** `MinorScale(root, use_flats)`: the natural minor offsets. */
  function MinorScale(root: string, useFlats: bool): (r: Result<Scale, ScaleError>)
    ensures r.Ok? <==> IsNoteName(root)
    ensures r.Ok? ==> r.value == Scale(root, useFlats, Minor)
    ensures r.Ok? ==> ScaleDegrees(r.value.kind) == Some([0, 2, 3, 5, 7, 8, 10])
  {
    NewScale(root, useFlats, Minor)
  }

  /** `PentatonicScale.parse_scale_string`: a trailing 'm' is cut off and selects minor. */
  function ParseScaleString(s: string): (r: (string, char))
    ensures r.1 == 'm' || r.1 == 'M'
    ensures r.1 == 'm' <==> |s| > 0 && s[|s| - 1] == 'm'
    ensures r.0 + (if r.1 == 'm' then "m" else "") == s
  {
    if |s| > 0 && s[|s| - 1] == 'm' then (s[..|s| - 1], 'm') else (s, 'M')
  }

  /** `PentatonicScale(scale_string, use_flats)`: parse, construct, pick the offsets. */
  function PentatonicScale(scaleString: string, useFlats: bool): (r: Result<Scale, ScaleError>)
    ensures r.Ok? <==> IsNoteName(ParseScaleString(scaleString).0)
    ensures r.Err? ==> r.error == InvalidRoot(ParseScaleString(scaleString).0)
    ensures r.Ok? ==> r.value.useFlats == useFlats
    ensures r.Ok? ==> r.value.root + (if r.value.kind == PentatonicMinor then "m" else "") == scaleString
    ensures r.Ok? ==>
      ScaleDegrees(r.value.kind) ==
        if |scaleString| > 0 && scaleString[|scaleString| - 1] == 'm'
        then Some([0, 3, 5, 7, 10]) else Some([0, 2, 4, 7, 9])
  {
    var (root, scaleType) := ParseScaleString(scaleString);
    NewScale(root, useFlats, if scaleType == 'm' then PentatonicMinor else PentatonicMajor)
  }

  /** Spell each offset from the root's position, wrapping around the
      12-name alphabet (the Python code divides by `len(self.notes)`, always 12).
      Each note lands exactly its offset above the root in the alphabet. */
  function Spell(notes: seq<string>, root: string, degrees: seq<nat>): (r: seq<string>)
    requires |notes| == 12 && root in notes
    ensures |r| == |degrees|
    ensures forall i :: 0 <= i < |r| ==> r[i] == notes[(IndexOf(notes, root) + degrees[i]) % 12]
  {
    var rootIndex := IndexOf(notes, root);
    seq(|degrees|, i requires 0 <= i < |degrees| => notes[(rootIndex + degrees[i]) % |notes|])
  }

  /** In an alphabet without repetitions, each spelled note's position is the
      root's position plus its offset, modulo 12. */
  lemma SpellPositions(notes: seq<string>, root: string, degrees: seq<nat>)
    requires |notes| == 12 && Distinct(notes) && root in notes
    ensures forall i :: 0 <= i < |degrees| ==>
      IndexOf(notes, Spell(notes, root, degrees)[i]) == (IndexOf(notes, root) + degrees[i]) % 12
  {
    var r := Spell(notes, root, degrees);
    forall i | 0 <= i < |degrees| ensures IndexOf(notes, r[i]) == (IndexOf(notes, root) + degrees[i]) % 12 {
      IndexOfDistinct(notes, (IndexOf(notes, root) + degrees[i]) % 12);
    }
  }

  /** `build_scale`: look the root up in the chosen alphabet (failing if it is
      not there, even though the constructor accepted it), then spell every
      offset, in degree order. */
  function BuildScale(s: Scale): (r: Result<seq<string>, ScaleError>)
    ensures r.Ok? <==> s.root in Notes(s) && s.kind != Plain
    ensures s.root !in Notes(s) ==> r == Err(RootNotInAlphabet(s.root))
    ensures s.root in Notes(s) && s.kind == Plain ==> r == Err(NoScaleDegrees)
    ensures r.Ok? ==> r.value == Spell(Notes(s), s.root, ScaleDegrees(s.kind).value)
  {
    var notes := Notes(s);
    if s.root !in notes then Err(RootNotInAlphabet(s.root))
    else match ScaleDegrees(s.kind)
      case None => Err(NoScaleDegrees)
      case Some(degrees) => Ok(Spell(notes, s.root, degrees))
  }

  /** The first spelled note is the root when the first offset is 0. */
  lemma SpellStartsAtRoot(notes: seq<string>, root: string, degrees: seq<nat>)
    requires |notes| == 12 && root in notes && |degrees| > 0 && degrees[0] == 0
    ensures Spell(notes, root, degrees)[0] == root
  {
    var k := IndexOf(notes, root);
    assert Spell(notes, root, degrees)[0] == notes[(k + 0) % 12];
  }

  /** The first note of every built scale is its root: each offset list starts at 0. */
  lemma BuildScaleStartsAtRoot(s: Scale)
    requires BuildScale(s).Ok?
    ensures |BuildScale(s).value| > 0 && BuildScale(s).value[0] == s.root
  {
    SpellStartsAtRoot(Notes(s), s.root, ScaleDegrees(s.kind).value);
  }

  /** Major and minor scales have seven notes, pentatonic ones five. */
  lemma BuildScaleLength(s: Scale)
    requires BuildScale(s).Ok?
    ensures |BuildScale(s).value| == if s.kind in {Major, Minor} then 7 else 5
  {
  }

  /** Every spelled note is a name of the scale's own alphabet. */
  lemma BuildScaleInAlphabet(s: Scale)
    requires BuildScale(s).Ok?
    ensures forall x :: x in BuildScale(s).value ==> x in Notes(s)
  {
  }

  /** Reducing an addend modulo 12 first does not change the sum's residue. */
  lemma ModAddLeft(x: nat, m: nat)
    ensures (x % 12 + m) % 12 == (x + m) % 12
  {
    var q := x / 12;
    assert x == 12 * q + x % 12;
    assert x + m == 12 * q + (x % 12 + m);
  }

  /** Numbers twelve apart have the same residue. */
  lemma ModTwelveApart(x: nat)
    ensures (x + 12) % 12 == x % 12
  {
  }

  /** Nine semitones plus each minor offset is the major offset five degrees
      on, up to one octave. */
  lemma MinorOffsetsAreRotatedMajor()
    ensures forall i :: 0 <= i < 7 ==>
      9 + ScaleDegrees(Minor).value[i] == ScaleDegrees(Major).value[(i + 5) % 7] + (if i < 2 then 0 else 12)
  {
    var minor, major := ScaleDegrees(Minor).value, ScaleDegrees(Major).value;
    forall i | 0 <= i < 7 ensures 9 + minor[i] == major[(i + 5) % 7] + (if i < 2 then 0 else 12) {
      // one case per position, so each is checked on literal indices
      if i == 0 {} else if i == 1 {} else if i == 2 {} else if i == 3 {} else if i == 4 {} else if i == 5 {} else {}
    }
  }

  /** Spelling from position `r` with offset `a` and from position `k` with
      offset `b` meet at the same note when the two sums agree modulo 12. */
  lemma SameNoteModTwelve(notes: seq<string>, r: nat, a: nat, k: nat, b: nat)
    requires |notes| == 12 && r == (k + 9) % 12
    requires 9 + a == b || 9 + a == b + 12
    ensures notes[(r + a) % 12] == notes[(k + b) % 12]
  {
    ModAddLeft(k + 9, a);
    if 9 + a == b + 12 {
      ModTwelveApart(k + b);
    }
  }

  /** Two offset lists of seven that agree modulo 12 after a shift of nine
      semitones and five degrees spell the same notes in that rotation. */
  lemma RotatedSpelling(notes: seq<string>, k: nat, major: seq<nat>, minor: seq<nat>)
    requires |notes| == 12 && Distinct(notes) && k < 12
    requires |major| == 7 && |minor| == 7
    requires forall i :: 0 <= i < 7 ==> 9 + minor[i] == major[(i + 5) % 7] || 9 + minor[i] == major[(i + 5) % 7] + 12
    ensures var m, n := Spell(notes, notes[(k + 9) % 12], minor), Spell(notes, notes[k], major);
      forall i :: 0 <= i < 7 ==> m[i] == n[(i + 5) % 7]
  {
    IndexOfDistinct(notes, k);
    IndexOfDistinct(notes, (k + 9) % 12);
    var m, n := Spell(notes, notes[(k + 9) % 12], minor), Spell(notes, notes[k], major);
    forall i | 0 <= i < 7 ensures m[i] == n[(i + 5) % 7] {
      SameNoteModTwelve(notes, (k + 9) % 12, minor[i], k, major[(i + 5) % 7]);
    }
  }

  /** The relative minor: the natural minor scale on the sixth degree of a
      major scale (nine semitones up) has the major scale's notes, read from
      that sixth degree on. */
  lemma RelativeMinor(notes: seq<string>, k: nat)
    requires |notes| == 12 && Distinct(notes) && k < 12
    ensures var minor := Spell(notes, notes[(k + 9) % 12], ScaleDegrees(Minor).value);
      var major := Spell(notes, notes[k], ScaleDegrees(Major).value);
      forall i :: 0 <= i < 7 ==> minor[i] == major[(i + 5) % 7]
  {
    MinorOffsetsAreRotatedMajor();
    RotatedSpelling(notes, k, ScaleDegrees(Major).value, ScaleDegrees(Minor).value);
  }

  /** The natural minor scale on the sixth degree of a major scale, in the
      same alphabet. */
  function RelativeMinorOf(s: Scale): (r: Scale)
    requires s.root in Notes(s)
    ensures MinorScale(r.root, s.useFlats) == Ok(r)
    ensures r.root in Notes(r)
    ensures IndexOf(Notes(r), r.root) == (IndexOf(Notes(s), s.root) + 9) % 12
  {
    var notes := Notes(s);
    var k := (IndexOf(notes, s.root) + 9) % 12;
    AlphabetDistinct(s.useFlats);
    IndexOfDistinct(notes, k);
    Scale(notes[k], s.useFlats, Minor)
  }

  /** The major scale whose sixth degree is the root of `m`, in the same
      alphabet: the root three semitones up. */
  function RelativeMajorOf(m: Scale): (r: Scale)
    requires m.root in Notes(m)
    ensures MajorScale(r.root, m.useFlats) == Ok(r)
    ensures r.root in Notes(r)
    ensures IndexOf(Notes(r), r.root) == (IndexOf(Notes(m), m.root) + 3) % 12
  {
    var notes := Notes(m);
    var k := (IndexOf(notes, m.root) + 3) % 12;
    AlphabetDistinct(m.useFlats);
    IndexOfDistinct(notes, k);
    Scale(notes[k], m.useFlats, Major)
  }

  /** Going three semitones up to the relative major and nine up again to
      its relative minor returns the minor scale one started from. */
  lemma RelativeMajorRoundTrip(m: Scale)
    requires m.kind == Minor && m.root in Notes(m)
    ensures RelativeMinorOf(RelativeMajorOf(m)) == m
  {
    var k := IndexOf(Notes(m), m.root);
    var major := RelativeMajorOf(m);
    var minor := RelativeMinorOf(major);
    ThreeThenNine(k);
    assert IndexOf(Notes(minor), minor.root) == k;
    assert Notes(minor)[k] == minor.root && Notes(m)[k] == m.root;
  }

  /** Three semitones up and then nine more is a full octave. */
  lemma ThreeThenNine(k: nat)
    requires k < 12
    ensures ((k + 3) % 12 + 9) % 12 == k
  {
    ModAddLeft(k + 3, 9);
  }

  /** Every built natural minor scale is the relative minor of a major
      scale (three semitones up), and has that scale's notes read from its
      sixth degree on. */
  lemma MinorHasRelativeMajor(m: Scale)
    requires m.kind == Minor && BuildScale(m).Ok?
    ensures BuildScale(RelativeMajorOf(m)).Ok?
    ensures RelativeMinorOf(RelativeMajorOf(m)) == m
    ensures var major, minor := BuildScale(RelativeMajorOf(m)).value, BuildScale(m).value;
      |major| == 7 && |minor| == 7 && forall i :: 0 <= i < 7 ==> minor[i] == major[(i + 5) % 7]
  {
    var major := RelativeMajorOf(m);
    RelativeMajorRoundTrip(m);
    RelativeMinorScale(major);
  }

  /** A built major scale and its relative minor have the same notes, the
      minor one starting from the major one's sixth degree. */
  lemma RelativeMinorScale(s: Scale)
    requires s.kind == Major && BuildScale(s).Ok?
    ensures BuildScale(RelativeMinorOf(s)).Ok?
    ensures var major, minor := BuildScale(s).value, BuildScale(RelativeMinorOf(s)).value;
      |major| == 7 && |minor| == 7 && forall i :: 0 <= i < 7 ==> minor[i] == major[(i + 5) % 7]
  {
    var notes := Notes(s);
    var k := IndexOf(notes, s.root);
    var r := RelativeMinorOf(s);
    assert Notes(r) == notes && notes[k] == s.root && r.root == notes[(k + 9) % 12];
    AlphabetDistinct(s.useFlats);
    RelativeMinor(notes, k);
    assert BuildScale(s).value == Spell(notes, notes[k], ScaleDegrees(Major).value);
    assert BuildScale(r).value == Spell(notes, notes[(k + 9) % 12], ScaleDegrees(Minor).value);
  }

  /** A root the two alphabets spell alike (a natural) spelled with the
      same offsets in each alphabet gives notes that agree one for one in
      pitch class: the i-th notes sit at the same position of their
      alphabets, so only their spelling can differ. */
  lemma SpellingPreservesPitches(root: string, degrees: seq<nat>, i: nat)
    requires root in SharpNotes && root in FlatNotes && i < |degrees|
    ensures IndexOf(SharpNotes, Spell(SharpNotes, root, degrees)[i])
         == IndexOf(FlatNotes, Spell(FlatNotes, root, degrees)[i])
  {
    AlphabetsWellFormed();
    SpellPositions(SharpNotes, root, degrees);
    SpellPositions(FlatNotes, root, degrees);
    SharedNameSameIndex(root);
  }

  /** `set(...)` of a spelled scale. */
  function NoteSet(notes: seq<string>): (r: set<string>)
    ensures forall x :: x in r <==> x in notes
  {
    set x | x in notes
  }

  /** `what_do_i_have_that_you_do_not`: the spelled names of `a` that `b`
      lacks, compared literally; `a` is built first, so its failure is the
      one reported. */
  function WhatDoIHaveThatYouDoNot(a: Scale, b: Scale): (r: Result<set<string>, ScaleError>)
    ensures r.Ok? <==> BuildScale(a).Ok? && BuildScale(b).Ok?
    ensures BuildScale(a).Err? ==> r == Err(BuildScale(a).error)
    ensures BuildScale(a).Ok? && BuildScale(b).Err? ==> r == Err(BuildScale(b).error)
    ensures r.Ok? ==> forall x :: x in r.value <==> x in BuildScale(a).value && x !in BuildScale(b).value
  {
    match BuildScale(a)
    case Err(e) => Err(e)
    case Ok(mine) =>
      match BuildScale(b)
      case Err(e) => Err(e)
      case Ok(theirs) => Ok(NoteSet(mine) - NoteSet(theirs))
  }

  /** `what_do_you_have_i_do_not`: the spelled names of `b` that `a` lacks;
      `a` is still built first. */
  function WhatDoYouHaveIDoNot(a: Scale, b: Scale): (r: Result<set<string>, ScaleError>)
    ensures r.Ok? <==> BuildScale(a).Ok? && BuildScale(b).Ok?
    ensures BuildScale(a).Err? ==> r == Err(BuildScale(a).error)
    ensures BuildScale(a).Ok? && BuildScale(b).Err? ==> r == Err(BuildScale(b).error)
    ensures r.Ok? ==> forall x :: x in r.value <==> x in BuildScale(b).value && x !in BuildScale(a).value
  {
    match BuildScale(a)
    case Err(e) => Err(e)
    case Ok(mine) =>
      match BuildScale(b)
      case Err(e) => Err(e)
      case Ok(theirs) => Ok(NoteSet(theirs) - NoteSet(mine))
  }

  /** `union`: every spelled name of either scale, compared literally; neither
      side is respelled into the other's alphabet. */
  function Union(a: Scale, b: Scale): (r: Result<set<string>, ScaleError>)
    ensures r.Ok? <==> BuildScale(a).Ok? && BuildScale(b).Ok?
    ensures BuildScale(a).Err? ==> r == Err(BuildScale(a).error)
    ensures BuildScale(a).Ok? && BuildScale(b).Err? ==> r == Err(BuildScale(b).error)
    ensures r.Ok? ==> forall x :: x in r.value <==> x in BuildScale(a).value || x in BuildScale(b).value
  {
    match BuildScale(a)
    case Err(e) => Err(e)
    case Ok(mine) =>
      match BuildScale(b)
      case Err(e) => Err(e)
      case Ok(theirs) => Ok(NoteSet(mine) + NoteSet(theirs))
  }

  /** Asking `a` what `b` has is asking `b` what it has that `a` lacks; the
      two calls succeed together, and neither answer shares a name with the
      scale that was subtracted. */
  lemma DifferencesMirror(a: Scale, b: Scale)
    ensures WhatDoYouHaveIDoNot(a, b).Ok? <==> WhatDoIHaveThatYouDoNot(b, a).Ok?
    ensures WhatDoYouHaveIDoNot(a, b).Ok? ==>
      && WhatDoYouHaveIDoNot(a, b).value == WhatDoIHaveThatYouDoNot(b, a).value
      && WhatDoYouHaveIDoNot(a, b).value * NoteSet(BuildScale(a).value) == {}
      && WhatDoIHaveThatYouDoNot(a, b).value * NoteSet(BuildScale(b).value) == {}
  {
    if WhatDoYouHaveIDoNot(a, b).Ok? {
      var you, mine := WhatDoYouHaveIDoNot(a, b).value, WhatDoIHaveThatYouDoNot(b, a).value;
      assert you == mine;
    }
  }

  /** `union` does not depend on the order of its operands when both build,
      and it is exactly the two differences plus the names the scales share. */
  lemma UnionCommutesAndSplits(a: Scale, b: Scale)
    requires BuildScale(a).Ok? && BuildScale(b).Ok?
    ensures Union(a, b).Ok? && Union(b, a).Ok?
    ensures Union(a, b).value == Union(b, a).value
    ensures Union(a, b).value ==
      WhatDoIHaveThatYouDoNot(a, b).value + WhatDoYouHaveIDoNot(a, b).value
      + (NoteSet(BuildScale(a).value) * NoteSet(BuildScale(b).value))
    ensures WhatDoIHaveThatYouDoNot(a, b).value <= Union(a, b).value
    ensures WhatDoYouHaveIDoNot(a, b).value <= Union(a, b).value
  {
    var u1, u2 := Union(a, b).value, Union(b, a).value;
    assert u1 == u2;
    var i, y := WhatDoIHaveThatYouDoNot(a, b).value, WhatDoYouHaveIDoNot(a, b).value;
    var both := NoteSet(BuildScale(a).value) * NoteSet(BuildScale(b).value);
    assert u1 == i + y + both;
  }

  /** Roots in neither alphabet are refused at construction ('H', 'C#b'). */
  lemma InvalidRootsRejected(useFlats: bool, kind: Kind)
    ensures NewScale("H", useFlats, kind) == Err(InvalidRoot("H"))
    ensures NewScale("C#b", useFlats, kind) == Err(InvalidRoot("C#b"))
  {
    assert "H" !in SharpNotes && "H" !in FlatNotes;
    assert "C#b" !in SharpNotes && "C#b" !in FlatNotes;
  }

  /** A flat root with the sharp alphabet: construction accepts 'Bb', but
      `build_scale` cannot find it among the sharp names. */
  lemma FlatRootWithSharpAlphabet()
    ensures MajorScale("Bb", false) == Ok(Scale("Bb", false, Major))
    ensures BuildScale(Scale("Bb", false, Major)) == Err(RootNotInAlphabet("Bb"))
    ensures BuildScale(Scale("Bb", true, Major)).Ok?
  {
    assert FlatNotes[10] == "Bb";
  }

  /** Every listed sharp key is a sharp name, and every listed flat key is a
      flat name except 'Cb', which no alphabet contains, so no scale can be
      built on it. */
  lemma KeysAgainstAlphabets()
    ensures forall k :: k in SharpKeys ==> k in SharpNotes
    ensures forall k :: k in FlatKeys && k != "Cb" ==> k in FlatNotes
    ensures "Cb" in FlatKeys && !IsNoteName("Cb")
    ensures MajorScale("Cb", true) == Err(InvalidRoot("Cb"))
  {
  }

  /** `Spell` checked against an expected list, one position at a time. */
  lemma SpellMatches(notes: seq<string>, root: string, degrees: seq<nat>, rootIndex: nat, expected: seq<string>)
    requires |notes| == 12 && root in notes && IndexOf(notes, root) == rootIndex
    requires |expected| == |degrees|
    requires forall i :: 0 <= i < |degrees| ==> expected[i] == notes[(rootIndex + degrees[i]) % 12]
    ensures Spell(notes, root, degrees) == expected
  {
  }

  /** C major in sharps, as music/tests.py spells it. */
  lemma CMajorExample()
    ensures BuildScale(Scale("C", false, Major)) == Ok(["C", "D", "E", "F", "G", "A", "B"])
  {
    var e, d := ["C", "D", "E", "F", "G", "A", "B"], [0, 2, 4, 5, 7, 9, 11];
    forall i | 0 <= i < 7 ensures e[i] == SharpNotes[(0 + d[i]) % 12] {
      // one case per position, so each is checked on literal indices
      if i == 0 {} else if i == 1 {} else if i == 2 {} else if i == 3 {} else if i == 4 {} else if i == 5 {} else {}
    }
    SpellMatches(SharpNotes, "C", d, 0, e);
  }

  /** G major in sharps: its seventh degree is 'F#'. */
  lemma GMajorExample()
    ensures BuildScale(Scale("G", false, Major)) == Ok(["G", "A", "B", "C", "D", "E", "F#"])
  {
    var e, d := ["G", "A", "B", "C", "D", "E", "F#"], [0, 2, 4, 5, 7, 9, 11];
    IndexOfAt(SharpNotes, 7);
    forall i | 0 <= i < 7 ensures e[i] == SharpNotes[(7 + d[i]) % 12] {
      // one case per position, so each is checked on literal indices
      if i == 0 {} else if i == 1 {} else if i == 2 {} else if i == 3 {} else if i == 4 {} else if i == 5 {} else {}
    }
    SpellMatches(SharpNotes, "G", d, 7, e);
  }

  /** F major in flats: the fourth degree is spelled 'Bb'. */
  lemma FMajorFlatsExample()
    ensures BuildScale(Scale("F", true, Major)) == Ok(["F", "G", "A", "Bb", "C", "D", "E"])
  {
    var e, d := ["F", "G", "A", "Bb", "C", "D", "E"], [0, 2, 4, 5, 7, 9, 11];
    IndexOfAt(FlatNotes, 5);
    forall i | 0 <= i < 7 ensures e[i] == FlatNotes[(5 + d[i]) % 12] {
      // one case per position, so each is checked on literal indices
      if i == 0 {} else if i == 1 {} else if i == 2 {} else if i == 3 {} else if i == 4 {} else if i == 5 {} else {}
    }
    SpellMatches(FlatNotes, "F", d, 5, e);
  }

  /** F major in sharps: the same pitch is spelled 'A#'. */
  lemma FMajorSharpsExample()
    ensures BuildScale(Scale("F", false, Major)) == Ok(["F", "G", "A", "A#", "C", "D", "E"])
  {
    var e, d := ["F", "G", "A", "A#", "C", "D", "E"], [0, 2, 4, 5, 7, 9, 11];
    IndexOfAt(SharpNotes, 5);
    forall i | 0 <= i < 7 ensures e[i] == SharpNotes[(5 + d[i]) % 12] {
      // one case per position, so each is checked on literal indices
      if i == 0 {} else if i == 1 {} else if i == 2 {} else if i == 3 {} else if i == 4 {} else if i == 5 {} else {}
    }
    SpellMatches(SharpNotes, "F", d, 5, e);
  }

  /** A natural minor. */
  lemma AMinorExample()
    ensures BuildScale(Scale("A", false, Minor)) == Ok(["A", "B", "C", "D", "E", "F", "G"])
  {
    var e, d := ["A", "B", "C", "D", "E", "F", "G"], [0, 2, 3, 5, 7, 8, 10];
    IndexOfAt(SharpNotes, 9);
    forall i | 0 <= i < 7 ensures e[i] == SharpNotes[(9 + d[i]) % 12] {
      // one case per position, so each is checked on literal indices
      if i == 0 {} else if i == 1 {} else if i == 2 {} else if i == 3 {} else if i == 4 {} else if i == 5 {} else {}
    }
    SpellMatches(SharpNotes, "A", d, 9, e);
  }

  /** `PentatonicScale('C')` is the major shape. */
  lemma PentatonicMajorExample()
    ensures PentatonicScale("C", false) == Ok(Scale("C", false, PentatonicMajor))
    ensures BuildScale(Scale("C", false, PentatonicMajor)) == Ok(["C", "D", "E", "G", "A"])
  {
    assert ParseScaleString("C") == ("C", 'M');
    var e, d := ["C", "D", "E", "G", "A"], [0, 2, 4, 7, 9];
    forall i | 0 <= i < 5 ensures e[i] == SharpNotes[(0 + d[i]) % 12] {
      // one case per position, so each is checked on literal indices
      if i == 0 {} else if i == 1 {} else if i == 2 {} else if i == 3 {} else {}
    }
    SpellMatches(SharpNotes, "C", d, 0, e);
  }

  /** `PentatonicScale('Am')` is the minor shape on A. */
  lemma PentatonicMinorExample()
    ensures PentatonicScale("Am", false) == Ok(Scale("A", false, PentatonicMinor))
    ensures BuildScale(Scale("A", false, PentatonicMinor)) == Ok(["A", "C", "D", "E", "G"])
  {
    assert "Am"[..1] == "A";
    assert ParseScaleString("Am") == ("A", 'm');
    var e, d := ["A", "C", "D", "E", "G"], [0, 3, 5, 7, 10];
    IndexOfAt(SharpNotes, 9);
    forall i | 0 <= i < 5 ensures e[i] == SharpNotes[(9 + d[i]) % 12] {
      // one case per position, so each is checked on literal indices
      if i == 0 {} else if i == 1 {} else if i == 2 {} else if i == 3 {} else {}
    }
    SpellMatches(SharpNotes, "A", d, 9, e);
  }

  /** Once both scales are known by their spellings, the three set
      operations are plain set arithmetic on those names. */
  lemma SetOperationsOfSpellings(a: Scale, b: Scale, mine: seq<string>, theirs: seq<string>)
    requires BuildScale(a) == Ok(mine) && BuildScale(b) == Ok(theirs)
    ensures WhatDoIHaveThatYouDoNot(a, b) == Ok(NoteSet(mine) - NoteSet(theirs))
    ensures WhatDoYouHaveIDoNot(a, b) == Ok(NoteSet(theirs) - NoteSet(mine))
    ensures Union(a, b) == Ok(NoteSet(mine) + NoteSet(theirs))
  {
  }

  /** The set arithmetic behind the C/G example, on the spelled names. */
  lemma CAndGNames()
    ensures NoteSet(["C", "D", "E", "F", "G", "A", "B"]) - NoteSet(["G", "A", "B", "C", "D", "E", "F#"]) == {"F"}
    ensures NoteSet(["G", "A", "B", "C", "D", "E", "F#"]) - NoteSet(["C", "D", "E", "F", "G", "A", "B"]) == {"F#"}
    ensures NoteSet(["C", "D", "E", "F", "G", "A", "B"]) + NoteSet(["G", "A", "B", "C", "D", "E", "F#"])
         == {"C", "D", "E", "F", "F#", "G", "A", "B"}
  {
    assert NoteSet(["C", "D", "E", "F", "G", "A", "B"]) == {"C", "D", "E", "F", "G", "A", "B"};
    assert NoteSet(["G", "A", "B", "C", "D", "E", "F#"]) == {"G", "A", "B", "C", "D", "E", "F#"};
  }

  /** C major against G major, as in music/tests.py. */
  lemma SetOperationExamples()
    ensures WhatDoIHaveThatYouDoNot(Scale("C", false, Major), Scale("G", false, Major)) == Ok({"F"})
    ensures WhatDoYouHaveIDoNot(Scale("C", false, Major), Scale("G", false, Major)) == Ok({"F#"})
    ensures Union(Scale("C", false, Major), Scale("G", false, Major))
         == Ok({"C", "D", "E", "F", "F#", "G", "A", "B"})
  {
    CMajorExample();
    GMajorExample();
    SetOperationsOfSpellings(Scale("C", false, Major), Scale("G", false, Major),
      ["C", "D", "E", "F", "G", "A", "B"], ["G", "A", "B", "C", "D", "E", "F#"]);
    CAndGNames();
  }

  /** The set arithmetic behind `UnionDoesNotRespell`. */
  lemma CAndFNames()
    ensures NoteSet(["C", "D", "E", "F", "G", "A", "B"]) + NoteSet(["F", "G", "A", "Bb", "C", "D", "E"])
         == {"C", "D", "E", "F", "G", "A", "B", "Bb"}
    ensures NoteSet(["C", "D", "E", "F", "G", "A", "B"]) + NoteSet(["F", "G", "A", "A#", "C", "D", "E"])
         == {"C", "D", "E", "F", "G", "A", "B", "A#"}
  {
    assert NoteSet(["C", "D", "E", "F", "G", "A", "B"]) == {"C", "D", "E", "F", "G", "A", "B"};
    assert NoteSet(["F", "G", "A", "Bb", "C", "D", "E"]) == {"F", "G", "A", "Bb", "C", "D", "E"};
    assert NoteSet(["F", "G", "A", "A#", "C", "D", "E"]) == {"F", "G", "A", "A#", "C", "D", "E"};
  }

  /** `union` keeps each operand's own spelling: C major in sharps with F
      major in flats yields 'Bb', a name outside the sharp alphabet, where the
      same pair in sharps yields 'A#' for that pitch. */
  lemma UnionDoesNotRespell()
    ensures Union(Scale("C", false, Major), Scale("F", true, Major))
         == Ok({"C", "D", "E", "F", "G", "A", "B", "Bb"})
    ensures Union(Scale("C", false, Major), Scale("F", false, Major))
         == Ok({"C", "D", "E", "F", "G", "A", "B", "A#"})
  {
    CMajorExample();
    FMajorFlatsExample();
    FMajorSharpsExample();
    SetOperationsOfSpellings(Scale("C", false, Major), Scale("F", true, Major),
      ["C", "D", "E", "F", "G", "A", "B"], ["F", "G", "A", "Bb", "C", "D", "E"]);
    SetOperationsOfSpellings(Scale("C", false, Major), Scale("F", false, Major),
      ["C", "D", "E", "F", "G", "A", "B"], ["F", "G", "A", "A#", "C", "D", "E"]);
    CAndFNames();
  }
}
