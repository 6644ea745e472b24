/** The nine regular expressions of the job decoder, and a matcher for the small
    fragment of Python's `re` they use: literal text, `.`, alternation of literals,
    and `+`/`*` repetition of a character class, with capture groups.

    Repetitions are matched possessively (the longest run, never given back). For
    these nine patterns, on ASCII text, that is what Python's backtracking matcher finds as well:
    in each of them a repeated class is followed by a character the class does not
    contain (`\w+` by a space, `\s+` by `=`, `[.\d]+` by `s`, ...), so giving back
    characters can never let the rest of the pattern match. */
module Regex {
  import opened Outcomes
  import Text
  import Numbers

  /** \w for ASCII text; Python's Unicode letters and digits beyond ASCII are not included. */
  predicate IsWordChar(c: char) {
    ('a' <= c <= 'z') || ('A' <= c <= 'Z') || Numbers.IsDigit(c) || c == '_'
  }

  datatype CharClass =
    | Word        // \w
    | Digit       // \d
    | Space       // \s
    | NonSpace    // \S
    | NumberChar  // [.\-\d]  and  [0-9\.\-]
    | WordOrDash  // [\w\-]
    | DigitOrDot  // [.\d]
    | NotNewline  // .

  predicate InClass(cls: CharClass, c: char) {
    match cls
    case Word => IsWordChar(c)
    case Digit => Numbers.IsDigit(c)
    case Space => Text.IsSpace(c)
    case NonSpace => !Text.IsSpace(c)
    case NumberChar => c == '.' || c == '-' || Numbers.IsDigit(c)
    case WordOrDash => IsWordChar(c) || c == '-'
    case DigitOrDot => c == '.' || Numbers.IsDigit(c)
    case NotNewline => c != '\n'
  }

  /** One pattern character: itself, or `.` (anything but a newline). */
  datatype Atom = Exactly(c: char) | AnyChar

  datatype Piece =
    | Fixed(atoms: seq<Atom>)                  // a run of pattern characters
    | FirstOf(alternatives: seq<seq<Atom>>)    // (a|b|c) of such runs
    | Run(cls: CharClass, atLeastOne: bool)    // cls+ (atLeastOne) or cls*

  /** A pattern is a sequence of items, each a sequence of pieces; a match reports the
      text each item matched, so a capture group of the Python pattern is an item and
      its text is found at that item's position. */
  type Item = seq<Piece>

  type Pattern = seq<Item>

  predicate AtomMatches(a: Atom, c: char) {
    match a
    case Exactly(x) => c == x
    case AnyChar => c != '\n'
  }

  predicate FixedAt(atoms: seq<Atom>, s: string, i: nat) {
    i + |atoms| <= |s| && forall k :: 0 <= k < |atoms| ==> AtomMatches(atoms[k], s[i + k])
  }

  /** The end of the longest run of `cls` characters starting at `i`. */
  function RunEnd(cls: CharClass, s: string, i: nat): (e: nat)
    requires i <= |s|
    ensures i <= e <= |s|
    ensures forall k :: i <= k < e ==> InClass(cls, s[k])
    ensures e == |s| || !InClass(cls, s[e])
    decreases |s| - i
  {
    if i < |s| && InClass(cls, s[i]) then RunEnd(cls, s, i + 1) else i
  }

  /** The end of the first alternative that matches at `i`. */
  function FirstOfEnd(alternatives: seq<seq<Atom>>, s: string, i: nat): (r: Option<nat>)
    ensures r.Some? ==> i <= r.value <= |s|
  {
    if alternatives == [] then None
    else if FixedAt(alternatives[0], s, i) then Some(i + |alternatives[0]|)
    else FirstOfEnd(alternatives[1..], s, i)
  }

  function PieceEnd(p: Piece, s: string, i: nat): (r: Option<nat>)
    requires i <= |s|
    ensures r.Some? ==> i <= r.value <= |s|
  {
    match p
    case Fixed(atoms) => if FixedAt(atoms, s, i) then Some(i + |atoms|) else None
    case FirstOf(alternatives) => FirstOfEnd(alternatives, s, i)
    case Run(cls, atLeastOne) =>
      var e := RunEnd(cls, s, i);
      if atLeastOne && e == i then None else Some(e)
  }

  function PiecesEnd(ps: seq<Piece>, s: string, i: nat): (r: Option<nat>)
    requires i <= |s|
    ensures r.Some? ==> i <= r.value <= |s|
    decreases |ps|
  {
    if ps == [] then Some(i)
    else match PieceEnd(ps[0], s, i)
      case None => None
      case Some(e) => PiecesEnd(ps[1..], s, e)
  }

  /** The text each item matched, for a match of `p` that starts exactly at `i`. */
  function MatchAt(p: Pattern, s: string, i: nat): (r: Option<seq<string>>)
    requires i <= |s|
    ensures r.Some? ==> |r.value| == |p|
    decreases |p|
  {
    if p == [] then Some([])
    else match PiecesEnd(p[0], s, i)
      case None => None
      case Some(e) =>
        match MatchAt(p[1..], s, e)
        case None => None
        case Some(texts) => Some([s[i..e]] + texts)
  }

  function SearchFrom(p: Pattern, s: string, i: nat): (r: Option<seq<string>>)
    ensures r.Some? ==> |r.value| == |p|
    decreases |s| + 1 - i
  {
    if i > |s| then None
    else match MatchAt(p, s, i)
      case Some(groups) => Some(groups)
      case None => SearchFrom(p, s, i + 1)
  }

  /** `re.search(p, s)`: the item texts of the leftmost match, if any. */
  function Search(p: Pattern, s: string): (r: Option<seq<string>>)
    ensures r.Some? ==> |r.value| == |p|
  {
    SearchFrom(p, s, 0)
  }

  function Exact(text: string): seq<Atom> {
    seq(|text|, k requires 0 <= k < |text| => Exactly(text[k]))
  }

  /** Pattern text in which `.` stands for any character. */
  function Wild(text: string): seq<Atom> {
    seq(|text|, k requires 0 <= k < |text| => if text[k] == '.' then AnyChar else Exactly(text[k]))
  }

  function Lit(text: string): Item {
    [Fixed(Exact(text))]
  }

  /** `cls+` */
  function Some1(cls: CharClass): Item {
    [Run(cls, true)]
  }

  /** `cls*` */
  function Any0(cls: CharClass): Item {
    [Run(cls, false)]
  }

  /** r"Total \w+ energy\s+=\s+([.\-\d]+)" */
  const EnergyPattern: Pattern :=
    [Lit("Total "), Some1(Word), Lit(" energy"), Some1(Space), Lit("="), Some1(Space), Some1(NumberChar)]

  /** r"gas phase energy\s+=\s+([.\-\d]+)" */
  const GasPhasePattern: Pattern :=
    [Lit("gas phase energy"), Some1(Space), Lit("="), Some1(Space), Some1(NumberChar)]

  /** r"sol phase energy\s+=\s+([.\-\d]+)" */
  const SolPhasePattern: Pattern :=
    [Lit("sol phase energy"), Some1(Space), Lit("="), Some1(Space), Some1(NumberChar)]

  /** r"\d+\s+(\w+)\s+[.\-\d]+\s+([.\-\d]+)\s+([.\-\d]+)\s+([.\-\d]+)" */
  const CoordPattern: Pattern :=
    [Some1(Digit), Some1(Space), Some1(Word), Some1(Space), Some1(NumberChar),
     Some1(Space), Some1(NumberChar), Some1(Space), Some1(NumberChar), Some1(Space), Some1(NumberChar)]

  /** r"a[123]=<\s+([.\-\d]+)\s+([.\-\d]+)\s+([.\-\d]+)\s+>" */
  const LatticeVectorPattern: Pattern :=
    [Lit("a"), [FirstOf([Exact("1"), Exact("2"), Exact("3")])], Lit("=<"),
     Some1(Space), Some1(NumberChar), Some1(Space), Some1(NumberChar), Some1(Space), Some1(NumberChar),
     Some1(Space), Lit(">")]

  /** r"([\w\-]+ correction to \w+)\s+=\s+([.\-\d]+)" */
  const CorrectionPattern: Pattern :=
    [[Run(WordOrDash, true), Fixed(Exact(" correction to ")), Run(Word, true)],
     Some1(Space), Lit("="), Some1(Space), Some1(NumberChar)]

  /** r"(No. of atoms|No. of electrons|SCF calculation type|Charge|Spin multiplicity)\s*:\s*(\S+)" */
  const ScalarFieldPattern: Pattern :=
    [[FirstOf([Wild("No. of atoms"), Wild("No. of electrons"), Wild("SCF calculation type"),
               Wild("Charge"), Wild("Spin multiplicity")])],
     Any0(Space), Lit(":"), Any0(Space), Some1(NonSpace)]

  /** r"\s+(\d+)\s+(\w+)" followed by six r"\s+([0-9\.\-]+)" */
  const ForcePattern: Pattern :=
    [Some1(Space), Some1(Digit), Some1(Space), Some1(Word),
     Some1(Space), Some1(NumberChar), Some1(Space), Some1(NumberChar), Some1(Space), Some1(NumberChar),
     Some1(Space), Some1(NumberChar), Some1(Space), Some1(NumberChar), Some1(Space), Some1(NumberChar)]

  /** r"\s+ Task \s+ times \s+ cpu: \s+ ([.\d]+)s .+ " under re.VERBOSE, where the
      blanks of the pattern text are ignored. */
  const TimePattern: Pattern :=
    [Some1(Space), Lit("Task"), Some1(Space), Lit("times"), Some1(Space), Lit("cpu:"),
     Some1(Space), Some1(DigitOrDot), Lit("s"), Some1(NotNewline)]

  // The capture groups the decoder reads, by the position of their item.

  /** Group 1 of the energy pattern: the Hartree value. */
  function EnergyMatch(line: string): Option<string> {
    match Search(EnergyPattern, line)
    case None => None
    case Some(t) => Some(t[6])
  }

  /** Group 1 of the gas-phase pattern. */
  function GasPhaseMatch(line: string): Option<string> {
    match Search(GasPhasePattern, line)
    case None => None
    case Some(t) => Some(t[4])
  }

  /** Group 1 of the sol-phase pattern. */
  function SolPhaseMatch(line: string): Option<string> {
    match Search(SolPhasePattern, line)
    case None => None
    case Some(t) => Some(t[4])
  }

  /** Groups 1 to 4 of the coordinate pattern: element and x, y, z. */
  function CoordMatch(line: string): (r: Option<seq<string>>)
    ensures r.Some? ==> |r.value| == 4
  {
    match Search(CoordPattern, line)
    case None => None
    case Some(t) => Some([t[2], t[6], t[8], t[10]])
  }

  /** Groups 1 to 3 of the lattice-vector pattern. */
  function LatticeVectorMatch(line: string): (r: Option<seq<string>>)
    ensures r.Some? ==> |r.value| == 3
  {
    match Search(LatticeVectorPattern, line)
    case None => None
    case Some(t) => Some([t[4], t[6], t[8]])
  }

  /** Groups 1 and 2 of the correction pattern: its label and its value. */
  function CorrectionMatch(line: string): Option<(string, string)> {
    match Search(CorrectionPattern, line)
    case None => None
    case Some(t) => Some((t[0], t[4]))
  }

  /** Groups 1 and 2 of the scalar-field pattern: the label and its value. */
  function ScalarFieldMatch(line: string): Option<(string, string)> {
    match Search(ScalarFieldPattern, line)
    case None => None
    case Some(t) => Some((t[0], t[4]))
  }

  /** `match.groups()[5:]` of the force pattern: the last three numeric fields. */
  function ForceMatch(line: string): (r: Option<seq<string>>)
    ensures r.Some? ==> |r.value| == 3
  {
    match Search(ForcePattern, line)
    case None => None
    case Some(t) => Some([t[11], t[13], t[15]])
  }

  /** Group 1 of the task-time pattern: the CPU seconds. */
  function TimeMatch(line: string): Option<string> {
    match Search(TimePattern, line)
    case None => None
    case Some(t) => Some(t[7])
  }
  // ---------------------------------------------------------------- what the groups hold

  /** A non-empty run of characters of `cls`. */
  predicate RunOf(cls: CharClass, text: string) {
    text != [] && forall j :: 0 <= j < |text| ==> InClass(cls, text[j])
  }

  /** In a match starting at `i`, an item `cls+` matched a non-empty run of `cls`. */
  lemma {:induction false} MatchAtRun(p: Pattern, s: string, i: nat, k: nat, cls: CharClass)
    requires i <= |s| && MatchAt(p, s, i).Some?
    requires k < |p| && p[k] == Some1(cls)
    ensures RunOf(cls, MatchAt(p, s, i).value[k])
    decreases |p|
  {
    var e := PiecesEnd(p[0], s, i).value;
    var texts := MatchAt(p[1..], s, e).value;
    assert MatchAt(p, s, i).value == [s[i..e]] + texts;
    if k == 0 {
      assert PieceEnd(Run(cls, true), s, i) == Some(RunEnd(cls, s, i));
      assert e == RunEnd(cls, s, i) && e != i;
    } else {
      assert p[1..][k - 1] == p[k];
      MatchAtRun(p[1..], s, e, k - 1, cls);
    }
  }

  /** A search that succeeds found a match starting at some index. */
  lemma {:induction false} SearchFromStart(p: Pattern, s: string, i: nat) returns (j: nat)
    requires SearchFrom(p, s, i).Some?
    ensures j <= |s| && MatchAt(p, s, j) == SearchFrom(p, s, i)
    decreases |s| + 1 - i
  {
    if MatchAt(p, s, i).Some? {
      j := i;
    } else {
      j := SearchFromStart(p, s, i + 1);
    }
  }

  lemma SearchRun(p: Pattern, s: string, k: nat, cls: CharClass)
    requires Search(p, s).Some?
    requires k < |p| && p[k] == Some1(cls)
    ensures RunOf(cls, Search(p, s).value[k])
  {
    var j := SearchFromStart(p, s, 0);
    MatchAtRun(p, s, j, k, cls);
  }

  /** The total energy read from a line is a non-empty run of digits, '.' and '-'. */
  lemma EnergyMatchNumber(line: string)
    ensures EnergyMatch(line).Some? ==> RunOf(NumberChar, EnergyMatch(line).value)
  {
    if Search(EnergyPattern, line).Some? {
      SearchRun(EnergyPattern, line, 6, NumberChar);
    }
  }

  /** The gas-phase energy read from a line is a non-empty run of digits, '.' and '-'. */
  lemma GasPhaseMatchNumber(line: string)
    ensures GasPhaseMatch(line).Some? ==> RunOf(NumberChar, GasPhaseMatch(line).value)
  {
    if Search(GasPhasePattern, line).Some? {
      SearchRun(GasPhasePattern, line, 4, NumberChar);
    }
  }

  /** The sol-phase energy read from a line is a non-empty run of digits, '.' and '-'. */
  lemma SolPhaseMatchNumber(line: string)
    ensures SolPhaseMatch(line).Some? ==> RunOf(NumberChar, SolPhaseMatch(line).value)
  {
    if Search(SolPhasePattern, line).Some? {
      SearchRun(SolPhasePattern, line, 4, NumberChar);
    }
  }

  /** The value of a correction is a non-empty run of digits, '.' and '-'. */
  lemma CorrectionMatchNumber(line: string)
    ensures CorrectionMatch(line).Some? ==> RunOf(NumberChar, CorrectionMatch(line).value.1)
  {
    if Search(CorrectionPattern, line).Some? {
      SearchRun(CorrectionPattern, line, 4, NumberChar);
    }
  }

  /** The value of a header field is a non-empty run of non-blank characters. */
  lemma ScalarFieldMatchWord(line: string)
    ensures ScalarFieldMatch(line).Some? ==> RunOf(NonSpace, ScalarFieldMatch(line).value.1)
  {
    if Search(ScalarFieldPattern, line).Some? {
      SearchRun(ScalarFieldPattern, line, 4, NonSpace);
    }
  }

  /** The CPU seconds of a time line are a non-empty run of digits and '.'. */
  lemma TimeMatchSeconds(line: string)
    ensures TimeMatch(line).Some? ==> RunOf(DigitOrDot, TimeMatch(line).value)
  {
    if Search(TimePattern, line).Some? {
      SearchRun(TimePattern, line, 7, DigitOrDot);
    }
  }
}
