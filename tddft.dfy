/** The TDDFT root extractor: a scan over the whole raw log with two pieces of state,
    whether the scan is inside a block of excited states and the multiplicity the
    roots belong to, which collects one record per root and attaches the oscillator
    strength printed after it. */
module Tddft {
  import opened Outcomes
  import opened Text
  import opened Numbers

  datatype Multiplicity = Singlet | Triplet

  /** One excited state: its energy in eV and, once read, its oscillator strength. */
  datatype Root = Root(energy: Float, oscStrength: Option<Float>)

  /** The roots found for each multiplicity, in the order of the log. */
  datatype Roots = Roots(singlet: seq<Root>, triplet: seq<Root>)

  datatype TddftState = TddftState(multiplicity: Multiplicity, inside: bool, roots: Roots)

  const StartTag: string := "Convergence criterion met"
  const EndTag: string := "Excited state energy"
  const SingletTag: string := "singlet excited"
  const TripletTag: string := "triplet excited"

  /** The scan starts outside every block, collecting singlets, with no root. */
  const Start: TddftState := TddftState(Singlet, false, Roots([], []))

  function RootsOf(roots: Roots, multiplicity: Multiplicity): seq<Root> {
    match multiplicity
    case Singlet => roots.singlet
    case Triplet => roots.triplet
  }

  function Other(multiplicity: Multiplicity): Multiplicity {
    match multiplicity
    case Singlet => Triplet
    case Triplet => Singlet
  }

  function WithRoots(roots: Roots, multiplicity: Multiplicity, rs: seq<Root>): (r: Roots)
    ensures RootsOf(r, multiplicity) == rs
    ensures RootsOf(r, Other(multiplicity)) == RootsOf(roots, Other(multiplicity))
  {
    match multiplicity
    case Singlet => roots.(singlet := rs)
    case Triplet => roots.(triplet := rs)
  }

  /** A line announcing a root: "Root" and "eV" both occur in it. */
  predicate IsRootLine(line: string) {
    Contains(line, "Root") && Contains(line, "eV")
  }

  predicate IsOscillatorLine(line: string) {
    Contains(line, "Dipole Oscillator Strength")
  }

  /** A root line inside a block: the energy is the token before last. */
  function RootStep(ts: TddftState, line: string): Result<TddftState> {
    RootFrom(ts, SplitWs(line))
  }

  function RootFrom(ts: TddftState, tokens: seq<string>): Result<TddftState> {
    if |tokens| < 2 then Err(IndexError)
    else
      var energy :- ParseFloat(tokens[|tokens| - 2]);
      var rs := RootsOf(ts.roots, ts.multiplicity);
      Ok(ts.(roots := WithRoots(ts.roots, ts.multiplicity, rs + [Root(energy, None)])))
  }

  /** An oscillator-strength line inside a block: the last token, set on the last root
      of the current multiplicity. */
  function OscillatorStep(ts: TddftState, line: string): Result<TddftState> {
    StrengthFrom(ts, SplitWs(line))
  }

  function StrengthFrom(ts: TddftState, tokens: seq<string>): Result<TddftState> {
    if |tokens| == 0 then Err(IndexError)
    else
      var osc :- ParseFloat(tokens[|tokens| - 1]);
      var rs := RootsOf(ts.roots, ts.multiplicity);
      if |rs| == 0 then Err(IndexError)
      else Ok(ts.(roots := WithRoots(ts.roots, ts.multiplicity, rs[|rs| - 1 := rs[|rs| - 1].(oscStrength := Some(osc))])))
  }

  /** One line, stripped, handled by the first branch whose test holds. */
  function TddftStep(ts: TddftState, rawLine: string): Result<TddftState> {
    var line := Strip(rawLine);
    if Contains(line, StartTag) then Ok(ts.(inside := true))
    else if Contains(line, EndTag) then Ok(ts.(inside := false))
    else if Contains(line, SingletTag) then Ok(ts.(multiplicity := Singlet))
    else if Contains(line, TripletTag) then Ok(ts.(multiplicity := Triplet))
    else if ts.inside && IsRootLine(line) then RootStep(ts, line)
    else if ts.inside && IsOscillatorLine(line) then OscillatorStep(ts, line)
    else Ok(ts)
  }

  /** The state after the given lines, or the exception that stopped the scan. */
  function TddftScan(lines: seq<string>): Result<TddftState> {
    Scan(TddftStep, Start, lines)
  }

  /** The roots of the whole raw log. */
  function TddftRoots(raw: string): Result<Roots> {
    var ts :- TddftScan(Split(raw, "\n"));
    Ok(ts.roots)
  }

  method RootLine(ts: TddftState, line: string) returns (r: Result<TddftState>)
    ensures r == RootStep(ts, line)
  {
    var tokens := SplitWs(line);
    if |tokens| < 2 {
      return Err(IndexError);
    }
    var energy := ParseFloat(tokens[|tokens| - 2]);
    if energy.Err? {
      return Err(energy.error);
    }
    var rs := RootsOf(ts.roots, ts.multiplicity);
    return Ok(ts.(roots := WithRoots(ts.roots, ts.multiplicity, rs + [Root(energy.value, None)])));
  }

  method OscillatorLine(ts: TddftState, line: string) returns (r: Result<TddftState>)
    ensures r == OscillatorStep(ts, line)
  {
    var tokens := SplitWs(line);
    if |tokens| == 0 {
      return Err(IndexError);
    }
    var osc := ParseFloat(tokens[|tokens| - 1]);
    if osc.Err? {
      return Err(osc.error);
    }
    var rs := RootsOf(ts.roots, ts.multiplicity);
    if |rs| == 0 {
      return Err(IndexError);
    }
    var last := rs[|rs| - 1].(oscStrength := Some(osc.value));
    return Ok(ts.(roots := WithRoots(ts.roots, ts.multiplicity, rs[|rs| - 1 := last])));
  }

  /** The body of the loop for one line, stripped first. */
  method TddftLine(ts: TddftState, rawLine: string) returns (r: Result<TddftState>)
    ensures r == TddftStep(ts, rawLine)
  {
    var line := Strip(rawLine);
    if Contains(line, StartTag) {
      r := Ok(ts.(inside := true));
    } else if Contains(line, EndTag) {
      r := Ok(ts.(inside := false));
    } else if Contains(line, SingletTag) {
      r := Ok(ts.(multiplicity := Singlet));
    } else if Contains(line, TripletTag) {
      r := Ok(ts.(multiplicity := Triplet));
    } else if ts.inside && Contains(line, "Root") && Contains(line, "eV") {
      r := RootLine(ts, line);
    } else if ts.inside && Contains(line, "Dipole Oscillator Strength") {
      r := OscillatorLine(ts, line);
    } else {
      r := Ok(ts);
    }
  }

  /** The loop of `parse_tddft`: the lines are popped from the front one at a time. */
  method ScanTddft(lines: seq<string>) returns (r: Result<TddftState>)
    ensures r == TddftScan(lines)
  {
    var pending := lines;
    var done := 0;
    var ts := Start;
    while pending != []
      invariant done <= |lines| && pending == lines[done..]
      invariant TddftScan(lines[..done]) == Ok(ts)
      decreases |pending|
    {
      var line := pending[0];
      pending := pending[1..];
      ScanNext(TddftStep, Start, lines, done);
      var next := TddftLine(ts, line);
      if next.Err? {
        ScanStopsAtFailure(TddftStep, Start, lines, done + 1);
        return next;
      }
      ts := next.value;
      done := done + 1;
    }
    assert lines[..done] == lines;
    return Ok(ts);
  }

  /** `parse_tddft`: the roots found by scanning the lines of the raw log. */
  method ParseTddft(raw: string) returns (r: Result<Roots>)
    ensures r == TddftRoots(raw)
  {
    var scanned := ScanTddft(Split(raw, "\n"));
    if scanned.Err? {
      return Err(scanned.error);
    }
    return Ok(scanned.value.roots);
  }

  // ---------------------------------------------------------------- properties

  /** `after` starts with the roots of `before`, each with the same energy. */
  predicate KeepsRoots(before: seq<Root>, after: seq<Root>) {
    |before| <= |after| && forall k :: 0 <= k < |before| ==> after[k].energy == before[k].energy
  }

  /** `after` keeps every root of `before`, with its energy, in the same place. */
  predicate Extends(before: Roots, after: Roots) {
    KeepsRoots(before.singlet, after.singlet) && KeepsRoots(before.triplet, after.triplet)
  }

  /** A root line inside a block appends exactly one root, with no oscillator strength
      yet, to the current multiplicity, and leaves the other multiplicity alone. */
  lemma RootLineAppends(ts: TddftState, rawLine: string)
    requires ts.inside && TddftStep(ts, rawLine).Ok?
    requires var line := Strip(rawLine);
      !Contains(line, StartTag) && !Contains(line, EndTag) && !Contains(line, SingletTag)
      && !Contains(line, TripletTag) && IsRootLine(line)
    ensures var after := TddftStep(ts, rawLine).value;
      && after.multiplicity == ts.multiplicity && after.inside
      && |RootsOf(after.roots, ts.multiplicity)| == |RootsOf(ts.roots, ts.multiplicity)| + 1
      && RootsOf(after.roots, ts.multiplicity)[..|RootsOf(ts.roots, ts.multiplicity)|] == RootsOf(ts.roots, ts.multiplicity)
      && RootsOf(after.roots, ts.multiplicity)[|RootsOf(ts.roots, ts.multiplicity)|].oscStrength.None?
      && RootsOf(after.roots, Other(ts.multiplicity)) == RootsOf(ts.roots, Other(ts.multiplicity))
    ensures var t := SplitWs(Strip(rawLine));
      |t| >= 2 &&
      RootsOf(TddftStep(ts, rawLine).value.roots, ts.multiplicity)[|RootsOf(ts.roots, ts.multiplicity)|].energy == Float(t[|t| - 2])
  {
    RootBranch(ts, rawLine);
    RootFromAppends(ts, SplitWs(Strip(rawLine)));
  }

  /** A root line inside a block raises exactly when it has fewer than two tokens
      (IndexError) or its token before last is not a float literal (ValueError). */
  lemma RootLineRaises(ts: TddftState, rawLine: string)
    requires ts.inside
    requires var line := Strip(rawLine);
      !Contains(line, StartTag) && !Contains(line, EndTag) && !Contains(line, SingletTag)
      && !Contains(line, TripletTag) && IsRootLine(line)
    ensures var t := SplitWs(Strip(rawLine));
      && (|t| < 2 ==> TddftStep(ts, rawLine) == Err(IndexError))
      && (|t| >= 2 ==> (TddftStep(ts, rawLine).Err? <==> !IsFloatLiteral(t[|t| - 2])))
  {
    RootBranch(ts, rawLine);
  }

  /** An oscillator strength is attached to the last root of the current multiplicity
      only: every other root, and the energy of that root, stay as they were. */
  lemma OscillatorAttachesToLastRoot(ts: TddftState, rawLine: string)
    requires ts.inside && TddftStep(ts, rawLine).Ok?
    requires var line := Strip(rawLine);
      !Contains(line, StartTag) && !Contains(line, EndTag) && !Contains(line, SingletTag)
      && !Contains(line, TripletTag) && !IsRootLine(line) && IsOscillatorLine(line)
    ensures var before := RootsOf(ts.roots, ts.multiplicity);
      var after := RootsOf(TddftStep(ts, rawLine).value.roots, ts.multiplicity);
      && |before| > 0 && |after| == |before|
      && after[..|before| - 1] == before[..|before| - 1]
      && after[|before| - 1].energy == before[|before| - 1].energy
      && after[|before| - 1].oscStrength.Some?
      && RootsOf(TddftStep(ts, rawLine).value.roots, Other(ts.multiplicity)) == RootsOf(ts.roots, Other(ts.multiplicity))
    ensures var t := SplitWs(Strip(rawLine));
      var after := RootsOf(TddftStep(ts, rawLine).value.roots, ts.multiplicity);
      |t| >= 1 && after[|after| - 1].oscStrength == Some(Float(t[|t| - 1]))
  {
    OscillatorBranch(ts, rawLine);
    StrengthFromSets(ts, SplitWs(Strip(rawLine)));
  }

  /** An oscillator line inside a block raises IndexError when it has no token or the
      current multiplicity has no root yet, and ValueError when its last token is not
      a float literal. */
  lemma OscillatorLineRaises(ts: TddftState, rawLine: string)
    requires ts.inside
    requires var line := Strip(rawLine);
      !Contains(line, StartTag) && !Contains(line, EndTag) && !Contains(line, SingletTag)
      && !Contains(line, TripletTag) && !IsRootLine(line) && IsOscillatorLine(line)
    ensures var t := SplitWs(Strip(rawLine));
      TddftStep(ts, rawLine).Err? <==>
        |t| == 0 || !IsFloatLiteral(t[|t| - 1]) || RootsOf(ts.roots, ts.multiplicity) == []
  {
    OscillatorBranch(ts, rawLine);
  }

  /** Inside a block, a root line that is none of the tags is read by `RootFrom`. */
  lemma RootBranch(ts: TddftState, rawLine: string)
    requires ts.inside
    requires var line := Strip(rawLine);
      !Contains(line, StartTag) && !Contains(line, EndTag) && !Contains(line, SingletTag)
      && !Contains(line, TripletTag) && IsRootLine(line)
    ensures TddftStep(ts, rawLine) == RootFrom(ts, SplitWs(Strip(rawLine)))
  {
  }

  /** Inside a block, an oscillator line that is none of the tags is read by `StrengthFrom`. */
  lemma OscillatorBranch(ts: TddftState, rawLine: string)
    requires ts.inside
    requires var line := Strip(rawLine);
      !Contains(line, StartTag) && !Contains(line, EndTag) && !Contains(line, SingletTag)
      && !Contains(line, TripletTag) && !IsRootLine(line) && IsOscillatorLine(line)
    ensures TddftStep(ts, rawLine) == StrengthFrom(ts, SplitWs(Strip(rawLine)))
  {
  }

  lemma RootFromAppends(ts: TddftState, tokens: seq<string>)
    requires RootFrom(ts, tokens).Ok?
    ensures var before := RootsOf(ts.roots, ts.multiplicity);
      var after := RootFrom(ts, tokens).value;
      && after.multiplicity == ts.multiplicity && after.inside == ts.inside
      && |RootsOf(after.roots, ts.multiplicity)| == |before| + 1
      && RootsOf(after.roots, ts.multiplicity)[..|before|] == before
      && RootsOf(after.roots, ts.multiplicity)[|before|] == Root(Float(tokens[|tokens| - 2]), None)
      && RootsOf(after.roots, Other(ts.multiplicity)) == RootsOf(ts.roots, Other(ts.multiplicity))
  {
    var before := RootsOf(ts.roots, ts.multiplicity);
    assert (before + [Root(Float(tokens[|tokens| - 2]), None)])[..|before|] == before;
  }

  lemma StrengthFromSets(ts: TddftState, tokens: seq<string>)
    requires StrengthFrom(ts, tokens).Ok?
    ensures var before := RootsOf(ts.roots, ts.multiplicity);
      var after := RootsOf(StrengthFrom(ts, tokens).value.roots, ts.multiplicity);
      && |before| > 0 && |after| == |before|
      && after[..|before| - 1] == before[..|before| - 1]
      && after[|before| - 1] == before[|before| - 1].(oscStrength := Some(Float(tokens[|tokens| - 1])))
      && RootsOf(StrengthFrom(ts, tokens).value.roots, Other(ts.multiplicity)) == RootsOf(ts.roots, Other(ts.multiplicity))
  {
  }

  /** The start tag enters a block of roots and the end tag leaves it; nothing else
      changes, and a line holding both counts as a start tag. */
  lemma BlockTags(ts: TddftState, rawLine: string)
    ensures Contains(Strip(rawLine), StartTag) ==> TddftStep(ts, rawLine) == Ok(ts.(inside := true))
    ensures !Contains(Strip(rawLine), StartTag) && Contains(Strip(rawLine), EndTag) ==>
      TddftStep(ts, rawLine) == Ok(ts.(inside := false))
  {
  }

  /** Outside a block no root is added and no strength is set: a line that is not one
      of the four tags leaves the state as it is. */
  lemma OutsideKeeps(ts: TddftState, rawLine: string)
    requires !ts.inside
    requires var line := Strip(rawLine);
      !Contains(line, StartTag) && !Contains(line, EndTag) && !Contains(line, SingletTag) && !Contains(line, TripletTag)
    ensures TddftStep(ts, rawLine) == Ok(ts)
  {
  }

  /** The multiplicity markers switch the multiplicity whether or not the scan is inside a block. */
  lemma LabelMarkers(ts: TddftState, rawLine: string)
    requires var line := Strip(rawLine); !Contains(line, StartTag) && !Contains(line, EndTag)
    ensures Contains(Strip(rawLine), SingletTag) ==> TddftStep(ts, rawLine) == Ok(ts.(multiplicity := Singlet))
    ensures !Contains(Strip(rawLine), SingletTag) && Contains(Strip(rawLine), TripletTag) ==>
      TddftStep(ts, rawLine) == Ok(ts.(multiplicity := Triplet))
  {
  }

  lemma RootStepExtends(ts: TddftState, line: string)
    requires RootStep(ts, line).Ok?
    ensures Extends(ts.roots, RootStep(ts, line).value.roots)
  {
    var rs := RootsOf(ts.roots, ts.multiplicity);
    var later := RootsOf(RootStep(ts, line).value.roots, ts.multiplicity);
    assert later[..|rs|] == rs;
    assert KeepsRoots(rs, later);
  }

  /** Setting the strength of the last root keeps every root and its energy. */
  lemma StrengthKeepsRoots(rs: seq<Root>, osc: Float)
    requires |rs| > 0
    ensures KeepsRoots(rs, rs[|rs| - 1 := rs[|rs| - 1].(oscStrength := Some(osc))])
  {
  }

  lemma StrengthExtends(ts: TddftState, tokens: seq<string>)
    requires StrengthFrom(ts, tokens).Ok?
    ensures Extends(ts.roots, StrengthFrom(ts, tokens).value.roots)
  {
    var osc := ParseFloat(tokens[|tokens| - 1]).value;
    var rs := RootsOf(ts.roots, ts.multiplicity);
    StrengthKeepsRoots(rs, osc);
  }

  lemma OscillatorStepExtends(ts: TddftState, line: string)
    requires OscillatorStep(ts, line).Ok?
    ensures Extends(ts.roots, OscillatorStep(ts, line).value.roots)
  {
    StrengthExtends(ts, SplitWs(line));
  }

  /** No line removes a root, reorders roots or changes a root's energy. */
  lemma StepExtends(ts: TddftState, rawLine: string)
    requires TddftStep(ts, rawLine).Ok?
    ensures Extends(ts.roots, TddftStep(ts, rawLine).value.roots)
  {
    var line := Strip(rawLine);
    if !Contains(line, StartTag) && !Contains(line, EndTag) && !Contains(line, SingletTag)
      && !Contains(line, TripletTag) && ts.inside
    {
      if IsRootLine(line) {
        RootStepExtends(ts, line);
      } else if IsOscillatorLine(line) {
        OscillatorStepExtends(ts, line);
      }
    }
  }

  /** The roots of a prefix of the log are kept, in order and with their energies, by
      the scan of the whole log: roots are recorded in the order of the log. */
  lemma {:induction false} ScanExtends(lines: seq<string>, n: nat)
    requires n <= |lines| && TddftScan(lines).Ok?
    ensures TddftScan(lines[..n]).Ok?
    ensures Extends(TddftScan(lines[..n]).value.roots, TddftScan(lines).value.roots)
    decreases |lines|
  {
    if n == |lines| {
      assert lines[..n] == lines;
    } else {
      var front := lines[..|lines| - 1];
      assert front[..n] == lines[..n];
      ScanExtends(front, n);
      var mid := TddftScan(front).value;
      StepExtends(mid, lines[|lines| - 1]);
      var first := TddftScan(lines[..n]).value.roots;
      var last := TddftScan(lines).value.roots;
    }
  }

  /** A log in which no line carries the start tag yields no root at all, and never
      raises: the root and oscillator branches are only taken inside a block. */
  lemma {:induction false} NoBlockNoRoots(lines: seq<string>)
    requires forall k :: 0 <= k < |lines| ==> !Contains(Strip(lines[k]), StartTag)
    ensures TddftScan(lines).Ok?
    ensures !TddftScan(lines).value.inside
    ensures TddftScan(lines).value.roots == Roots([], [])
    decreases |lines|
  {
    if lines != [] {
      var n := |lines| - 1;
      NoBlockNoRoots(lines[..n]);
      ScanNext(TddftStep, Start, lines, n);
      assert lines[..n + 1] == lines;
      OutsideStep(TddftScan(lines[..n]).value, lines[n]);
    }
  }

  /** Outside a block, a line without the start tag stays outside and adds no root. */
  lemma OutsideStep(ts: TddftState, rawLine: string)
    requires !ts.inside && !Contains(Strip(rawLine), StartTag)
    ensures TddftStep(ts, rawLine).Ok?
    ensures !TddftStep(ts, rawLine).value.inside
    ensures TddftStep(ts, rawLine).value.roots == ts.roots
  {
  }
}
