/** The job type: the chain of markers tried on a line outside every block sets it
    once, from the first line whose stripped text starts with "NWChem". */
module MarkerProps {
  import opened Outcomes
  import opened Text
  import opened Numbers
  import opened Regex
  import opened PostPass
  import opened JobSpec

  /** `line` is a title starting with "NWChem" whose label is `jobType`. */
  predicate TitleOf(line: string, jobType: string, output: string) {
    StartsWith(Strip(line), "NWChem") && jobType == JobLabel(line, output)
  }

  /** The job-type branch of the chain is taken only while the job type is still empty,
      on a title line, and records that line's label. */
  lemma JobTypeMarker(line: string, jobType: string, output: string)
    requires HeaderMarker(line, jobType, output).Ok?
    ensures var m := HeaderMarker(line, jobType, output).value;
      m.SetJobType? ==> jobType == "" && TitleOf(line, m.title, output)
  {
    if ScalarFieldMatch(line).None? && !Contains(line, "Geometry \"geometry\"") && !Contains(line, "Summary of \"ao basis\"")
      && !Contains(line, "P.Frequency") && !Contains(line, "Frequency")
      && !Contains(line, "MASS-WEIGHTED NUCLEAR HESSIAN") && !Contains(line, "MASS-WEIGHTED PROJECTED HESSIAN")
      && !Contains(line, GradientHeader) && !(jobType == "" && StartsWith(Strip(line), "NWChem"))
    {
      assert HeaderMarker(line, jobType, output) == CorrectionMarker(line);
    }
  }

  /** Only the job-type marker changes the job type. */
  lemma MarkerJobType(st: ScanState, m: Marker)
    ensures ApplyMarker(st, m).jobType == if m.SetJobType? then m.title else st.jobType
  {
  }

  /** A line outside every block either leaves the job type alone or, while it is
      empty, sets it to the label of a line starting with "NWChem"; no block changes it. */
  lemma BlockJobType(st: ScanState, line: string, output: string)
    requires BlockStep(st, line, output).Ok?
    ensures var after := BlockStep(st, line, output).value.jobType;
      after == st.jobType ||
      (st.jobType == "" && TitleOf(line, after, output))
  {
    if st.parseForce || st.parseFreq || st.parseProjectedFreq || st.parseBset || st.parseHess || st.parseProjHess {
      return;
    }
    if EnergyMatch(line).Some? {
      return;
    }
    var gas := GasPhaseEnergies(st.energies, GasPhaseMatch(line));
    var sol := SolPhaseEnergies(gas.value, SolPhaseMatch(line));
    var m := HeaderMarker(line, st.jobType, output).value;
    MarkerJobType(st.(energies := sol.value), m);
    JobTypeMarker(line, st.jobType, output);
  }

  /** One line of the loop: the job type is set at most once, by the first line whose
      stripped text starts with "NWChem", to that line's label. */
  lemma StepJobType(st: ScanState, line: string, output: string)
    requires Step(st, line, output).Ok?
    ensures var after := Step(st, line, output).value.jobType;
      after == st.jobType ||
      (st.jobType == "" && TitleOf(line, after, output))
  {
    var clock := Tick(Clock(st.time, st.parseTime), line);
    var st2 := st.(errors := st.errors + ErrorTags(line), time := clock.time, parseTime := clock.armed);
    var st3 := st2.(geometry := GeometryBlock(st.geometry, line).value);
    BlockJobType(st3, line, output);
  }

  /** Once a prefix of the job has set the job type, the rest of the job keeps it: the
      first title wins. */
  lemma {:induction false} JobTypeFirstWins(lines: seq<string>, output: string, n: nat)
    requires n <= |lines| && ScanLines(lines, output).Ok?
    ensures ScanLines(lines[..n], output).Ok?
    ensures ScanLines(lines[..n], output).value.jobType != "" ==>
      ScanLines(lines, output).value.jobType == ScanLines(lines[..n], output).value.jobType
    decreases |lines|
  {
    if n == |lines| {
      assert lines[..n] == lines;
    } else {
      var front := lines[..|lines| - 1];
      assert front[..n] == lines[..n];
      JobTypeFirstWins(front, output, n);
      StepJobType(ScanLines(front, output).value, lines[|lines| - 1], output);
    }
  }

  /** A job type, once set, comes from one of the job's lines: a line starting with
      "NWChem" whose label it is. */
  lemma {:induction false} JobTypeFromTitle(lines: seq<string>, output: string)
    requires ScanLines(lines, output).Ok?
    requires ScanLines(lines, output).value.jobType != ""
    ensures exists k :: 0 <= k < |lines| && TitleOf(lines[k], ScanLines(lines, output).value.jobType, output)
    decreases |lines|
  {
    assert lines != [];
    var last := |lines| - 1;
    var front := lines[..last];
    StepJobType(ScanLines(front, output).value, lines[last], output);
    if ScanLines(lines, output).value.jobType == ScanLines(front, output).value.jobType {
      JobTypeFromTitle(front, output);
      var k :| 0 <= k < |front| && TitleOf(front[k], ScanLines(front, output).value.jobType, output);
      assert lines[k] == front[k];
    }
  }
  // ---------------------------------------------------------------- the rest of the chain

  /** A line outside every block that is none of the three energy lines, so that the
      chain of markers decides what it does. */
  predicate NoEnergy(line: string) {
    EnergyMatch(line).None? && GasPhaseMatch(line).None? && SolPhaseMatch(line).None?
  }

  /** The tests of the chain that come before the frequency headers all fail. */
  predicate BeforeFrequencies(line: string) {
    ScalarFieldMatch(line).None? && !Contains(line, "Geometry \"geometry\"") && !Contains(line, "Summary of \"ao basis\"")
  }

  /** The tests of the chain that come before the Hessian headers all fail. */
  predicate BeforeHessians(line: string) {
    BeforeFrequencies(line) && !Contains(line, "P.Frequency") && !Contains(line, "Frequency")
  }

  /** A header field is recorded under its normalised key, as an int when int() accepts
      its text and as the text otherwise; nothing else changes. */
  lemma FieldLine(st: ScanState, line: string, output: string)
    requires NoEnergy(line) && ScalarFieldMatch(line).Some?
    ensures var fv := ScalarFieldMatch(line).value;
      IdleStep(st, line, output) == Ok(st.(fields := st.fields[FieldKey(fv.0) := ScalarOf(fv.1)]))
  {
  }

  /** "No. of <what>" becomes "n<what>", lower-cased with blanks as "_" ("No. of
      atoms" is "natoms"). */
  lemma CountKey(what: string)
    requires forall k :: 0 <= k < |what| ==> what[k] != 'N'
    ensures FieldKey("No. of " + what) == "n" + Lower(SwapChar(what, ' ', '_'))
  {
    CountPrefixReplaced(what);
    ReplaceChar("n" + what, ' ', '_');
    LowerSwapAfterN(what);
  }

  lemma CountPrefixReplaced(what: string)
    requires forall k :: 0 <= k < |what| ==> what[k] != 'N'
    ensures Replace("No. of " + what, "No. of ", "n") == "n" + what
  {
    var name := "No. of " + what;
    assert name[..7] == "No. of ";
    assert OccursAt(name, "No. of ", 0);
    assert FindFrom(name, "No. of ", 0) == Some(0);
    assert name[7..] == what;
    SplitAbsent(what, "No. of ");
    assert Split(name, "No. of ") == [""] + [what];
    JoinCons("", [what], "n");
  }

  lemma LowerSwapAfterN(what: string)
    ensures Lower(SwapChar("n" + what, ' ', '_')) == "n" + Lower(SwapChar(what, ' ', '_'))
  {
    assert SwapChar("n" + what, ' ', '_') == "n" + SwapChar(what, ' ', '_');
  }

  /** A name without an "N" (so without "No. of ") only has its blanks turned into "_"
      and is lower-cased ("Spin multiplicity" is "spin_multiplicity"). */
  lemma PlainKey(name: string)
    requires forall k :: 0 <= k < |name| ==> name[k] != 'N'
    ensures FieldKey(name) == Lower(SwapChar(name, ' ', '_'))
  {
    ReplaceAbsent(name, "No. of ", "n");
    ReplaceChar(name, ' ', '_');
  }

  /** No key holds a blank or an upper-case ASCII letter. */
  lemma KeyShape(name: string)
    ensures var key := FieldKey(name);
      forall k :: 0 <= k < |key| ==> key[k] != ' ' && !('A' <= key[k] <= 'Z')
  {
    var once := Replace(name, "No. of ", "n");
    ReplaceChar(once, ' ', '_');
  }

  /** Outside every block, a line that is none of the three energy lines does what the
      marker the chain finds in it says. */
  lemma IdleIsMarker(st: ScanState, line: string, output: string)
    requires NoEnergy(line)
    ensures HeaderMarker(line, st.jobType, output).Err? ==>
      IdleStep(st, line, output) == Err(HeaderMarker(line, st.jobType, output).error)
    ensures HeaderMarker(line, st.jobType, output).Ok? ==>
      IdleStep(st, line, output) == Ok(ApplyMarker(st, HeaderMarker(line, st.jobType, output).value))
  {
    assert st.(energies := st.energies) == st;
  }

  /** The geometry and basis-summary headers open their blocks and change nothing else. */
  lemma GeometryAndBasisHeaders(st: ScanState, line: string, output: string)
    requires NoEnergy(line) && ScalarFieldMatch(line).None?
    ensures Contains(line, "Geometry \"geometry\"") ==>
      IdleStep(st, line, output) == Ok(st.(geometry := st.geometry.(open := true)))
    ensures !Contains(line, "Geometry \"geometry\"") && Contains(line, "Summary of \"ao basis\"") ==>
      IdleStep(st, line, output) == Ok(st.(parseBset := true))
  {
  }

  /** A "P.Frequency" header raises ValueError exactly when a value after its first
      word is not a float literal. */
  lemma ProjectedFrequencyValues(st: ScanState, line: string, output: string)
    requires NoEnergy(line) && BeforeFrequencies(line) && Contains(line, "P.Frequency")
    ensures var values := Drop1(SplitWs(Strip(line)));
      IdleStep(st, line, output).Ok? <==> forall k :: 0 <= k < |values| ==> IsFloatLiteral(values[k])
  {
    IdleIsMarker(st, line, output);
    ProjectedMarker(line, st.jobType, output);
  }

  /** A "P.Frequency" header whose values parse opens the projected-mode block and
      appends one mode per value after its first word, each with no displacement,
      keeping the modes read before. */
  lemma ProjectedFrequencyHeader(st: ScanState, line: string, output: string)
    requires NoEnergy(line) && BeforeFrequencies(line) && Contains(line, "P.Frequency")
    requires IdleStep(st, line, output).Ok?
    ensures var values := Drop1(SplitWs(Strip(line)));
      var old_ := OrEmpty(st.frequencies);
      var r := IdleStep(st, line, output).value;
      && r.parseProjectedFreq && r.frequencies.Some?
      && |r.frequencies.value| == |old_| + |values|
      && r.frequencies.value[..|old_|] == old_
      && (forall k :: 0 <= k < |values| ==> r.frequencies.value[|old_| + k] == RawMode(Float(values[k]), []))
      && r == st.(parseProjectedFreq := true, frequencies := r.frequencies)
  {
    var values := Drop1(SplitWs(Strip(line)));
    IdleIsMarker(st, line, output);
    ProjectedMarker(line, st.jobType, output);
    var freqs := ParseFloats(values).value;
    ApplyModes(st, freqs);
    ModesAppended(OrEmpty(st.frequencies), values, freqs);
  }

  lemma ProjectedMarker(line: string, jobType: string, output: string)
    requires BeforeFrequencies(line) && Contains(line, "P.Frequency")
    ensures var values := Drop1(SplitWs(Strip(line)));
      HeaderMarker(line, jobType, output) ==
        if ParseFloats(values).Ok? then Ok(ProjectedModes(ParseFloats(values).value)) else Err(ParseFloats(values).error)
  {
  }

  lemma NormalMarker(line: string, jobType: string, output: string)
    requires BeforeFrequencies(line) && !Contains(line, "P.Frequency") && Contains(line, "Frequency")
    ensures var tokens := SplitWs(Strip(line));
      HeaderMarker(line, jobType, output) ==
        if !(|tokens| > 1 && tokens[0] == "Frequency") then Ok(NoMarker)
        else if ParseFloats(tokens[1..]).Ok? then Ok(NormalModes(ParseFloats(tokens[1..]).value))
        else Err(ParseFloats(tokens[1..]).error)
  {
  }

  lemma ApplyModes(st: ScanState, freqs: seq<Float>)
    ensures ApplyMarker(st, ProjectedModes(freqs)) ==
      st.(parseProjectedFreq := true, frequencies := Some(OrEmpty(st.frequencies) + NewModes(freqs)))
    ensures ApplyMarker(st, NormalModes(freqs)) ==
      st.(parseFreq := true, normalFrequencies := Some(OrEmpty(st.normalFrequencies) + NewModes(freqs)))
  {
  }

  /** The modes a header appends: one per value, each with no displacement, after the
      modes already read. */
  lemma ModesAppended(modes: seq<RawMode>, values: seq<string>, freqs: seq<Float>)
    requires ParseFloats(values) == Ok(freqs)
    ensures var ms := modes + NewModes(freqs);
      && |ms| == |modes| + |values|
      && ms[..|modes|] == modes
      && forall k :: 0 <= k < |values| ==> ms[|modes| + k] == RawMode(Float(values[k]), [])
  {
    var ms := modes + NewModes(freqs);
    assert ms[..|modes|] == modes;
  }

  /** A header whose first word is "Frequency", followed by more words, raises
      ValueError exactly when a value after that word is not a float literal. */
  lemma NormalFrequencyValues(st: ScanState, line: string, output: string)
    requires NoEnergy(line) && BeforeFrequencies(line) && !Contains(line, "P.Frequency") && Contains(line, "Frequency")
    requires var tokens := SplitWs(Strip(line)); |tokens| > 1 && tokens[0] == "Frequency"
    ensures var values := SplitWs(Strip(line))[1..];
      IdleStep(st, line, output).Ok? <==> forall k :: 0 <= k < |values| ==> IsFloatLiteral(values[k])
  {
    IdleIsMarker(st, line, output);
    NormalMarker(line, st.jobType, output);
  }

  /** Such a header whose values parse opens the normal-mode block and appends one
      mode per value after its first word, each with no displacement, keeping the
      modes read before. */
  lemma NormalFrequencyHeader(st: ScanState, line: string, output: string)
    requires NoEnergy(line) && BeforeFrequencies(line) && !Contains(line, "P.Frequency") && Contains(line, "Frequency")
    requires var tokens := SplitWs(Strip(line)); |tokens| > 1 && tokens[0] == "Frequency"
    requires IdleStep(st, line, output).Ok?
    ensures var values := SplitWs(Strip(line))[1..];
      var old_ := OrEmpty(st.normalFrequencies);
      var r := IdleStep(st, line, output).value;
      && r.parseFreq && r.normalFrequencies.Some?
      && |r.normalFrequencies.value| == |old_| + |values|
      && r.normalFrequencies.value[..|old_|] == old_
      && (forall k :: 0 <= k < |values| ==> r.normalFrequencies.value[|old_| + k] == RawMode(Float(values[k]), []))
      && r == st.(parseFreq := true, normalFrequencies := r.normalFrequencies)
  {
    var values := SplitWs(Strip(line))[1..];
    IdleIsMarker(st, line, output);
    NormalMarker(line, st.jobType, output);
    var freqs := ParseFloats(values).value;
    ApplyModes(st, freqs);
    ModesAppended(OrEmpty(st.normalFrequencies), values, freqs);
  }

  /** A line that mentions "Frequency" without starting with it (or with nothing after
      it) opens no block and changes nothing. */
  lemma FrequencyMentionIgnored(st: ScanState, line: string, output: string)
    requires NoEnergy(line) && BeforeFrequencies(line) && !Contains(line, "P.Frequency") && Contains(line, "Frequency")
    requires var tokens := SplitWs(Strip(line)); !(|tokens| > 1 && tokens[0] == "Frequency")
    ensures IdleStep(st, line, output) == Ok(st)
  {
    IdleIsMarker(st, line, output);
    NormalMarker(line, st.jobType, output);
    ApplyNoMarker(st);
  }

  lemma ApplyNoMarker(st: ScanState)
    ensures ApplyMarker(st, NoMarker) == st
  {
  }

  /** The Hessian headers open their blocks, starting an empty Hessian when there is
      none yet (`if not hessian: hessian = []`) and keeping one already read. */
  lemma HessianHeaders(st: ScanState, line: string, output: string)
    requires NoEnergy(line) && BeforeHessians(line)
    ensures Contains(line, "MASS-WEIGHTED NUCLEAR HESSIAN") ==>
      IdleStep(st, line, output) == Ok(st.(parseHess := true, hessian := Some(OrEmpty(st.hessian))))
    ensures !Contains(line, "MASS-WEIGHTED NUCLEAR HESSIAN") && Contains(line, "MASS-WEIGHTED PROJECTED HESSIAN") ==>
      IdleStep(st, line, output) == Ok(st.(parseProjHess := true, projectedHessian := Some(OrEmpty(st.projectedHessian))))
  {
    IdleIsMarker(st, line, output);
    HessianMarkers(line, st.jobType, output);
    ApplyHessians(st);
  }

  lemma ApplyHessians(st: ScanState)
    ensures ApplyMarker(st, OpenHessian) == st.(parseHess := true, hessian := Some(OrEmpty(st.hessian)))
    ensures ApplyMarker(st, OpenProjectedHessian) ==
      st.(parseProjHess := true, projectedHessian := Some(OrEmpty(st.projectedHessian)))
  {
  }

  lemma HessianMarkers(line: string, jobType: string, output: string)
    requires BeforeHessians(line)
    ensures Contains(line, "MASS-WEIGHTED NUCLEAR HESSIAN") ==> HeaderMarker(line, jobType, output) == Ok(OpenHessian)
    ensures !Contains(line, "MASS-WEIGHTED NUCLEAR HESSIAN") && Contains(line, "MASS-WEIGHTED PROJECTED HESSIAN") ==>
      HeaderMarker(line, jobType, output) == Ok(OpenProjectedHessian)
  {
  }

  /** The tests of the chain that come before the correction all fail. */
  predicate BeforeCorrection(line: string, jobType: string) {
    && BeforeHessians(line)
    && !Contains(line, "MASS-WEIGHTED NUCLEAR HESSIAN") && !Contains(line, "MASS-WEIGHTED PROJECTED HESSIAN")
    && !Contains(line, GradientHeader)
    && !(jobType == "" && StartsWith(Strip(line), "NWChem"))
  }

  /** The gradient header opens the gradient table and changes nothing else. */
  lemma GradientHeaderOpens(st: ScanState, line: string, output: string)
    requires NoEnergy(line) && BeforeHessians(line)
    requires !Contains(line, "MASS-WEIGHTED NUCLEAR HESSIAN") && !Contains(line, "MASS-WEIGHTED PROJECTED HESSIAN")
    requires Contains(line, GradientHeader)
    ensures IdleStep(st, line, output) == Ok(st.(parseForce := true))
  {
    IdleIsMarker(st, line, output);
    assert HeaderMarker(line, st.jobType, output) == Ok(OpenGradient);
  }

  /** The last test of the chain: a correction is recorded under its label, converted
      from kJ/mol to eV per atom, and nothing else changes; a value that is not a float
      literal raises ValueError. A line matching no test changes nothing. */
  lemma CorrectionLine(st: ScanState, line: string, output: string)
    requires NoEnergy(line) && BeforeCorrection(line, st.jobType)
    ensures CorrectionMatch(line).None? ==> IdleStep(st, line, output) == Ok(st)
    ensures CorrectionMatch(line).Some? ==>
      var cv := CorrectionMatch(line).value;
      && (IdleStep(st, line, output).Ok? <==> IsFloatLiteral(cv.1))
      && (IsFloatLiteral(cv.1) ==>
            IdleStep(st, line, output) == Ok(st.(corrections := st.corrections[cv.0 := CorrectionEv(Float(cv.1))])))
  {
    IdleIsMarker(st, line, output);
    LastMarker(line, st.jobType, output);
    ApplyNoMarker(st);
    if CorrectionMatch(line).Some? {
      var cv := CorrectionMatch(line).value;
      ApplyCorrection(st, cv.0, CorrectionEv(Float(cv.1)));
    }
  }

  lemma LastMarker(line: string, jobType: string, output: string)
    requires BeforeCorrection(line, jobType)
    ensures HeaderMarker(line, jobType, output) == CorrectionMarker(line)
  {
  }

  lemma ApplyCorrection(st: ScanState, name: string, value: Correction)
    ensures ApplyMarker(st, SetCorrection(name, value)) == st.(corrections := st.corrections[name := value])
  {
  }
}
