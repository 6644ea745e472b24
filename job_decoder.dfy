/** The job decoder as it runs. The loop of the decoder keeps its locals in a
    ScanState value that each block of the loop body updates; every block is a method
    proved to compute what the matching function of JobSpec says, and ParseJob drives
    them over the lines of a job and runs the post-pass. */
module JobDecoder {
  import opened Outcomes
  import opened Text
  import opened Numbers
  import opened Regex
  import opened PostPass
  import opened JobSpec

  /** `for mode, dis in zip(modes[-n:], vibs): mode[1].append(dis)` with n = |vibs|. */
  method AppendRow(modes: seq<RawMode>, vibs: seq<Float>) returns (r: seq<RawMode>)
    ensures r == AppendColumns(modes, vibs)
  {
    // modes[-0:] is the whole list, but zip with no values then pairs nothing
    var start := ColumnsStart(|modes|, |vibs|);
    r := modes;
    var k := 0;
    while k < |vibs| && start + k < |modes|
      invariant 0 <= k <= |vibs| && start + k <= |modes| && |r| == |modes|
      invariant forall i :: 0 <= i < |modes| ==>
        r[i] == if start <= i < start + k then modes[i].(flat := modes[i].flat + [vibs[i - start]]) else modes[i]
    {
      r := r[start + k := r[start + k].(flat := r[start + k].flat + [vibs[k]])];
      k := k + 1;
    }
  }

  /** `for e, v in error_defs.items(): if line.find(e) != -1: errors.append(v)` */
  method NoteErrors(errors: seq<string>, line: string) returns (r: seq<string>)
    ensures r == errors + ErrorTags(line)
  {
    r := errors;
    var k := 0;
    while k < |ErrorSignatures|
      invariant 0 <= k <= |ErrorSignatures|
      invariant r == errors + TagsFor(line, ErrorSignatures[..k])
    {
      var signature := ErrorSignatures[k];
      if Contains(line, signature.0) {
        r := r + [signature.1];
      }
      assert ErrorSignatures[..k + 1][..k] == ErrorSignatures[..k];
      k := k + 1;
    }
    assert ErrorSignatures[..k] == ErrorSignatures;
  }

  /** `if parse_time and (match := time_patt.search(line)): time = match[1]; parse_time = False` */
  method NoteTime(clock: Clock, line: string) returns (r: Clock)
    ensures r == Tick(clock, line)
  {
    r := clock;
    if clock.armed {
      var m := TimeMatch(line);
      if m.Some? {
        r := Clock(CpuSeconds(m.value), false);
      }
    }
  }

  method GeometryLine(g: Geometry, line: string) returns (r: Result<Geometry>)
    ensures r == GeometryBlock(g, line)
  {
    if !g.open {
      return Ok(g);
    }
    var h := g;
    if Strip(line) == "Atomic Mass" {
      if |h.lattice| > 0 {
        h := h.(structures := h.structures + [Structure(h.lattice, h.species, h.coords)]);
      } else {
        h := h.(molecules := h.molecules + [Molecule(h.species, h.coords)]);
      }
      return Ok(h.(species := [], coords := [], lattice := [], open := false));
    }
    var m := CoordMatch(line);
    if m.Some? {
      var v := ParseVec(m.value[1..]);
      if v.Err? {
        return Err(v.error);
      }
      h := h.(species := h.species + [Capitalize(m.value[0])], coords := h.coords + [v.value]);
    }
    var a := LatticeVectorMatch(line);
    if a.Some? {
      var v := ParseVec(a.value);
      if v.Err? {
        return Err(v.error);
      }
      h := h.(lattice := h.lattice + [v.value]);
    }
    return Ok(h);
  }


  method ForceLine(st: ScanState, line: string) returns (r: Result<ScanState>)
    ensures r == ForceStep(st, line)
  {
    var m := ForceMatch(line);
    if m.Some? {
      var fs := ParseFloats(m.value);
      if fs.Err? {
        return Err(fs.error);
      }
      return Ok(st.(forces := st.forces + fs.value));
    } else if |st.forces| > 0 {
      return Ok(st.(allForces := st.allForces + [st.forces], forces := [], parseForce := false));
    }
    return Ok(st);
  }

  /** A line of a mode block: the new mode list and whether the block ends. */
  method ModeBlockLine(modes: Option<seq<RawMode>>, line: string) returns (r: Result<(Option<seq<RawMode>>, bool)>)
    ensures r == ModeLine(modes, line)
  {
    if |Strip(line)| == 0 {
      if modes.None? {
        return Err(TypeError);
      }
      if modes.value == [] {
        return Err(IndexError);
      }
      if modes.value[|modes.value| - 1].flat == [] {
        return Ok((modes, false));
      }
      return Ok((modes, true));
    }
    var vibs := ParseFloats(Drop1(SplitWs(Strip(line))));
    if vibs.Err? {
      return Err(vibs.error);
    }
    if modes.None? {
      return Err(TypeError);
    }
    var appended := AppendRow(modes.value, vibs.value);
    return Ok((Some(appended), false));
  }

  method NormalModeLine(st: ScanState, line: string) returns (r: Result<ScanState>)
    ensures r == NormalModeStep(st, line)
  {
    var u := ModeBlockLine(st.normalFrequencies, line);
    if u.Err? {
      return Err(u.error);
    }
    var s := st.(normalFrequencies := u.value.0);
    if u.value.1 {
      s := s.(parseFreq := false);
    }
    return Ok(s);
  }

  method ProjectedModeLine(st: ScanState, line: string) returns (r: Result<ScanState>)
    ensures r == ProjectedModeStep(st, line)
  {
    var u := ModeBlockLine(st.frequencies, line);
    if u.Err? {
      return Err(u.error);
    }
    var s := st.(frequencies := u.value.0);
    if u.value.1 {
      s := s.(parseProjectedFreq := false);
    }
    return Ok(s);
  }

  method BasisLine(st: ScanState, line: string) returns (r: Result<ScanState>)
    ensures r == BasisStep(st, line)
  {
    BlankIffNoTokens(line);
    if Strip(line) == "" {
      return Ok(st.(parseBset := false));
    }
    var tokens := SplitWs(line);
    if tokens[0] != "Tag" && !StartsWith(tokens[0], "-") {
      return Ok(st.(basisSet := st.basisSet[tokens[0] := ZipToMap(Drop1(st.bsetHeader), tokens[1..])]));
    } else if tokens[0] == "Tag" {
      if |tokens| < 5 {
        return Err(IndexError);
      }
      return Ok(st.(bsetHeader := LowerAll(tokens[..4] + tokens[5..])));
    }
    return Ok(st);
  }

  /** `h[row - 1] += vals`, or a new row when there are fewer than `row` rows. */
  method PutHessianRow(h: Matrix, row: int, vals: seq<Float>) returns (r: Result<Matrix>)
    ensures r == PutRow(h, row, vals)
  {
    if |h| < row {
      return Ok(h + [vals]);
    }
    var k := PyIndex(|h|, row - 1);
    if k.None? {
      return Err(IndexError);
    }
    return Ok(h[k.value := h[k.value] + vals]);
  }

  /** A line of the Hessian block: the new Hessian, and whether the block ends. */
  method HessianBlockLine(hessian: Option<Matrix>, line: string) returns (r: Result<(Option<Matrix>, bool)>)
    ensures r == HessianBlock(hessian, line)
  {
    if Strip(line) == "" {
      return Ok((hessian, false));
    }
    if hessian.None? {
      return Err(TypeError);
    }
    if |hessian.value| > 0 && Contains(line, "----------") {
      return Ok((hessian, true));
    }
    var u := HessianRow(SplitWs(Strip(line)));
    if u.Err? {
      return Err(u.error);
    }
    if u.value.Skip? {
      return Ok((hessian, false));
    }
    var h := PutHessianRow(hessian.value, u.value.index, u.value.values);
    if h.Err? {
      return Err(h.error);
    }
    return Ok((Some(h.value), false));
  }

  method HessianLine(st: ScanState, line: string) returns (r: Result<ScanState>)
    ensures r == HessianStep(st, line)
  {
    var e := HessianBlockLine(st.hessian, line);
    if e.Err? {
      return Err(e.error);
    }
    var s := st.(hessian := e.value.0);
    if e.value.1 {
      s := s.(parseHess := false);
    }
    return Ok(s);
  }

  /** A row of the projected Hessian put in place, and whether the block ends. */
  method ProjectedRow(projected: Option<Matrix>, nat3: nat, u: RowUpdate) returns (r: Result<(Option<Matrix>, bool)>)
    ensures r == ProjectedRowStep(projected, nat3, u)
  {
    if u.Skip? {
      return Ok((projected, false));
    }
    if projected.None? {
      return Err(TypeError);
    }
    var p := PutHessianRow(projected.value, u.index, u.values);
    if p.Err? {
      return Err(p.error);
    }
    return Ok((Some(p.value), |p.value[|p.value| - 1]| == nat3));
  }

  method ProjectedHessianLine(st: ScanState, line: string) returns (r: Result<ScanState>)
    ensures r == ProjectedHessianStep(st, line)
  {
    if Strip(line) == "" {
      return Ok(st);
    }
    if st.hessian.None? {
      return Err(TypeError);
    }
    var nat3 := |st.hessian.value|;
    var u := HessianRow(SplitWs(Strip(line)));
    if u.Err? {
      return Err(u.error);
    }
    var e := ProjectedRow(st.projectedHessian, nat3, u.value);
    if e.Err? {
      return Err(e.error);
    }
    var s := st.(projectedHessian := e.value.0);
    if e.value.1 {
      s := s.(parseProjHess := false);
    }
    return Ok(s);
  }

  method GasPhaseLine(energies: seq<EnergyEntry>, line: string) returns (r: Result<seq<EnergyEntry>>)
    ensures r == GasPhaseEnergies(energies, GasPhaseMatch(line))
  {
    var m := GasPhaseMatch(line);
    if m.None? {
      return Ok(energies);
    }
    if energies == [] {
      return Err(IndexError);
    }
    var cosmoScf := energies[|energies| - 1];
    var e := ParseFloat(m.value);
    if e.Err? {
      return Err(e.error);
    }
    var parts := map["cosmo scf" := cosmoScf, "gas phase" := Plain(EnergyEv(e.value))];
    return Ok(energies[|energies| - 1 := Solvated(parts)]);
  }

  method SolPhaseLine(energies: seq<EnergyEntry>, line: string) returns (r: Result<seq<EnergyEntry>>)
    ensures r == SolPhaseEnergies(energies, SolPhaseMatch(line))
  {
    var m := SolPhaseMatch(line);
    if m.None? {
      return Ok(energies);
    }
    if energies == [] {
      return Err(IndexError);
    }
    var e := ParseFloat(m.value);
    if e.Err? {
      return Err(e.error);
    }
    var last := energies[|energies| - 1];
    if last.Plain? {
      return Err(TypeError);
    }
    var parts := last.parts["sol phase" := Plain(EnergyEv(e.value))];
    return Ok(energies[|energies| - 1 := Solvated(parts)]);
  }

  /** The if/elif chain of markers on a line outside every block. */
  method FindMarker(line: string, jobType: string, output: string) returns (r: Result<Marker>)
    ensures r == HeaderMarker(line, jobType, output)
  {
    var field := ScalarFieldMatch(line);
    if field.Some? {
      return Ok(SetField(FieldKey(field.value.0), ScalarOf(field.value.1)));
    } else if Contains(line, "Geometry \"geometry\"") {
      return Ok(OpenGeometry);
    } else if Contains(line, "Summary of \"ao basis\"") {
      return Ok(OpenBasis);
    } else if Contains(line, "P.Frequency") {
      var freqs := ParseFloats(Drop1(SplitWs(Strip(line))));
      if freqs.Err? {
        return Err(freqs.error);
      }
      return Ok(ProjectedModes(freqs.value));
    } else if Contains(line, "Frequency") {
      var tokens := SplitWs(Strip(line));
      if |tokens| > 1 && tokens[0] == "Frequency" {
        var freqs := ParseFloats(tokens[1..]);
        if freqs.Err? {
          return Err(freqs.error);
        }
        return Ok(NormalModes(freqs.value));
      }
      return Ok(NoMarker);
    } else if Contains(line, "MASS-WEIGHTED NUCLEAR HESSIAN") {
      return Ok(OpenHessian);
    } else if Contains(line, "MASS-WEIGHTED PROJECTED HESSIAN") {
      return Ok(OpenProjectedHessian);
    } else if Contains(line, GradientHeader) {
      return Ok(OpenGradient);
    } else if jobType == "" && StartsWith(Strip(line), "NWChem") {
      return Ok(SetJobType(JobLabel(line, output)));
    }
    var c := CorrectionMatch(line);
    if c.None? {
      return Ok(NoMarker);
    }
    var v := ParseFloat(c.value.1);
    if v.Err? {
      return Err(v.error);
    }
    return Ok(SetCorrection(c.value.0, CorrectionEv(v.value)));
  }

  method IdleLine(st: ScanState, line: string, output: string) returns (r: Result<ScanState>)
    ensures r == IdleStep(st, line, output)
  {
    var m := EnergyMatch(line);
    if m.Some? {
      var e := ParseFloat(m.value);
      if e.Err? {
        return Err(e.error);
      }
      return Ok(st.(energies := st.energies + [Plain(EnergyEv(e.value))], parseTime := true));
    }
    var gas := GasPhaseLine(st.energies, line);
    if gas.Err? {
      return Err(gas.error);
    }
    var sol := SolPhaseLine(gas.value, line);
    if sol.Err? {
      return Err(sol.error);
    }
    var marker := FindMarker(line, st.jobType, output);
    if marker.Err? {
      return Err(marker.error);
    }
    return Ok(ApplyMarker(st.(energies := sol.value), marker.value));
  }

  /** The body of the decoder's loop for one line. */
  method Feed(st: ScanState, line: string, output: string) returns (r: Result<ScanState>)
    ensures r == Step(st, line, output)
  {
    var errors := NoteErrors(st.errors, line);
    var clock := NoteTime(Clock(st.time, st.parseTime), line);
    var s := st.(errors := errors, time := clock.time, parseTime := clock.armed);
    var g := GeometryLine(s.geometry, line);
    if g.Err? {
      return Err(g.error);
    }
    s := s.(geometry := g.value);
    if s.parseForce {
      r := ForceLine(s, line);
    } else if s.parseFreq {
      r := NormalModeLine(s, line);
    } else if s.parseProjectedFreq {
      r := ProjectedModeLine(s, line);
    } else if s.parseBset {
      r := BasisLine(s, line);
    } else if s.parseHess {
      r := HessianLine(s, line);
    } else if s.parseProjHess {
      r := ProjectedHessianLine(s, line);
    } else {
      r := IdleLine(s, line, output);
    }
  }

  /** The decoder's loop over the lines of a job. */
  method ScanJob(lines: seq<string>, output: string) returns (r: Result<ScanState>)
    ensures r == ScanLines(lines, output)
  {
    var st := Initial;
    var i := 0;
    while i < |lines|
      invariant 0 <= i <= |lines|
      invariant ScanLines(lines[..i], output) == Ok(st)
    {
      assert lines[..i + 1][..i] == lines[..i];
      var next := Feed(st, lines[i], output);
      if next.Err? {
        ScanStopsAtFailure(LineStep(output), Initial, lines, i + 1);
        return next;
      }
      st := next.value;
      i := i + 1;
    }
    assert lines[..i] == lines;
    return Ok(st);
  }

  /** The mode lists regrouped into triples, when the job has them. */
  method ReshapeAll(modes: Option<seq<RawMode>>) returns (r: Option<seq<Mode>>)
    ensures r == ReshapedAll(modes)
  {
    if modes.None? {
      return None;
    }
    var reshaped := ReshapeModes(modes.value);
    assert reshaped == ReshapedAll(modes).value;
    return Some(reshaped);
  }

  /** A Hessian completed from its lower triangle, when the job has one. */
  method CompleteOpt(h: Option<Matrix>) returns (r: Result<Option<Matrix>>)
    ensures r == CompletedOpt(h)
  {
    if h.None? {
      return Ok(None);
    }
    var m := CompleteHessian(h.value);
    if m.Err? {
      return Err(m.error);
    }
    return Ok(Some(m.value));
  }

  /** The post-pass over the locals the loop left. */
  method FinishJob(st: ScanState) returns (r: Result<JobRecord>)
    ensures r == Finalize(st)
  {
    var hessian := CompleteOpt(st.hessian);
    if hessian.Err? {
      return Err(hessian.error);
    }
    var projectedHessian := CompleteOpt(st.projectedHessian);
    if projectedHessian.Err? {
      return Err(projectedHessian.error);
    }
    var frequencies := ReshapeAll(st.frequencies);
    var normalFrequencies := ReshapeAll(st.normalFrequencies);
    return Ok(JobRecord(st.fields, st.jobType, st.energies, st.corrections, st.geometry.molecules, st.geometry.structures,
                        st.basisSet, st.errors, |st.errors| > 0, frequencies, normalFrequencies,
                        hessian.value, projectedHessian.value, st.allForces, st.time));
  }

  /** `_parse_job`: the loop over the lines of the job, then the post-pass. */
  method ParseJob(output: string) returns (r: Result<JobRecord>)
    ensures r == DecodeJob(output)
  {
    var scanned := ScanJob(Split(output, "\n"), output);
    if scanned.Err? {
      return Err(scanned.error);
    }
    r := FinishJob(scanned.value);
  }
}
