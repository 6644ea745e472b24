/** What the job decoder promises, proved about its specification: how errors are
    recorded, how the task timer fires, and what the geometry block adds. The block
    steps are first shown to leave that bookkeeping alone. */
module JobProps {
  import opened Outcomes
  import opened Text
  import opened Numbers
  import opened Regex
  import opened PostPass
  import opened JobSpec

  // ---------------------------------------------------------------- frames

  /** The state that only the error scan, the timer and the geometry block may change. */
  datatype Kept = Kept(errors: seq<string>, time: TaskTime, parseTime: bool,
                       molecules: seq<Molecule>, structures: seq<Structure>,
                       species: seq<string>, coords: seq<Vec3>, lattice: seq<Vec3>)

  function KeptOf(s: ScanState): Kept {
    Kept(s.errors, s.time, s.parseTime, s.geometry.molecules, s.geometry.structures,
         s.geometry.species, s.geometry.coords, s.geometry.lattice)
  }

  /** A step that succeeds leaves that state as it found it. */
  predicate Keeps(st: ScanState, r: Result<ScanState>) {
    r.Ok? ==> KeptOf(r.value) == KeptOf(st)
  }

  lemma ForceKeeps(st: ScanState, line: string)
    ensures Keeps(st, ForceStep(st, line))
  {
  }

  lemma NormalModeKeeps(st: ScanState, line: string)
    ensures Keeps(st, NormalModeStep(st, line))
  {
  }

  lemma ProjectedModeKeeps(st: ScanState, line: string)
    ensures Keeps(st, ProjectedModeStep(st, line))
  {
  }

  lemma BasisKeeps(st: ScanState, line: string)
    ensures Keeps(st, BasisStep(st, line))
  {
  }

  lemma HessianKeeps(st: ScanState, line: string)
    ensures Keeps(st, HessianStep(st, line))
  {
  }

  lemma ProjectedHessianKeeps(st: ScanState, line: string)
    ensures Keeps(st, ProjectedHessianStep(st, line))
  {
  }

  /** A marker changes none of that state. */
  lemma MarkerKeeps(st: ScanState, m: Marker)
    ensures KeptOf(ApplyMarker(st, m)) == KeptOf(st)
  {
  }

  /** Outside every block, a line that is not a total energy keeps the state too. */
  lemma IdleKeeps(st: ScanState, line: string, output: string)
    requires EnergyMatch(line).None?
    ensures Keeps(st, IdleStep(st, line, output))
  {
    var gas := GasPhaseEnergies(st.energies, GasPhaseMatch(line));
    if gas.Err? {
      return;
    }
    var sol := SolPhaseEnergies(gas.value, SolPhaseMatch(line));
    if sol.Err? {
      return;
    }
    var m := HeaderMarker(line, st.jobType, output);
    if m.Err? {
      return;
    }
    MarkerKeeps(st.(energies := sol.value), m.value);
  }

  /** No block is open: the line goes to the chain of markers. */
  predicate Idle(st: ScanState) {
    !st.parseForce && !st.parseFreq && !st.parseProjectedFreq && !st.parseBset && !st.parseHess && !st.parseProjHess
  }

  /** Every block keeps the state, except a total energy read outside every block. */
  lemma BlockKeeps(st: ScanState, line: string, output: string)
    requires !(Idle(st) && EnergyMatch(line).Some?)
    ensures Keeps(st, BlockStep(st, line, output))
  {
    if st.parseForce {
      ForceKeeps(st, line);
      return;
    }
    if st.parseFreq {
      NormalModeKeeps(st, line);
      return;
    }
    if st.parseProjectedFreq {
      ProjectedModeKeeps(st, line);
      return;
    }
    if st.parseBset {
      BasisKeeps(st, line);
      return;
    }
    if st.parseHess {
      HessianKeeps(st, line);
      return;
    }
    if st.parseProjHess {
      ProjectedHessianKeeps(st, line);
      return;
    }
    IdleKeeps(st, line, output);
  }

  // ---------------------------------------------------------------- errors

  /** Every signature found in a line appends its error, whatever block is open, and
      nothing else touches the error list. */
  lemma StepErrors(st: ScanState, line: string, output: string)
    requires Step(st, line, output).Ok?
    ensures Step(st, line, output).value.errors == st.errors + ErrorTags(line)
  {
    var clock := Tick(ClockOf(st), line);
    var st2 := st.(errors := st.errors + ErrorTags(line), time := clock.time, parseTime := clock.armed);
    var st3 := st2.(geometry := GeometryBlock(st.geometry, line).value);
    if Idle(st3) && EnergyMatch(line).Some? {
      return;
    }
    BlockKeeps(st3, line, output);
  }

  /** The signatures that occur in a line are exactly those that yield a tag. */
  lemma {:induction false} TagsForNonEmpty(line: string, defs: seq<(string, string)>)
    ensures TagsFor(line, defs) != [] <==> exists k :: 0 <= k < |defs| && Contains(line, defs[k].0)
    decreases |defs|
  {
    if defs != [] {
      var front := defs[..|defs| - 1];
      TagsForNonEmpty(line, front);
      if exists k :: 0 <= k < |front| && Contains(line, front[k].0) {
        var k :| 0 <= k < |front| && Contains(line, front[k].0);
        assert defs[k] == front[k];
      }
      if exists k :: 0 <= k < |defs| && Contains(line, defs[k].0) {
        var k :| 0 <= k < |defs| && Contains(line, defs[k].0);
        if k < |front| {
          assert front[k] == defs[k];
        }
      }
    }
  }

  /** A line yields an error exactly when one of the signatures occurs in it. */
  lemma ErrorTagsIff(line: string)
    ensures ErrorTags(line) != [] <==> HasSignature(line)
  {
    TagsForNonEmpty(line, ErrorSignatures);
  }

  /** The errors of all the lines, in line order. */
  function AllTags(lines: seq<string>): seq<string>
    decreases |lines|
  {
    if |lines| == 0 then [] else AllTags(lines[..|lines| - 1]) + ErrorTags(lines[|lines| - 1])
  }

  /** The scan's error list holds the errors of every line, in order. */
  lemma {:induction false} ScanErrors(lines: seq<string>, output: string)
    requires ScanLines(lines, output).Ok?
    ensures ScanLines(lines, output).value.errors == AllTags(lines)
    decreases |lines|
  {
    if |lines| > 0 {
      var front := lines[..|lines| - 1];
      ScanErrors(front, output);
      StepErrors(ScanLines(front, output).value, lines[|lines| - 1], output);
    }
  }

  lemma {:induction false} AllTagsEmpty(lines: seq<string>)
    ensures AllTags(lines) == [] <==> forall k :: 0 <= k < |lines| ==> !HasSignature(lines[k])
    decreases |lines|
  {
    if |lines| > 0 {
      var front := lines[..|lines| - 1];
      AllTagsEmpty(front);
      ErrorTagsIff(lines[|lines| - 1]);
      if forall k :: 0 <= k < |front| ==> !HasSignature(front[k]) {
        if !HasSignature(lines[|lines| - 1]) {
          forall k | 0 <= k < |lines|
            ensures !HasSignature(lines[k])
          {
            if k < |front| {
              assert lines[k] == front[k];
            }
          }
        }
      } else {
        var k :| 0 <= k < |front| && HasSignature(front[k]);
        assert lines[k] == front[k];
      }
    }
  }

  /** A decoded job is the post-pass applied to the state the scan of its lines reached. */
  lemma DecodeIsFinalized(output: string)
    requires DecodeJob(output).Ok?
    ensures ScanLines(Split(output, "\n"), output).Ok?
    ensures DecodeJob(output) == Finalize(ScanLines(Split(output, "\n"), output).value)
  {
  }

  /** The post-pass reports the errors the scan found, and an error exactly when there is one. */
  lemma FinalizeErrors(st: ScanState)
    requires Finalize(st).Ok?
    ensures Finalize(st).value.errors == st.errors
    ensures Finalize(st).value.hasError <==> st.errors != []
  {
  }

  /** A decoded job has an error exactly when some line carries a signature. */
  lemma HasErrorIff(output: string)
    requires DecodeJob(output).Ok?
    ensures var lines := Split(output, "\n");
      DecodeJob(output).value.hasError <==> exists k :: 0 <= k < |lines| && HasSignature(lines[k])
  {
    var lines := Split(output, "\n");
    DecodeIsFinalized(output);
    FinalizeErrors(ScanLines(lines, output).value);
    ScanErrors(lines, output);
    AllTagsEmpty(lines);
  }

  // ---------------------------------------------------------------- energies and the task timer

  /** A total energy outside every block appends one energy, in eV, and arms the timer;
      nothing else changes. */
  lemma EnergyArmsTimer(st: ScanState, line: string, output: string)
    requires Idle(st) && EnergyMatch(line).Some?
    requires BlockStep(st, line, output).Ok?
    ensures BlockStep(st, line, output).value
      == st.(energies := st.energies + [Plain(EnergyEv(Float(EnergyMatch(line).value)))], parseTime := true)
  {
  }

  function ClockOf(s: ScanState): Clock {
    Clock(s.time, s.parseTime)
  }

  /** The timer: a time line read while it is armed sets the time and disarms it; a
      total energy read outside every block arms it (again); every other line leaves
      both alone. So each energy lets at most one time line through. */
  lemma StepTimer(st: ScanState, line: string, output: string)
    requires Step(st, line, output).Ok?
    ensures ClockOf(Step(st, line, output).value) ==
      if Idle(st) && EnergyMatch(line).Some? then Tick(ClockOf(st), line).(armed := true)
      else Tick(ClockOf(st), line)
  {
    var clock := Tick(ClockOf(st), line);
    var st2 := st.(errors := st.errors + ErrorTags(line), time := clock.time, parseTime := clock.armed);
    var st3 := st2.(geometry := GeometryBlock(st.geometry, line).value);
    if Idle(st3) && EnergyMatch(line).Some? {
      EnergyArmsTimer(st3, line, output);
      return;
    }
    BlockKeeps(st3, line, output);
  }

  /** A total energy outside every block is appended to the energies, in eV. */
  lemma StepEnergy(st: ScanState, line: string, output: string)
    requires Step(st, line, output).Ok?
    requires Idle(st) && EnergyMatch(line).Some?
    ensures Step(st, line, output).value.energies == st.energies + [Plain(EnergyEv(Float(EnergyMatch(line).value)))]
    ensures Step(st, line, output).value.parseTime
  {
    var clock := Tick(ClockOf(st), line);
    var st2 := st.(errors := st.errors + ErrorTags(line), time := clock.time, parseTime := clock.armed);
    EnergyArmsTimer(st2.(geometry := GeometryBlock(st.geometry, line).value), line, output);
  }

  /** The task time stays the integer 0 of its initialisation unless some line is a time line. */
  lemma {:induction false} NotTimedWithoutTimeLine(lines: seq<string>, output: string)
    requires ScanLines(lines, output).Ok?
    requires forall k :: 0 <= k < |lines| ==> TimeMatch(lines[k]).None?
    ensures ScanLines(lines, output).value.time == NotTimed
    decreases |lines|
  {
    if |lines| > 0 {
      var front := lines[..|lines| - 1];
      assert forall k :: 0 <= k < |front| ==> front[k] == lines[k];
      NotTimedWithoutTimeLine(front, output);
      StepTimer(ScanLines(front, output).value, lines[|lines| - 1], output);
    }
  }

  /** Nor is any time read before the first total energy: the timer starts disarmed. */
  lemma {:induction false} NotTimedBeforeEnergy(lines: seq<string>, output: string)
    requires ScanLines(lines, output).Ok?
    requires forall k :: 0 <= k < |lines| ==> EnergyMatch(lines[k]).None?
    ensures ScanLines(lines, output).value.time == NotTimed
    ensures !ScanLines(lines, output).value.parseTime
    decreases |lines|
  {
    if |lines| > 0 {
      var front := lines[..|lines| - 1];
      assert forall k :: 0 <= k < |front| ==> front[k] == lines[k];
      NotTimedBeforeEnergy(front, output);
      StepTimer(ScanLines(front, output).value, lines[|lines| - 1], output);
    }
  }

  // ---------------------------------------------------------------- geometry

  /** What the geometry block has built: the finished geometries and the one being read. */
  function Built(g: Geometry): (seq<Molecule>, seq<Structure>, seq<string>, seq<Vec3>, seq<Vec3>) {
    (g.molecules, g.structures, g.species, g.coords, g.lattice)
  }

  /** The geometry block runs on every line, whatever other block is open, and nothing
      else changes what it builds. */
  lemma StepGeometry(st: ScanState, line: string, output: string)
    requires Step(st, line, output).Ok?
    ensures GeometryBlock(st.geometry, line).Ok?
    ensures Built(Step(st, line, output).value.geometry) == Built(GeometryBlock(st.geometry, line).value)
  {
    var clock := Tick(ClockOf(st), line);
    var st2 := st.(errors := st.errors + ErrorTags(line), time := clock.time, parseTime := clock.armed);
    var st3 := st2.(geometry := GeometryBlock(st.geometry, line).value);
    if Idle(st3) && EnergyMatch(line).Some? {
      EnergyArmsTimer(st3, line, output);
      return;
    }
    BlockKeeps(st3, line, output);
  }
}
