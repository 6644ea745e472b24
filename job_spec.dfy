/** What the job decoder computes, line by line: the state its loop keeps, the effect
    of one line on that state, the scan over all lines of a job and the post-pass.
    The decoder's loop (JobDecoder) is proved to compute exactly this. */
module JobSpec {
  import opened Outcomes
  import opened Text
  import opened Numbers
  import opened Regex
  import opened PostPass

  datatype Vec3 = Vec3(x: Float, y: Float, z: Float)

  /** A pymatgen Molecule, as the decoder builds it: species and Cartesian coordinates. */
  datatype Molecule = Molecule(species: seq<string>, coords: seq<Vec3>)

  /** A pymatgen Structure built from lattice vectors and Cartesian coordinates. */
  datatype Structure = Structure(lattice: seq<Vec3>, species: seq<string>, coords: seq<Vec3>)

  /** A header value: int() of the text when it is an integer literal, else the text. */
  datatype Scalar = IntField(n: int) | TextField(text: string)

  /** An entry of the energy list: an energy in eV, or (for COSMO runs) a dictionary
      of energies under "cosmo scf", "gas phase" and "sol phase". */
  datatype EnergyEntry = Plain(energy: Energy) | Solvated(parts: map<string, EnergyEntry>)

  /** The task time: the integer 0 until a time line is read, then the matched text. */
  datatype TaskTime = NotTimed | CpuSeconds(text: string)

  /** The locals of the geometry block: whether it is open (`parse_geom`), the
      geometries finished so far, and the species, coordinates and lattice vectors
      of the one being read. */
  datatype Geometry = Geometry(
    open: bool,
    molecules: seq<Molecule>,
    structures: seq<Structure>,
    species: seq<string>,
    coords: seq<Vec3>,
    lattice: seq<Vec3>)

  /** The local variables of the decoder's loop (those of the geometry block grouped
      in one record). */
  datatype ScanState = ScanState(
    parseHess: bool,
    parseProjHess: bool,
    hessian: Option<Matrix>,
    projectedHessian: Option<Matrix>,
    parseForce: bool,
    allForces: seq<seq<Float>>,
    forces: seq<Float>,
    fields: map<string, Scalar>,
    energies: seq<EnergyEntry>,
    frequencies: Option<seq<RawMode>>,
    normalFrequencies: Option<seq<RawMode>>,
    corrections: map<string, Correction>,
    geometry: Geometry,
    errors: seq<string>,
    basisSet: map<string, map<string, string>>,
    bsetHeader: seq<string>,
    parseFreq: bool,
    parseBset: bool,
    parseProjectedFreq: bool,
    jobType: string,
    parseTime: bool,
    time: TaskTime)

  const Initial: ScanState :=
    ScanState(false, false, None, None, false, [], [], map[], [], None, None, map[],
              Geometry(false, [], [], [], [], []), [], map[], [], false, false, false, "", false, NotTimed)

  /** The decoded job. */
  datatype JobRecord = JobRecord(
    fields: map<string, Scalar>,
    jobType: string,
    energies: seq<EnergyEntry>,
    corrections: map<string, Correction>,
    molecules: seq<Molecule>,
    structures: seq<Structure>,
    basisSet: map<string, map<string, string>>,
    errors: seq<string>,
    hasError: bool,
    frequencies: Option<seq<Mode>>,
    normalFrequencies: Option<seq<Mode>>,
    hessian: Option<Matrix>,
    projectedHessian: Option<Matrix>,
    forces: seq<seq<Float>>,
    taskTime: TaskTime)

  function OrEmpty<T>(xs: Option<seq<T>>): seq<T> {
    if xs.Some? then xs.value else []
  }

  function Min(a: nat, b: nat): nat {
    if a <= b then a else b
  }

  // ---------------------------------------------------------------- error signatures

  /** Text that marks a failed calculation, and the error recorded for it, in order. */
  const ErrorSignatures: seq<(string, string)> := [
    ("calculations not reaching convergence", "Bad convergence"),
    ("Calculation failed to converge", "Bad convergence"),
    ("geom_binvr: #indep variables incorrect", "autoz error"),
    ("dft optimize failed", "Geometry optimization failed")]

  /** The errors of the signatures in `defs` that occur in `line`, in the order of `defs`. */
  function TagsFor(line: string, defs: seq<(string, string)>): (tags: seq<string>)
    ensures |tags| <= |defs|
    ensures forall t :: t in tags ==> exists k :: 0 <= k < |defs| && defs[k].1 == t && Contains(line, defs[k].0)
    decreases |defs|
  {
    if defs == [] then []
    else
      var last := defs[|defs| - 1];
      TagsFor(line, defs[..|defs| - 1]) + (if Contains(line, last.0) then [last.1] else [])
  }

  function ErrorTags(line: string): seq<string> {
    TagsFor(line, ErrorSignatures)
  }

  /** A signature occurs in the line. */
  predicate HasSignature(line: string) {
    exists k :: 0 <= k < |ErrorSignatures| && Contains(line, ErrorSignatures[k].0)
  }

  // ---------------------------------------------------------------- task time

  /** The task time and whether the timer is armed (`parse_time`). */
  datatype Clock = Clock(time: TaskTime, armed: bool)

  /** The timer on one line: an armed timer takes the time of a time line and disarms. */
  function Tick(clock: Clock, line: string): Clock {
    if clock.armed && TimeMatch(line).Some? then Clock(CpuSeconds(TimeMatch(line).value), false)
    else clock
  }

  // ---------------------------------------------------------------- geometry

  function ParseVec(texts: seq<string>): (r: Result<Vec3>)
    requires |texts| == 3
    ensures r.Ok? <==> IsFloatLiteral(texts[0]) && IsFloatLiteral(texts[1]) && IsFloatLiteral(texts[2])
    ensures r.Ok? ==> r.value == Vec3(Float(texts[0]), Float(texts[1]), Float(texts[2]))
  {
    var x :- ParseFloat(texts[0]);
    var y :- ParseFloat(texts[1]);
    var z :- ParseFloat(texts[2]);
    Ok(Vec3(x, y, z))
  }

  /** The end of a geometry block: a Structure when lattice vectors were read, a
      Molecule otherwise; the accumulators are emptied. */
  function CloseGeometry(g: Geometry): Geometry {
    var g1 :=
      if |g.lattice| > 0 then g.(structures := g.structures + [Structure(g.lattice, g.species, g.coords)])
      else g.(molecules := g.molecules + [Molecule(g.species, g.coords)]);
    g1.(species := [], coords := [], lattice := [], open := false)
  }

  /** A coordinate line, given what the coordinate pattern matched in it (CoordMatch):
      the capitalised element and the position are added. */
  function CoordStep(g: Geometry, m: Option<seq<string>>): Result<Geometry>
    requires m.Some? ==> |m.value| == 4
  {
    match m
    case None => Ok(g)
    case Some(groups) =>
      var v :- ParseVec(groups[1..]);
      Ok(g.(species := g.species + [Capitalize(groups[0])], coords := g.coords + [v]))
  }

  /** A lattice-vector line, given what the lattice pattern matched in it. */
  function LatticeStep(g: Geometry, m: Option<seq<string>>): Result<Geometry>
    requires m.Some? ==> |m.value| == 3
  {
    match m
    case None => Ok(g)
    case Some(groups) =>
      var v :- ParseVec(groups);
      Ok(g.(lattice := g.lattice + [v]))
  }

  /** A line seen by the geometry block, which runs beside the other blocks. */
  function GeometryBlock(g: Geometry, line: string): Result<Geometry> {
    if !g.open then Ok(g)
    else if Strip(line) == "Atomic Mass" then Ok(CloseGeometry(g))
    else
      var g1 :- CoordStep(g, CoordMatch(line));
      LatticeStep(g1, LatticeVectorMatch(line))
  }

  // ---------------------------------------------------------------- gradients

  /** A line of the gradient table, given what the gradient pattern matched in it
      (ForceMatch), as its effect on the forces of the table being read and on the
      finished tables, and whether the table goes on: a line the pattern rejects ends
      a table that has forces. */
  function ForceBlock(forces: seq<Float>, allForces: seq<seq<Float>>, m: Option<seq<string>>)
    : Result<(seq<Float>, seq<seq<Float>>, bool)>
  {
    match m
    case Some(g) =>
      var fs :- ParseFloats(g);
      Ok((forces + fs, allForces, true))
    case None =>
      if |forces| > 0 then Ok(([], allForces + [forces], false))
      else Ok((forces, allForces, true))
  }

  function ForceStep(st: ScanState, line: string): Result<ScanState> {
    var r :- ForceBlock(st.forces, st.allForces, ForceMatch(line));
    Ok(st.(forces := r.0, allForces := r.1, parseForce := st.parseForce && r.2))
  }

  // ---------------------------------------------------------------- normal modes

  /** New modes for a frequency header: each frequency with no displacement yet. */
  function NewModes(freqs: seq<Float>): (r: seq<RawMode>)
    ensures |r| == |freqs| && forall k :: 0 <= k < |freqs| ==> r[k] == RawMode(freqs[k], [])
  {
    seq(|freqs|, k requires 0 <= k < |freqs| => RawMode(freqs[k], []))
  }

  /** `zip(modes[start:], vibs)`, appending each value to the displacements of its mode. */
  function AppendFrom(modes: seq<RawMode>, start: nat, vibs: seq<Float>): (r: seq<RawMode>)
    requires start <= |modes|
    ensures |r| == |modes|
    ensures forall k :: 0 <= k < |modes| ==>
      r[k] == if start <= k < start + |vibs| then modes[k].(flat := modes[k].flat + [vibs[k - start]]) else modes[k]
    decreases |vibs|
  {
    if vibs == [] || start == |modes| then modes
    else AppendFrom(modes[start := modes[start].(flat := modes[start].flat + [vibs[0]])], start + 1, vibs[1..])
  }

  /** Where the slice `modes[-n:]` starts (the whole list when it has fewer than n modes). */
  function ColumnsStart(count: nat, n: nat): (start: nat)
    ensures start <= count
  {
    if n <= count then count - n else 0
  }

  /** One row of a mode block: the k-th value goes to the k-th of the last |vibs| modes. */
  function AppendColumns(modes: seq<RawMode>, vibs: seq<Float>): (r: seq<RawMode>)
    ensures |r| == |modes|
  {
    AppendFrom(modes, ColumnsStart(|modes|, |vibs|), vibs)
  }

  /** One line inside a mode block that fills `modes`: the new list, and whether the
      line ends the block. A blank line ends it unless the last mode has no
      displacement yet (the blank line between header and rows). */
  function ModeLine(modes: Option<seq<RawMode>>, line: string): Result<(Option<seq<RawMode>>, bool)> {
    if |Strip(line)| == 0 then ModeBlank(modes)
    else ModeRow(modes, SplitWs(Strip(line)))
  }

  /** A blank line in a mode block: `modes[-1]` must exist; the block ends when it
      has displacements. */
  function ModeBlank(modes: Option<seq<RawMode>>): Result<(Option<seq<RawMode>>, bool)> {
    if modes.None? then Err(TypeError)
    else if modes.value == [] then Err(IndexError)
    else Ok((modes, modes.value[|modes.value| - 1].flat != []))
  }

  /** A row of a mode block: the values after the row label, one per column. */
  function ModeRow(modes: Option<seq<RawMode>>, tokens: seq<string>): Result<(Option<seq<RawMode>>, bool)> {
    var vibs :- ParseFloats(Drop1(tokens));
    if modes.None? then Err(TypeError)
    else Ok((Some(AppendColumns(modes.value, vibs)), false))
  }

  function NormalModeStep(st: ScanState, line: string): Result<ScanState> {
    var r :- ModeLine(st.normalFrequencies, line);
    Ok(st.(normalFrequencies := r.0, parseFreq := if r.1 then false else st.parseFreq))
  }

  function ProjectedModeStep(st: ScanState, line: string): Result<ScanState> {
    var r :- ModeLine(st.frequencies, line);
    Ok(st.(frequencies := r.0, parseProjectedFreq := if r.1 then false else st.parseProjectedFreq))
  }

  // ---------------------------------------------------------------- basis summary

  /** `dict(zip(keys[..n], values[..n]))`: a key repeated keeps its last value. */
  function ZipPrefix(keys: seq<string>, values: seq<string>, n: nat): map<string, string>
    requires n <= |keys| && n <= |values|
    decreases n
  {
    if n == 0 then map[]
    else ZipPrefix(keys, values, n - 1)[keys[n - 1] := values[n - 1]]
  }

  /** The keys of the zipped dictionary are exactly the first `n` keys. */
  lemma {:induction false} ZipKeys(keys: seq<string>, values: seq<string>, n: nat)
    requires n <= |keys| && n <= |values|
    ensures forall key :: key in ZipPrefix(keys, values, n) <==> exists k :: 0 <= k < n && keys[k] == key
    decreases n
  {
    if n > 0 {
      ZipKeys(keys, values, n - 1);
    }
  }

  /** A key takes the value paired with its last occurrence. */
  lemma {:induction false} ZipLastWins(keys: seq<string>, values: seq<string>, n: nat, k: nat)
    requires k < n <= |keys| && n <= |values|
    requires forall j :: k < j < n ==> keys[j] != keys[k]
    ensures keys[k] in ZipPrefix(keys, values, n) && ZipPrefix(keys, values, n)[keys[k]] == values[k]
    decreases n
  {
    if k < n - 1 {
      ZipLastWins(keys, values, n - 1, k);
    }
  }

  /** `dict(zip(keys, values))`, pairing up to the shorter list. */
  function ZipToMap(keys: seq<string>, values: seq<string>): map<string, string> {
    ZipPrefix(keys, values, Min(|keys|, |values|))
  }

  function LowerAll(words: seq<string>): (r: seq<string>)
    ensures |r| == |words| && forall k :: 0 <= k < |words| ==> r[k] == Lower(words[k])
  {
    seq(|words|, k requires 0 <= k < |words| => Lower(words[k]))
  }

  /** A line of the basis summary, given its tokens, as the new basis table and column
      header, and whether the summary goes on. A blank line ends it; a line is blank
      after strip() exactly when split() finds no token in it (Text.BlankIffNoTokens). */
  function BasisBlock(basisSet: map<string, map<string, string>>, header: seq<string>, tokens: seq<string>)
    : Result<(map<string, map<string, string>>, seq<string>, bool)>
  {
    if tokens == [] then Ok((basisSet, header, false))
    else
      if tokens[0] != "Tag" && !StartsWith(tokens[0], "-") then
        Ok((basisSet[tokens[0] := ZipToMap(Drop1(header), tokens[1..])], header, true))
      else if tokens[0] == "Tag" then
        if |tokens| < 5 then Err(IndexError)
        else Ok((basisSet, LowerAll(tokens[..4] + tokens[5..]), true))
      else Ok((basisSet, header, true))
  }

  function BasisStep(st: ScanState, line: string): Result<ScanState> {
    var r :- BasisBlock(st.basisSet, st.bsetHeader, SplitWs(line));
    Ok(st.(basisSet := r.0, bsetHeader := r.1, parseBset := st.parseBset && r.2))
  }

  // ---------------------------------------------------------------- Hessians

  /** A Python list index into a list of `count` items; a negative index counts from the end. */
  function PyIndex(count: nat, index: int): (r: Option<nat>)
    ensures r.Some? <==> 0 - count <= index < count
    ensures r.Some? ==> r.value < count && (r.value == index || r.value == index + count)
  {
    if 0 <= index < count then Some(index)
    else if 0 - count <= index < 0 then Some(index + count)
    else None
  }

  /** What a line of a Hessian block adds: nothing, or values for a 1-based row. */
  datatype RowUpdate = Skip | Row(index: int, values: seq<Float>)

  /** A data line has a first token int() accepts and a second token with a decimal
      point; its values are read after Fortran exponents D are rewritten as e. */
  function HessianRow(tokens: seq<string>): (r: Result<RowUpdate>)
    ensures r.Ok? && r.value.Row? ==> |tokens| > 1 && r.value.index == IntValue(tokens[0]) && |r.value.values| == |tokens| - 1
    ensures r.Err? ==> |tokens| > 1 && IsIntLiteral(tokens[0]) && !IsFloatString(tokens[1])
  {
    if |tokens| <= 1 || !IsIntLiteral(tokens[0]) || IsFloatString(tokens[1]) then Ok(Skip)
    else
      var vals :- ParseFloats(Fort2PyAll(tokens[1..]));
      Ok(Row(IntValue(tokens[0]), vals))
  }

  /** A new row when the matrix has fewer than `row` rows, else the values extend row
      `row - 1` (with Python's negative indexing). */
  function PutRow(h: Matrix, row: int, vals: seq<Float>): (r: Result<Matrix>)
    ensures r.Ok? ==> |r.value| >= 1
  {
    if |h| < row then Ok(h + [vals])
    else match PyIndex(|h|, row - 1)
      case None => Err(IndexError)
      case Some(k) => Ok(h[k := h[k] + vals])
  }

  /** A line of the Hessian block, as the new Hessian and whether the block ends: a
      dashed rule ends it once a row has been read. */
  function HessianBlock(hessian: Option<Matrix>, line: string): Result<(Option<Matrix>, bool)> {
    if Strip(line) == "" then Ok((hessian, false))
    else if hessian.None? then Err(TypeError)
    else if |hessian.value| > 0 && Contains(line, "----------") then Ok((hessian, true))
    else
      var u :- HessianRow(SplitWs(Strip(line)));
      if u.Skip? then Ok((hessian, false))
      else
        var h :- PutRow(hessian.value, u.index, u.values);
        Ok((Some(h), false))
  }

  function HessianStep(st: ScanState, line: string): Result<ScanState> {
    var r :- HessianBlock(st.hessian, line);
    Ok(st.(hessian := r.0, parseHess := st.parseHess && !r.1))
  }

  /** A row of the projected Hessian put in place, and whether the block ends: it ends
      when the last row is as long as the Hessian (`nat3`) has rows. */
  function ProjectedRowStep(projected: Option<Matrix>, nat3: nat, u: RowUpdate): Result<(Option<Matrix>, bool)> {
    if u.Skip? then Ok((projected, false))
    else if projected.None? then Err(TypeError)
    else
      var p :- PutRow(projected.value, u.index, u.values);
      Ok((Some(p), |p[|p| - 1]| == nat3))
  }

  /** A line of the projected Hessian block; `hessian` is the Hessian read before it. */
  function ProjectedHessianBlock(hessian: Option<Matrix>, projected: Option<Matrix>, line: string): Result<(Option<Matrix>, bool)> {
    if Strip(line) == "" then Ok((projected, false))
    else if hessian.None? then Err(TypeError)
    else
      var u :- HessianRow(SplitWs(Strip(line)));
      ProjectedRowStep(projected, |hessian.value|, u)
  }

  function ProjectedHessianStep(st: ScanState, line: string): Result<ScanState> {
    var r :- ProjectedHessianBlock(st.hessian, st.projectedHessian, line);
    Ok(st.(projectedHessian := r.0, parseProjHess := st.parseProjHess && !r.1))
  }

  // ---------------------------------------------------------------- lines outside a block

  /** The key of a header field: "No. of " becomes "n", blanks become "_", lower case. */
  function FieldKey(name: string): string {
    Lower(Replace(Replace(name, "No. of ", "n"), " ", "_"))
  }

  function ScalarOf(text: string): (v: Scalar)
    ensures v.IntField? <==> IsIntLiteral(text)
    ensures v.IntField? ==> v.n == IntValue(text)
    ensures v.TextField? ==> v.text == text
  {
    if IsIntLiteral(text) then IntField(IntValue(text)) else TextField(text)
  }

  /** The job type is the first line that starts with "NWChem"; a DFT module whose output
      reports COSMO solvation results is a "NWChem DFT Module COSMO" job. */
  function JobLabel(line: string, output: string): string {
    var title := Strip(line);
    if title == "NWChem DFT Module" && Contains(output, "COSMO solvation results") then title + " COSMO" else title
  }

  /** A gas-phase energy turns the last energy into a dictionary holding it as "cosmo scf". */
  function GasPhaseEnergies(energies: seq<EnergyEntry>, m: Option<string>): Result<seq<EnergyEntry>> {
    match m
    case None => Ok(energies)
    case Some(text) =>
      if energies == [] then Err(IndexError)
      else
        var e :- ParseFloat(text);
        var n := |energies|;
        Ok(energies[n - 1 := Solvated(map["cosmo scf" := energies[n - 1], "gas phase" := Plain(EnergyEv(e))])])
  }

  /** A sol-phase energy is merged into the dictionary the last energy must be. */
  function SolPhaseEnergies(energies: seq<EnergyEntry>, m: Option<string>): Result<seq<EnergyEntry>> {
    match m
    case None => Ok(energies)
    case Some(text) =>
      if energies == [] then Err(IndexError)
      else
        var e :- ParseFloat(text);
        var n := |energies|;
        match energies[n - 1]
        case Plain(_) => Err(TypeError)
        case Solvated(parts) => Ok(energies[n - 1 := Solvated(parts["sol phase" := Plain(EnergyEv(e))])])
  }

  /** What the chain of markers found in a line outside every block. */
  datatype Marker =
    | SetField(key: string, scalar: Scalar)
    | OpenGeometry
    | OpenBasis
    | ProjectedModes(freqs: seq<Float>)
    | NormalModes(freqs: seq<Float>)
    | OpenHessian
    | OpenProjectedHessian
    | OpenGradient
    | SetJobType(title: string)
    | SetCorrection(name: string, correction: Correction)
    | NoMarker

  /** The chain of markers tried on a line outside every block, first match wins. */
  function HeaderMarker(line: string, jobType: string, output: string): Result<Marker> {
    match ScalarFieldMatch(line)
    case Some(fv) => Ok(SetField(FieldKey(fv.0), ScalarOf(fv.1)))
    case None =>
      if Contains(line, "Geometry \"geometry\"") then Ok(OpenGeometry)
      else if Contains(line, "Summary of \"ao basis\"") then Ok(OpenBasis)
      else if Contains(line, "P.Frequency") then ProjectedModesMarker(line)
      else if Contains(line, "Frequency") then NormalModesMarker(line)
      else if Contains(line, "MASS-WEIGHTED NUCLEAR HESSIAN") then Ok(OpenHessian)
      else if Contains(line, "MASS-WEIGHTED PROJECTED HESSIAN") then Ok(OpenProjectedHessian)
      else if Contains(line, GradientHeader) then Ok(OpenGradient)
      else if jobType == "" && StartsWith(Strip(line), "NWChem") then Ok(SetJobType(JobLabel(line, output)))
      else CorrectionMarker(line)
  }

  /** A "P.Frequency" header: the frequencies after its first word. */
  function ProjectedModesMarker(line: string): (r: Result<Marker>)
    ensures r.Ok? ==> r.value.ProjectedModes?
  {
    var freqs :- ParseFloats(Drop1(SplitWs(Strip(line))));
    Ok(ProjectedModes(freqs))
  }

  /** A line mentioning "Frequency" opens normal modes only when its first word is
      "Frequency" and more words follow. */
  function NormalModesMarker(line: string): (r: Result<Marker>)
    ensures r.Ok? ==> r.value.NormalModes? || r.value.NoMarker?
  {
    var tokens := SplitWs(Strip(line));
    if |tokens| > 1 && tokens[0] == "Frequency" then
      var freqs :- ParseFloats(tokens[1..]);
      Ok(NormalModes(freqs))
    else Ok(NoMarker)
  }

  /** The last test of the chain: a correction, in eV per atom. */
  function CorrectionMarker(line: string): (r: Result<Marker>)
    ensures r.Ok? ==> r.value.SetCorrection? || r.value.NoMarker?
  {
    match CorrectionMatch(line)
    case None => Ok(NoMarker)
    case Some(cv) =>
      var v :- ParseFloat(cv.1);
      Ok(SetCorrection(cv.0, CorrectionEv(v)))
  }

  /** What a marker does to the locals: a header field or correction is recorded, a
      block is opened (its list created if it had none), or the job type is set. */
  function ApplyMarker(st: ScanState, m: Marker): ScanState {
    match m
    case SetField(key, value) => st.(fields := st.fields[key := value])
    case OpenGeometry => st.(geometry := st.geometry.(open := true))
    case OpenBasis => st.(parseBset := true)
    case ProjectedModes(freqs) => st.(parseProjectedFreq := true, frequencies := Some(OrEmpty(st.frequencies) + NewModes(freqs)))
    case NormalModes(freqs) => st.(parseFreq := true, normalFrequencies := Some(OrEmpty(st.normalFrequencies) + NewModes(freqs)))
    case OpenHessian => st.(parseHess := true, hessian := Some(OrEmpty(st.hessian)))
    case OpenProjectedHessian => st.(parseProjHess := true, projectedHessian := Some(OrEmpty(st.projectedHessian)))
    case OpenGradient => st.(parseForce := true)
    case SetJobType(title) => st.(jobType := title)
    case SetCorrection(name, value) => st.(corrections := st.corrections[name := value])
    case NoMarker => st
  }

  /** The column header of the gradient table. */
  const GradientHeader: string := "atom               coordinates                        gradient"

  /** A line outside every block: a total energy (which arms the task timer and ends
      the line), else the COSMO phase energies, then the marker chain. */
  function IdleStep(st: ScanState, line: string, output: string): Result<ScanState> {
    match EnergyMatch(line)
    case Some(text) =>
      var e :- ParseFloat(text);
      Ok(st.(energies := st.energies + [Plain(EnergyEv(e))], parseTime := true))
    case None =>
      var gas :- GasPhaseEnergies(st.energies, GasPhaseMatch(line));
      var sol :- SolPhaseEnergies(gas, SolPhaseMatch(line));
      var m :- HeaderMarker(line, st.jobType, output);
      Ok(ApplyMarker(st.(energies := sol), m))
  }

  /** The block a line goes to: the first flag set, in the decoder's order. */
  function BlockStep(st: ScanState, line: string, output: string): Result<ScanState> {
    if st.parseForce then ForceStep(st, line)
    else if st.parseFreq then NormalModeStep(st, line)
    else if st.parseProjectedFreq then ProjectedModeStep(st, line)
    else if st.parseBset then BasisStep(st, line)
    else if st.parseHess then HessianStep(st, line)
    else if st.parseProjHess then ProjectedHessianStep(st, line)
    else IdleStep(st, line, output)
  }

  /** One line: error signatures, the task time, the geometry block (which runs beside
      the others), then the block the line belongs to. */
  function Step(st: ScanState, line: string, output: string): Result<ScanState> {
    var clock := Tick(Clock(st.time, st.parseTime), line);
    var st2 := st.(errors := st.errors + ErrorTags(line), time := clock.time, parseTime := clock.armed);
    var g :- GeometryBlock(st2.geometry, line);
    var st3 := st2.(geometry := g);
    BlockStep(st3, line, output)
  }

  /** The state after the given lines, or the exception that stopped the loop. */
  function ScanLines(lines: seq<string>, output: string): Result<ScanState> {
    Scan(LineStep(output), Initial, lines)
  }

  /** Step, for the lines of the job `output`. */
  function LineStep(output: string): (ScanState, string) -> Result<ScanState> {
    (st, line) => Step(st, line, output)
  }

  // ---------------------------------------------------------------- post-pass

  function ReshapedAll(modes: Option<seq<RawMode>>): Option<seq<Mode>> {
    match modes
    case None => None
    case Some(ms) => Some(seq(|ms|, k requires 0 <= k < |ms| => Reshaped(ms[k])))
  }

  function CompletedOpt(h: Option<Matrix>): Result<Option<Matrix>> {
    match h
    case None => Ok(None)
    case Some(m) => if Completable(m) then Ok(Some(Completed(m))) else Err(IndexError)
  }

  function Finalize(st: ScanState): Result<JobRecord> {
    var h :- CompletedOpt(st.hessian);
    var p :- CompletedOpt(st.projectedHessian);
    Ok(JobRecord(st.fields, st.jobType, st.energies, st.corrections, st.geometry.molecules, st.geometry.structures,
                 st.basisSet, st.errors, |st.errors| > 0, ReshapedAll(st.frequencies),
                 ReshapedAll(st.normalFrequencies), h, p, st.allForces, st.time))
  }

  /** The decoded job of one chunk of output. */
  function DecodeJob(output: string): Result<JobRecord> {
    var st :- ScanLines(Split(output, "\n"), output);
    Finalize(st)
  }
}
