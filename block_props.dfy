/** What each block of the job decoder does with one line, proved about its
    specification: the geometry block, the normal-mode tables, the Hessian rows, the
    COSMO energies, the basis summary and the post-pass. */
module BlockProps {
  import opened Outcomes
  import opened Text
  import opened Numbers
  import opened Regex
  import opened PostPass
  import opened JobSpec

  // ---------------------------------------------------------------- geometry

  /** "Atomic Mass" ends an open geometry block: exactly one geometry is finished (a
      Structure when lattice vectors were read, else a Molecule, holding what was
      read), the accumulators are emptied and the block is closed. */
  lemma AtomicMassFinishesOne(g: Geometry, line: string)
    requires g.open && Strip(line) == "Atomic Mass"
    ensures GeometryBlock(g, line).Ok?
    ensures var r := GeometryBlock(g, line).value;
      !r.open && r.species == [] && r.coords == [] && r.lattice == [] &&
      |r.molecules| + |r.structures| == |g.molecules| + |g.structures| + 1 &&
      if |g.lattice| > 0 then
        r.structures == g.structures + [Structure(g.lattice, g.species, g.coords)] && r.molecules == g.molecules
      else
        r.molecules == g.molecules + [Molecule(g.species, g.coords)] && r.structures == g.structures
  {
  }

  /** Inside the block, a coordinate line adds its capitalised element and its
      position, and nothing else. */
  lemma CoordinateLineAppends(g: Geometry, groups: seq<string>)
    requires |groups| == 4
    requires CoordStep(g, Some(groups)).Ok?
    ensures CoordStep(g, Some(groups)).value ==
      g.(species := g.species + [Capitalize(groups[0])],
         coords := g.coords + [Vec3(Float(groups[1]), Float(groups[2]), Float(groups[3]))])
  {
    var numbers := groups[1..];
    assert numbers[0] == groups[1] && numbers[1] == groups[2] && numbers[2] == groups[3];
  }

  /** A lattice-vector line adds one lattice row, and nothing else. */
  lemma LatticeLineAppends(g: Geometry, groups: seq<string>)
    requires |groups| == 3
    requires LatticeStep(g, Some(groups)).Ok?
    ensures LatticeStep(g, Some(groups)).value ==
      g.(lattice := g.lattice + [Vec3(Float(groups[0]), Float(groups[1]), Float(groups[2]))])
  {
  }

  /** The geometry block raises exactly when float() rejects a number the coordinate
      or the lattice pattern matched. */
  lemma GeometryRaises(g: Geometry, line: string)
    ensures GeometryBlock(g, line).Err? <==>
      g.open && Strip(line) != "Atomic Mass" &&
      ((CoordMatch(line).Some? && !AllFloats(CoordMatch(line).value[1..])) ||
       (LatticeVectorMatch(line).Some? && !AllFloats(LatticeVectorMatch(line).value)))
  {
    if g.open && Strip(line) != "Atomic Mass" {
      var cm := CoordMatch(line);
      var lm := LatticeVectorMatch(line);
      if cm.Some? {
        AllFloatsThree(cm.value[1..]);
      }
      if lm.Some? {
        AllFloatsThree(lm.value);
      }
      var c := CoordStep(g, cm);
      if c.Ok? {
        assert GeometryBlock(g, line) == LatticeStep(c.value, lm);
      }
    }
  }

  lemma AllFloatsThree(texts: seq<string>)
    requires |texts| == 3
    ensures AllFloats(texts) <==> IsFloatLiteral(texts[0]) && IsFloatLiteral(texts[1]) && IsFloatLiteral(texts[2])
  {
  }

  predicate AllFloats(texts: seq<string>) {
    forall k :: 0 <= k < |texts| ==> IsFloatLiteral(texts[k])
  }

  // ---------------------------------------------------------------- normal modes

  /** A row of a mode table gives its k-th value to the k-th of the last |vibs| modes
      and leaves the modes before them alone; a row longer than the list fills every
      mode from its first value on. */
  lemma ColumnsFillLastModes(modes: seq<RawMode>, vibs: seq<Float>)
    ensures var r := AppendColumns(modes, vibs);
      |vibs| <= |modes| ==> forall k :: 0 <= k < |modes| ==>
        r[k] == if k < |modes| - |vibs| then modes[k]
                else modes[k].(flat := modes[k].flat + [vibs[k - (|modes| - |vibs|)]])
    ensures var r := AppendColumns(modes, vibs);
      |vibs| > |modes| ==> forall k :: 0 <= k < |modes| ==> r[k] == modes[k].(flat := modes[k].flat + [vibs[k]])
  {
  }

  /** The blank line after a frequency header does not end the table: the modes the
      header added have no displacement yet. */
  lemma BlankAfterHeaderKeepsOpen(modes: Option<seq<RawMode>>, freqs: seq<Float>)
    requires |freqs| > 0
    ensures var ms := Some(OrEmpty(modes) + NewModes(freqs));
      ModeBlank(ms) == Ok((ms, false))
  {
    var ms := OrEmpty(modes) + NewModes(freqs);
    assert ms[|ms| - 1] == RawMode(freqs[|freqs| - 1], []);
  }

  /** Once a non-empty row has been read into the modes, a blank line ends the table. */
  lemma BlankAfterRowEnds(modes: seq<RawMode>, vibs: seq<Float>)
    requires |modes| > 0 && |vibs| > 0
    ensures var ms := Some(AppendColumns(modes, vibs));
      ModeBlank(ms) == Ok((ms, true))
  {
    var r := AppendColumns(modes, vibs);
    var last := |modes| - 1;
    var start := ColumnsStart(|modes|, |vibs|);
    assert start <= last < start + |vibs|;
    assert r[last].flat == modes[last].flat + [vibs[last - start]];
  }

  /** A blank line in a table whose list is empty raises IndexError (`modes[-1]`). */
  lemma BlankWithoutModesRaises()
    ensures ModeBlank(Some([])) == Err(IndexError)
  {
  }

  // ---------------------------------------------------------------- Hessian rows

  /** A line of a Hessian block is a row exactly when it has two tokens, int() accepts
      the first and the second has a decimal point (the decoder's isfloatstring,
      which holds for a token WITHOUT one, skips the others). */
  lemma HessianRowSkips(tokens: seq<string>)
    ensures HessianRow(tokens) == Ok(Skip) <==>
      |tokens| <= 1 || !IsIntLiteral(tokens[0]) || !Contains(tokens[1], ".")
  {
  }

  /** A row carries int() of its first token and the other tokens read as floats
      after a Fortran exponent D is rewritten as e. */
  lemma HessianRowValues(tokens: seq<string>)
    requires |tokens| > 1 && IsIntLiteral(tokens[0]) && Contains(tokens[1], ".")
    requires HessianRow(tokens).Ok?
    ensures var u := HessianRow(tokens).value;
      u.Row? && u.index == IntValue(tokens[0]) && |u.values| == |tokens| - 1 &&
      forall k :: 0 <= k < |u.values| ==> u.values[k] == Float(Replace(tokens[k + 1], "D", "e"))
  {
  }

  /** A row whose 1-based index lies beyond the rows read so far is appended, whatever
      the index: rows are not placed by their number. */
  lemma RowBeyondAppends(h: Matrix, row: int, vals: seq<Float>)
    requires row > |h|
    ensures PutRow(h, row, vals) == Ok(h + [vals])
  {
  }

  /** A row index already read continues that row (a later column block of the
      printout); an index at or below zero counts from the end, as Python's negative
      indices do, and raises IndexError past the first row. */
  lemma RowWithinExtends(h: Matrix, row: int, vals: seq<Float>)
    requires row <= |h|
    ensures PutRow(h, row, vals).Err? <==> row <= 0 - |h|
    ensures 1 <= row ==> PutRow(h, row, vals) == Ok(h[row - 1 := h[row - 1] + vals])
    ensures 0 - |h| < row <= 0 ==> PutRow(h, row, vals) == Ok(h[row - 1 + |h| := h[row - 1 + |h|] + vals])
  {
  }

  /** The rows of a lower triangle, printed in order in one column block, build that
      triangle. */
  lemma {:induction false} TriangleRowsInOrder(t: Matrix, n: nat)
    requires n <= |t|
    ensures PutRows(t, n) == Ok(t[..n])
    decreases n
  {
    if n > 0 {
      TriangleRowsInOrder(t, n - 1);
      assert t[..n] == t[..n - 1] + [t[n - 1]];
    }
  }

  /** The first n rows of `t` put one after the other, row k + 1 holding `t[k]`. */
  function PutRows(t: Matrix, n: nat): Result<Matrix>
    requires n <= |t|
    decreases n
  {
    if n == 0 then Ok([])
    else
      var h :- PutRows(t, n - 1);
      PutRow(h, n, t[n - 1])
  }

  /** The projected Hessian ends with the row that makes its last row as long as the
      Hessian has rows, and only then. */
  lemma ProjectedEndsOnFullRow(p: Matrix, nat3: nat, row: int, vals: seq<Float>)
    requires PutRow(p, row, vals).Ok?
    ensures var q := PutRow(p, row, vals).value;
      ProjectedRowStep(Some(p), nat3, Row(row, vals)) == Ok((Some(q), |q[|q| - 1]| == nat3))
  {
  }

  /** The Hessian block ends exactly on a non-blank line holding a dash rule once the
      Hessian has a row, and then the Hessian is left as it is; a rule before the
      first row does not end it. */
  lemma HessianRuleEnds(hessian: Option<Matrix>, line: string)
    requires HessianBlock(hessian, line).Ok?
    ensures var r := HessianBlock(hessian, line).value;
      r.1 <==> Strip(line) != "" && hessian.Some? && |hessian.value| > 0 && Contains(line, "----------")
    ensures var r := HessianBlock(hessian, line).value;
      r.1 ==> r.0 == hessian
  {
    if Strip(line) != "" && hessian.Some? && !(|hessian.value| > 0 && Contains(line, "----------")) {
      var u := HessianRow(SplitWs(Strip(line))).value;
      if !u.Skip? {
        var h := PutRow(hessian.value, u.index, u.values).value;
        assert HessianBlock(hessian, line) == Ok((Some(h), false));
      }
    }
  }

  /** In the decoder's state: the rule clears the Hessian flag and changes nothing else. */
  lemma HessianStepRuleEnds(st: ScanState, line: string)
    requires st.hessian.Some? && |st.hessian.value| > 0
    requires Strip(line) != "" && Contains(line, "----------")
    ensures HessianStep(st, line) == Ok(st.(parseHess := false))
  {
  }

  // ---------------------------------------------------------------- post-pass

  /** The post-pass raises IndexError exactly when a Hessian cannot be completed. */
  lemma FinalizeRaises(st: ScanState)
    ensures Finalize(st).Err? <==>
      (st.hessian.Some? && !Completable(st.hessian.value)) ||
      (st.projectedHessian.Some? && !Completable(st.projectedHessian.value))
    ensures Finalize(st).Err? ==> Finalize(st).error == IndexError
  {
  }

  /** A Hessian read as a lower triangle comes out of the post-pass square and
      symmetric, agreeing with the triangle on and below the diagonal. */
  lemma FinalizeHessianSymmetric(st: ScanState)
    requires Finalize(st).Ok?
    requires st.hessian.Some? && LowerTriangle(st.hessian.value)
    ensures var h := st.hessian.value;
      var r := Finalize(st).value.hessian;
      r.Some? && |r.value| == |h| && Symmetric(r.value) &&
      forall i :: 0 <= i < |h| ==> r.value[i][..i + 1] == h[i]
  {
    CompletedLowerTriangle(st.hessian.value);
  }

  /** The same for the projected Hessian. */
  lemma FinalizeProjectedHessianSymmetric(st: ScanState)
    requires Finalize(st).Ok?
    requires st.projectedHessian.Some? && LowerTriangle(st.projectedHessian.value)
    ensures var h := st.projectedHessian.value;
      var r := Finalize(st).value.projectedHessian;
      r.Some? && |r.value| == |h| && Symmetric(r.value) &&
      forall i :: 0 <= i < |h| ==> r.value[i][..i + 1] == h[i]
  {
    CompletedLowerTriangle(st.projectedHessian.value);
  }

  // ---------------------------------------------------------------- COSMO energies

  /** A gas-phase energy turns the last energy into a dictionary holding it under
      "cosmo scf" and the gas-phase energy. */
  lemma GasPhaseWraps(energies: seq<EnergyEntry>, gas: string)
    requires |energies| > 0 && IsFloatLiteral(gas)
    ensures var n := |energies|;
      GasPhaseEnergies(energies, Some(gas)) ==
        Ok(energies[n - 1 := Solvated(map["cosmo scf" := energies[n - 1], "gas phase" := Plain(EnergyEv(Float(gas)))])])
  {
  }

  /** A sol-phase energy is added to the dictionary the last energy is. */
  lemma SolPhaseMerges(energies: seq<EnergyEntry>, sol: string)
    requires |energies| > 0 && energies[|energies| - 1].Solvated? && IsFloatLiteral(sol)
    ensures var n := |energies|;
      SolPhaseEnergies(energies, Some(sol)) ==
        Ok(energies[n - 1 := Solvated(energies[n - 1].parts["sol phase" := Plain(EnergyEv(Float(sol)))])])
  {
  }

  /** A gas-phase energy and a later sol-phase energy turn the last energy into one
      dictionary holding it under "cosmo scf" with both phase energies. */
  lemma GasThenSolPhase(energies: seq<EnergyEntry>, gas: string, sol: string)
    requires |energies| > 0 && IsFloatLiteral(gas) && IsFloatLiteral(sol)
    ensures GasPhaseEnergies(energies, Some(gas)).Ok?
    ensures var n := |energies|;
      SolPhaseEnergies(GasPhaseEnergies(energies, Some(gas)).value, Some(sol)) ==
        Ok(energies[n - 1 := Solvated(map["cosmo scf" := energies[n - 1],
                                          "gas phase" := Plain(EnergyEv(Float(gas))),
                                          "sol phase" := Plain(EnergyEv(Float(sol)))])])
  {
    var n := |energies|;
    GasPhaseWraps(energies, gas);
    var after := GasPhaseEnergies(energies, Some(gas)).value;
    SolPhaseMerges(after, sol);
    assert after[n - 1 := after[n - 1]] == after;
    assert after[n - 1 := Solvated(after[n - 1].parts["sol phase" := Plain(EnergyEv(Float(sol)))])]
      == energies[n - 1 := Solvated(after[n - 1].parts["sol phase" := Plain(EnergyEv(Float(sol)))])];
  }

  /** A sol-phase energy with no gas-phase energy before it finds a plain energy where
      it expects a dictionary: TypeError. */
  lemma SolPhaseOnPlainRaises(energies: seq<EnergyEntry>, sol: string)
    requires |energies| > 0 && energies[|energies| - 1].Plain? && IsFloatLiteral(sol)
    ensures SolPhaseEnergies(energies, Some(sol)) == Err(TypeError)
  {
  }

  /** A phase energy with no energy before it raises IndexError, before its number is read. */
  lemma PhaseWithoutEnergyRaises(text: string)
    ensures GasPhaseEnergies([], Some(text)) == Err(IndexError)
    ensures SolPhaseEnergies([], Some(text)) == Err(IndexError)
  {
  }

  // ---------------------------------------------------------------- gradients

  /** A gradient line adds its last three numbers (the gradient, not the position) and
      keeps the table open. */
  lemma GradientRow(forces: seq<Float>, allForces: seq<seq<Float>>, g: seq<string>)
    requires |g| == 3
    requires ForceBlock(forces, allForces, Some(g)).Ok?
    ensures ForceBlock(forces, allForces, Some(g)).value == (forces + [Float(g[0]), Float(g[1]), Float(g[2])], allForces, true)
  {
    ParseThree(g);
  }

  /** A line that is not a gradient line ends a table that has values, which is then
      recorded; before the first row the table stays open. */
  lemma GradientTableEnds(forces: seq<Float>, allForces: seq<seq<Float>>)
    ensures ForceBlock(forces, allForces, None) ==
      if |forces| > 0 then Ok(([], allForces + [forces], false)) else Ok((forces, allForces, true))
  {
  }

  // ---------------------------------------------------------------- basis summary

  /** Column `k` of the header is the last one with its name among the columns a row
      of `width` tokens fills. */
  predicate LastColumn(header: seq<string>, width: nat, k: nat)
    requires k < |header|
  {
    forall j :: k < j < |header| && j < width ==> header[j] != header[k]
  }

  /** A blank line ends the basis summary and changes nothing else; any other line
      that does not raise keeps the summary open. */
  lemma BasisBlankEnds(st: ScanState, line: string)
    ensures Strip(line) == "" ==> BasisStep(st, line) == Ok(st.(parseBset := false))
    ensures Strip(line) != "" && BasisStep(st, line).Ok? ==> BasisStep(st, line).value.parseBset == st.parseBset
  {
    BlankIffNoTokens(line);
  }

  /** A "Tag" line becomes the column header: its tokens lower-cased, the fifth dropped. */
  lemma BasisHeaderDropsFifth(basisSet: map<string, map<string, string>>, header: seq<string>, tokens: seq<string>)
    requires |tokens| >= 5 && tokens[0] == "Tag"
    ensures var r := BasisBlock(basisSet, header, tokens);
      r.Ok? && r.value.0 == basisSet && r.value.2 &&
      |r.value.1| == |tokens| - 1 &&
      (forall k :: 0 <= k < 4 ==> r.value.1[k] == Lower(tokens[k])) &&
      (forall k :: 4 <= k < |tokens| - 1 ==> r.value.1[k] == Lower(tokens[k + 1]))
  {
    var kept := tokens[..4] + tokens[5..];
    assert forall k :: 4 <= k < |tokens| - 1 ==> kept[k] == tokens[k + 1];
  }

  /** A row of the summary maps its first token to its other tokens, each under the
      header column at the same position, as far as both go (the header's first
      column names the element and is not a key); a column named twice keeps the
      later value. The header and the other elements' rows stay as they were. */
  lemma BasisRowKeys(basisSet: map<string, map<string, string>>, header: seq<string>, tokens: seq<string>)
    requires tokens != [] && tokens[0] != "Tag" && !StartsWith(tokens[0], "-")
    ensures var r := BasisBlock(basisSet, header, tokens);
      r.Ok? && r.value.2 && tokens[0] in r.value.0 &&
      forall key :: key in r.value.0[tokens[0]] <==> exists k :: 1 <= k < |header| && k < |tokens| && header[k] == key
    ensures var r := BasisBlock(basisSet, header, tokens).value;
      forall k :: 1 <= k < |header| && k < |tokens| && LastColumn(header, |tokens|, k) ==>
        header[k] in r.0[tokens[0]] && r.0[tokens[0]][header[k]] == tokens[k]
    ensures var r := BasisBlock(basisSet, header, tokens).value;
      && r.1 == header
      && forall e :: e in basisSet && e != tokens[0] ==> e in r.0 && r.0[e] == basisSet[e]
  {
    var row := BasisBlock(basisSet, header, tokens).value.0[tokens[0]];
    assert row == ZipToMap(Drop1(header), tokens[1..]);
    RowKeys(header, tokens);
    RowValues(header, tokens);
  }

  /** The keys of a row zipped under the header after its first column. */
  lemma RowKeys(header: seq<string>, tokens: seq<string>)
    requires tokens != []
    ensures forall key :: key in ZipToMap(Drop1(header), tokens[1..]) <==>
      exists k :: 1 <= k < |header| && k < |tokens| && header[k] == key
  {
    var row := ZipToMap(Drop1(header), tokens[1..]);
    var cols := Drop1(header);
    var vals := tokens[1..];
    ZipKeys(cols, vals, Min(|cols|, |vals|));
    forall key
      ensures key in row <==> exists k :: 1 <= k < |header| && k < |tokens| && header[k] == key
    {
      if key in row {
        var k :| 0 <= k < Min(|cols|, |vals|) && cols[k] == key;
        assert header[k + 1] == key;
      }
      if exists k :: 1 <= k < |header| && k < |tokens| && header[k] == key {
        var k :| 1 <= k < |header| && k < |tokens| && header[k] == key;
        assert cols[k - 1] == key;
      }
    }
  }

  /** The value under each column of a zipped row is the row's token in that column,
      for the last column of each name. */
  lemma RowValues(header: seq<string>, tokens: seq<string>)
    requires tokens != []
    ensures var row := ZipToMap(Drop1(header), tokens[1..]);
      forall k :: 1 <= k < |header| && k < |tokens| && LastColumn(header, |tokens|, k) ==>
        header[k] in row && row[header[k]] == tokens[k]
  {
    var cols := Drop1(header);
    var vals := tokens[1..];
    var n := Min(|cols|, |vals|);
    forall k | 1 <= k < |header| && k < |tokens| && LastColumn(header, |tokens|, k)
      ensures header[k] in ZipPrefix(cols, vals, n) && ZipPrefix(cols, vals, n)[header[k]] == tokens[k]
    {
      assert cols[k - 1] == header[k] && vals[k - 1] == tokens[k];
      forall j | k - 1 < j < n
        ensures cols[j] != cols[k - 1]
      {
        assert cols[j] == header[j + 1];
      }
      ZipLastWins(cols, vals, n, k - 1);
    }
  }
}
