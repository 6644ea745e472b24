# NWChem output-log decoder, modelled in Dafny

This project models `NwOutput`, the decoder pymatgen uses for the textual log that
the NWChem quantum-chemistry program writes, and proves properties of the model.

The decoder does four things:

- **Job splitting** (the constructor). The log is cut on every `NWChem Input Module` marker. A last chunk that
  mentions `CITATION` is popped. The first chunk is the preamble and the rest are
  the jobs.
- **Preamble** (`_parse_preamble`). Every preamble line holding `=` defines a key,
  the stripped text before its first `=`, with the value after its last `=`.
- **Job decoding** (`_parse_job`). One pass over the lines of a job. Each line:
  - is checked for error signatures;
  - may set the task time once a total energy has armed the timer;
  - feeds the geometry block, which runs beside every other block;
  - goes to the one block that is open: gradients, normal modes, projected modes,
    the basis summary, the mass-weighted Hessian or the projected Hessian.

  Outside every block, a line is tried against the total, gas-phase and sol-phase
  energies and then against a chain of markers. Those markers set header fields,
  open blocks, set the job type or record corrections. A post-pass regroups mode
  displacements into triples and completes each Hessian from its lower triangle.
- **TDDFT roots** (`parse_tddft`). A separate pass over the whole log collects
  excitation roots and their oscillator strengths, grouped by singlet and triplet.

Python exceptions that abort a decode are part of the model. Each becomes
`Err(ValueError(literal))`, `Err(IndexError)` or `Err(TypeError)` of a `Result`:
- `float()` on a token that is not a literal;
- an index past the end of a list;
- subscripting `None` (a mode table or Hessian that was never opened);
- merging a float into a dictionary.

A parsed number is represented by the literal it was read from: `Float(literal)`.
`Numbers.IsFloatLiteral` states exactly which literals Python's `float()` accepts.

Modules:

- `Outcomes`: Option, Result, the exceptions, and the generic line scan.
- `Text`: `str.split`, `find`, `strip`, `lower` and `capitalize`.
- `Numbers`: the `float()` and `int()` grammars, plus `fort2py` and `isfloatstring`.
- `Regex`: the decoder's regular expressions.
- `PostPass`: reshaping the modes and completing the Hessians.
- `JobSpec`: the per-line specification of `_parse_job`.
- `JobDecoder`: the loop and its blocks as methods, each proved to compute its
  `JobSpec` function.
- `JobProps`, `BlockProps` and `MarkerProps`: lemmas about the job decoder.
- `Tddft`: `parse_tddft`.
- `OutputLog`: splitting, the preamble and the document.

The decoder's locals are threaded through the loop as one `ScanState` value. The
geometry block's locals are grouped in a nested `Geometry` record. Each block of the
loop body is a method that returns the updated value.

## Behaviour as coded

Some behaviours of the code differ from how the decoder is usually described. The
model follows the code:

- A log with no job marker is all preamble: its whole text, with no jobs. If such a
  log mentions `CITATION`, its only chunk is popped and popping the preamble raises
  `IndexError` (`OutputLog.SplitLogRaises`).
- `re.split` drops the marker itself, so a job chunk starts just after its marker.
- The task time is the text of the CPU-seconds group, as matched, and not a number.
  It stays `0`, modelled as `NotTimed`, when no time line follows an energy.
- `isfloatstring` holds for a token with NO decimal point. A Hessian row whose
  second token has none is skipped (`BlockProps.HessianRowSkips`).
- A row index inside the current Hessian is Python list indexing. So row 0, or a
  negative row, extends a row counted from the end. A row beyond the end of the
  Hessian is appended, whatever its number (`BlockProps.RowWithinExtends`,
  `BlockProps.RowBeyondAppends`).

## Model

| member | source | states |
|---|---|---|
| OutputLog.SplitLogRaises | src/pymatgen/io/nwchem.py:560-563 | Splitting fails exactly when the log has no job marker but mentions CITATION, and the failure is IndexError. |
| OutputLog.NoMarkerAllPreamble | src/pymatgen/io/nwchem.py:560-563 | A log with neither the marker nor CITATION is all preamble, with no jobs. |
| OutputLog.SplitLogPreamble | src/pymatgen/io/nwchem.py:560-563 | The preamble is the text before the first marker, or all of it when there is none. No chunk contains the marker. |
| OutputLog.SplitLogRoundTrip | src/pymatgen/io/nwchem.py:560-563 | Joining the preamble, the jobs and any popped citation chunk with the marker gives back the log. There is one job per marker, less a popped citation chunk. |
| OutputLog.ParsePreamble | src/pymatgen/io/nwchem.py:657-663 | The loop fills exactly the map that the preamble's lines define in order. |
| OutputLog.PreambleEntryShape | src/pymatgen/io/nwchem.py:660-662 | A line defines an entry iff it holds "=". The key is the stripped text before the first "=". The value is the stripped text after the last "=", which holds no "=". |
| OutputLog.MapKeys | src/pymatgen/io/nwchem.py:658-662 | The keys of the map are exactly the keys some entry defines. |
| OutputLog.MapLastWins | src/pymatgen/io/nwchem.py:658-662 | A key takes the value of the last entry that defines it. |
| OutputLog.PreambleKeys | src/pymatgen/io/nwchem.py:657-663 | The preamble map's keys are exactly the keys its lines define. |
| OutputLog.PreambleLastWins | src/pymatgen/io/nwchem.py:657-663 | A key of the preamble map holds the value of the last line defining it. |
| OutputLog.ParseJobs | src/pymatgen/io/nwchem.py:567 | The loop decodes every chunk in order, or stops at the first chunk that raises. |
| OutputLog.Open | src/pymatgen/io/nwchem.py:550-567 | Constructing the document gives the split, the preamble map and the decoded jobs, or the exception. |
| OutputLog.JobAt | src/pymatgen/io/nwchem.py:668-669 | Indexing succeeds iff -len <= ind < len. It gives the job counted from the end for a negative index, and IndexError otherwise. |
| Outcomes.MapResult | src/pymatgen/io/nwchem.py:567 | The comprehension succeeds iff every item decodes. Then the result has every item's value in order; otherwise the error is that of the first item that raises. |
| Outcomes.ScanStopsAtFailure | src/pymatgen/io/nwchem.py:729 | Once a line has raised, scanning more lines gives the same exception. |
| Text.JoinSplit | src/pymatgen/io/nwchem.py:560 | Splitting on a literal separator loses nothing: joining the parts gives the text back. |
| Text.SplitParts | src/pymatgen/io/nwchem.py:560 | No part contains the separator. There are several parts iff the text contains it. The first part is the text before the first separator. |
| Text.SplitLast | src/pymatgen/io/nwchem.py:561 | The last part is a suffix of the text, preceded by the separator when there are several parts. |
| Text.ReplaceChar | src/pymatgen/io/nwchem.py:856 | Replacing one character by another keeps the length and every other character. |
| Numbers.ParseFloats | src/pymatgen/io/nwchem.py:768 | Parsing a list succeeds iff every token is a literal, one value per token. Otherwise ValueError names a bad token. |
| Numbers.Fort2PySwapsD | src/pymatgen/io/nwchem.py:696-697 | fort2py keeps the length and every character of the token except D, which becomes e. |
| Numbers.IsFloatStringIff | src/pymatgen/io/nwchem.py:699-700 | isfloatstring holds exactly when no character of the token is a decimal point. |
| Regex.CoordMatch | src/pymatgen/io/nwchem.py:679 | A coordinate line yields its element and three coordinate texts. |
| Regex.LatticeVectorMatch | src/pymatgen/io/nwchem.py:680 | A lattice-vector line yields three component texts. |
| Regex.ForceMatch | src/pymatgen/io/nwchem.py:685 | A gradient row yields groups 6-8, the three gradient texts. |
| Regex.EnergyMatchNumber | src/pymatgen/io/nwchem.py:676 | The total energy captured from a line is a non-empty run of digits, "." and "-". |
| Regex.GasPhaseMatchNumber | src/pymatgen/io/nwchem.py:677 | The gas-phase energy captured from a line is a non-empty run of digits, "." and "-". |
| Regex.SolPhaseMatchNumber | src/pymatgen/io/nwchem.py:678 | The sol-phase energy captured from a line is a non-empty run of digits, "." and "-". |
| Regex.CorrectionMatchNumber | src/pymatgen/io/nwchem.py:681 | The value of a correction is a non-empty run of digits, "." and "-". |
| Regex.ScalarFieldMatchWord | src/pymatgen/io/nwchem.py:682-684 | The value of a header field is a non-empty run of non-blank characters. |
| Regex.TimeMatchSeconds | src/pymatgen/io/nwchem.py:687 | The CPU seconds of a time line are a non-empty run of digits and ".". |
| JobSpec.TagsFor | src/pymatgen/io/nwchem.py:730-732 | Every tag recorded belongs to a signature the line contains. |
| JobSpec.ParseVec | src/pymatgen/io/nwchem.py:749 | Three texts give a vector iff all three are float literals. |
| JobSpec.AppendFrom | src/pymatgen/io/nwchem.py:770-771 | zip appends the k-th value to the k-th mode from the start. The other modes are untouched. |
| JobSpec.ZipKeys | src/pymatgen/io/nwchem.py:790 | dict(zip(...)) has exactly the zipped keys. |
| JobSpec.ZipLastWins | src/pymatgen/io/nwchem.py:790 | A repeated key maps to the value paired with its last occurrence. |
| JobSpec.PyIndex | src/pymatgen/io/nwchem.py:814 | Python indexing: defined iff -count <= index < count, counting from the end when negative. |
| JobSpec.HessianRow | src/pymatgen/io/nwchem.py:802-810 | A row yields its int index and one value per token after the first. It raises only when it is not skipped. |
| JobSpec.ScalarOf | src/pymatgen/io/nwchem.py:852-855 | A header value is an int iff int() accepts its text, and then it is int() of that text; otherwise it is the text itself. |
| JobDecoder.AppendRow | src/pymatgen/io/nwchem.py:768-771 | The loop appends a value row to the last modes as AppendColumns specifies. |
| JobDecoder.NoteErrors | src/pymatgen/io/nwchem.py:730-732 | The loop appends the tag of every error signature the line contains, in table order. |
| JobDecoder.NoteTime | src/pymatgen/io/nwchem.py:733-735 | An armed timer records the CPU seconds of a time line and disarms. Otherwise nothing changes. |
| JobDecoder.GeometryLine | src/pymatgen/io/nwchem.py:736-752 | The geometry block closes a molecule or structure on "Atomic Mass", and otherwise appends coordinates and lattice vectors. |
| JobDecoder.ForceLine | src/pymatgen/io/nwchem.py:754-760 | The gradient block appends a row's gradients. On the first other line after some rows, it closes the table. |
| JobDecoder.ModeBlockLine | src/pymatgen/io/nwchem.py:762-771 | A mode-block line either appends a value row or, when blank, ends the block once the last mode has values. Subscripting None raises TypeError; an empty list raises IndexError. |
| JobDecoder.NormalModeLine | src/pymatgen/io/nwchem.py:762-771 | The normal-mode block applies ModeLine to the normal modes. |
| JobDecoder.ProjectedModeLine | src/pymatgen/io/nwchem.py:773-782 | The projected-mode block applies ModeLine to the projected modes. |
| JobDecoder.BasisLine | src/pymatgen/io/nwchem.py:784-794 | The basis block: a blank line ends it, a Tag line sets the header, and any other row adds an element. |
| JobDecoder.PutHessianRow | src/pymatgen/io/nwchem.py:811-814 | A row beyond the end is appended; otherwise Python indexing extends it. |
| JobDecoder.HessianBlockLine | src/pymatgen/io/nwchem.py:796-814 | The Hessian block skips blank lines, ends on a dash rule once it has rows, and puts each numeric row in place. |
| JobDecoder.HessianLine | src/pymatgen/io/nwchem.py:796-814 | The Hessian block updates the Hessian and its flag. |
| JobDecoder.ProjectedRow | src/pymatgen/io/nwchem.py:829-834 | A projected row is put in place. The block ends when the last row has nat3 values. |
| JobDecoder.ProjectedHessianLine | src/pymatgen/io/nwchem.py:816-834 | The projected block measures nat3 on the Hessian (len(None) raises) and puts rows in place. |
| JobDecoder.GasPhaseLine | src/pymatgen/io/nwchem.py:842-846 | A gas-phase energy turns the last energy into a cosmo-scf/gas-phase dict. Without any energy it raises IndexError. |
| JobDecoder.SolPhaseLine | src/pymatgen/io/nwchem.py:848-849 | A sol-phase energy is merged into the last energy's dict. A plain last energy raises TypeError. |
| JobDecoder.FindMarker | src/pymatgen/io/nwchem.py:851-894 | The if/elif chain of markers: the first that matches wins. |
| JobDecoder.IdleLine | src/pymatgen/io/nwchem.py:836-894 | Outside every block: a total energy, or the phase energies followed by the marker chain. |
| JobDecoder.Feed | src/pymatgen/io/nwchem.py:729-894 | The loop body computes Step: error tags, timer, geometry, then the open block. |
| JobDecoder.ScanJob | src/pymatgen/io/nwchem.py:729-894 | The loop over the lines reaches the state ScanLines specifies, or stops at the first line that raises. |
| JobDecoder.ReshapeAll | src/pymatgen/io/nwchem.py:896-901 | The modes, if any, are each regrouped into triples. |
| JobDecoder.CompleteOpt | src/pymatgen/io/nwchem.py:902-911 | A Hessian, if any, is completed from its lower triangle. |
| JobDecoder.FinishJob | src/pymatgen/io/nwchem.py:896-928 | The post-pass and the record: has_error iff the error list is non-empty. |
| JobDecoder.ParseJob | src/pymatgen/io/nwchem.py:675-930 | _parse_job computes DecodeJob: the scan of the job's lines, then the post-pass. |
| PostPass.Triples | src/pymatgen/io/nwchem.py:898 | zip(*[iter(xs)]*3) gives len/3 triples of consecutive values, dropping an incomplete last group. |
| PostPass.Flatten | src/pymatgen/io/nwchem.py:898 | Flattening triples gives three values each. |
| PostPass.FlattenTriples | src/pymatgen/io/nwchem.py:898 | The triples, flattened, are the values up to the last whole triple. |
| PostPass.TriplesFlatten | src/pymatgen/io/nwchem.py:898 | Grouping undoes flattening. |
| PostPass.ReshapeModes | src/pymatgen/io/nwchem.py:896-901 | Every mode is regrouped in place, keeping its frequency and position, with len/3 displacements. |
| PostPass.CompletedLowerTriangle | src/pymatgen/io/nwchem.py:902-911 | A lower triangle completes to a square symmetric matrix whose rows begin with the triangle's rows. |
| PostPass.CompleteHessian | src/pymatgen/io/nwchem.py:902-911 | The nested loop completes the Hessian when every index it reads exists, and raises IndexError otherwise. |
| JobProps.ForceKeeps | src/pymatgen/io/nwchem.py:754-760 | The gradient block leaves error tags, timer and geometry alone. |
| JobProps.NormalModeKeeps | src/pymatgen/io/nwchem.py:762-771 | The normal-mode block leaves error tags, timer and geometry alone. |
| JobProps.ProjectedModeKeeps | src/pymatgen/io/nwchem.py:773-782 | The projected-mode block leaves error tags, timer and geometry alone. |
| JobProps.BasisKeeps | src/pymatgen/io/nwchem.py:784-794 | The basis block leaves error tags, timer and geometry alone. |
| JobProps.HessianKeeps | src/pymatgen/io/nwchem.py:796-814 | The Hessian block leaves error tags, timer and geometry alone. |
| JobProps.ProjectedHessianKeeps | src/pymatgen/io/nwchem.py:816-834 | The projected Hessian block leaves error tags, timer and geometry alone. |
| JobProps.MarkerKeeps | src/pymatgen/io/nwchem.py:851-894 | No marker touches error tags or timer. The geometry marker only opens the block. |
| JobProps.IdleKeeps | src/pymatgen/io/nwchem.py:842-894 | A line outside every block that is not a total energy leaves error tags, timer and geometry alone. |
| JobProps.BlockKeeps | src/pymatgen/io/nwchem.py:754-894 | Every block keeps error tags, timer and geometry, except a total energy read outside every block. |
| JobProps.StepErrors | src/pymatgen/io/nwchem.py:729-732 | One line appends exactly its error tags to the list. |
| JobProps.TagsForNonEmpty | src/pymatgen/io/nwchem.py:730-732 | A line gets a tag iff it contains one of the signatures. |
| JobProps.ErrorTagsIff | src/pymatgen/io/nwchem.py:689-694 | A line gets an error tag iff it contains one of the four error signatures. |
| JobProps.ScanErrors | src/pymatgen/io/nwchem.py:729-732 | The error list after the scan is the lines' tags in line order. |
| JobProps.AllTagsEmpty | src/pymatgen/io/nwchem.py:729-732 | No tags iff no line contains a signature. |
| JobProps.DecodeIsFinalized | src/pymatgen/io/nwchem.py:729-930 | A decoded job is the post-pass of its scan. |
| JobProps.FinalizeErrors | src/pymatgen/io/nwchem.py:920-921 | The record keeps the error list; has_error iff it is non-empty. |
| JobProps.HasErrorIff | src/pymatgen/io/nwchem.py:729-732 | A decoded job has has_error iff some line contains an error signature. |
| JobProps.EnergyArmsTimer | src/pymatgen/io/nwchem.py:837-840 | A total energy outside every block appends the energy in eV, arms the timer and changes nothing else. |
| JobProps.StepTimer | src/pymatgen/io/nwchem.py:733-735 | An armed time line records the time and disarms; a total energy outside every block arms. Every other line leaves the timer alone. |
| JobProps.StepEnergy | src/pymatgen/io/nwchem.py:837-840 | A total energy outside every block is appended and arms the timer. |
| JobProps.NotTimedWithoutTimeLine | src/pymatgen/io/nwchem.py:727-735 | Without a time line the task time stays unset. |
| JobProps.NotTimedBeforeEnergy | src/pymatgen/io/nwchem.py:726-735 | Before any total energy the timer is never armed and the time stays unset. |
| JobProps.StepGeometry | src/pymatgen/io/nwchem.py:736-752 | The geometry block runs on every line, whatever block is open, and nothing else changes what it builds. |
| BlockProps.AtomicMassFinishesOne | src/pymatgen/io/nwchem.py:737-745 | "Atomic Mass" closes one structure (if a lattice was read) or one molecule, and clears the buffers. |
| BlockProps.CoordinateLineAppends | src/pymatgen/io/nwchem.py:747-749 | A coordinate line appends the capitalised element and its coordinates. |
| BlockProps.LatticeLineAppends | src/pymatgen/io/nwchem.py:751-752 | A lattice-vector line appends one vector. |
| BlockProps.GeometryRaises | src/pymatgen/io/nwchem.py:736-752 | The geometry block raises iff it is open, the line is not "Atomic Mass", and a matched number is not a float literal. |
| BlockProps.ColumnsFillLastModes | src/pymatgen/io/nwchem.py:768-771 | A value row feeds the last len(vibs) modes, one value each. A row longer than the list fills every mode from its first value on. |
| BlockProps.BlankAfterHeaderKeepsOpen | src/pymatgen/io/nwchem.py:763-765 | A blank line right after a frequency header keeps the block open. |
| BlockProps.BlankAfterRowEnds | src/pymatgen/io/nwchem.py:763-766 | A blank line after a value row ends the block. |
| BlockProps.BlankWithoutModesRaises | src/pymatgen/io/nwchem.py:764 | A blank line with an empty mode list raises IndexError. |
| BlockProps.HessianRowSkips | src/pymatgen/io/nwchem.py:803-809 | A row is skipped iff it has one token, its first token is not an int, or its second token has no decimal point. |
| BlockProps.HessianRowValues | src/pymatgen/io/nwchem.py:805-810 | A numeric row gives int(tokens[0]) and float(fort2py(t)) for each later token. |
| BlockProps.RowBeyondAppends | src/pymatgen/io/nwchem.py:811-812 | A row beyond the end is appended. |
| BlockProps.RowWithinExtends | src/pymatgen/io/nwchem.py:813-814 | hessian[row-1].extend: row-1 or row-1+len is extended, and IndexError below -len. |
| BlockProps.TriangleRowsInOrder | src/pymatgen/io/nwchem.py:811-814 | Rows 1..n printed in order rebuild the matrix. |
| BlockProps.HessianRuleEnds | src/pymatgen/io/nwchem.py:796-801 | The Hessian block ends exactly on a non-blank dash rule once the Hessian has a row, and then keeps the Hessian. |
| BlockProps.HessianStepRuleEnds | src/pymatgen/io/nwchem.py:799-801 | Once a row exists, a dash rule clears the Hessian flag and changes nothing else. |
| BlockProps.ProjectedEndsOnFullRow | src/pymatgen/io/nwchem.py:829-834 | A projected row is put in place, and the block ends iff the last row has nat3 values. |
| BlockProps.FinalizeRaises | src/pymatgen/io/nwchem.py:902-911 | The post-pass raises iff a Hessian is not completable, and the error is IndexError. |
| BlockProps.FinalizeHessianSymmetric | src/pymatgen/io/nwchem.py:902-906 | A lower-triangle Hessian comes out square and symmetric, extending its rows. |
| BlockProps.FinalizeProjectedHessianSymmetric | src/pymatgen/io/nwchem.py:907-911 | A lower-triangle projected Hessian comes out square and symmetric, extending its rows. |
| BlockProps.GasPhaseWraps | src/pymatgen/io/nwchem.py:842-846 | A gas-phase energy wraps the last energy as cosmo scf beside the gas phase. |
| BlockProps.SolPhaseMerges | src/pymatgen/io/nwchem.py:848-849 | A sol-phase energy is merged into the last energy's dict. |
| BlockProps.GasThenSolPhase | src/pymatgen/io/nwchem.py:842-849 | Gas then sol phase give the three-entry dict. |
| BlockProps.SolPhaseOnPlainRaises | src/pymatgen/io/nwchem.py:849 | A sol-phase energy on a plain energy raises TypeError. |
| BlockProps.PhaseWithoutEnergyRaises | src/pymatgen/io/nwchem.py:843-849 | A phase energy before any energy raises IndexError. |
| BlockProps.GradientRow | src/pymatgen/io/nwchem.py:755-756 | A gradient row appends its last three numbers as floats and keeps the table open. |
| BlockProps.GradientTableEnds | src/pymatgen/io/nwchem.py:757-760 | The first other line after some rows records the table and closes it; before any row the table stays open. |
| BlockProps.BasisBlankEnds | src/pymatgen/io/nwchem.py:784-786 | A blank line ends the basis summary and changes nothing else. Any other line that does not raise keeps it open. |
| BlockProps.BasisHeaderDropsFifth | src/pymatgen/io/nwchem.py:791-794 | A Tag line becomes the header without its fifth word, lower-cased. |
| BlockProps.BasisRowKeys | src/pymatgen/io/nwchem.py:789-790 | An element row's keys are exactly the header words after the first that it has values for; each column maps to the row's token in that column (a repeated column name keeps the later one); the header and the other elements' rows are unchanged. |
| MarkerProps.JobTypeMarker | src/pymatgen/io/nwchem.py:889-892 | The job-type marker is taken only while the job type is empty, on an "NWChem" line, with its label. |
| MarkerProps.BlockJobType | src/pymatgen/io/nwchem.py:836-894 | No block changes the job type, except setting an empty one from a title line. |
| MarkerProps.StepJobType | src/pymatgen/io/nwchem.py:729-894 | One line keeps the job type or sets an empty one from a title. |
| MarkerProps.JobTypeFirstWins | src/pymatgen/io/nwchem.py:889-892 | Once set, the job type never changes. |
| MarkerProps.JobTypeFromTitle | src/pymatgen/io/nwchem.py:889-892 | A set job type is the label of one of the job's "NWChem" lines. |
| MarkerProps.IdleIsMarker | src/pymatgen/io/nwchem.py:836-894 | Outside every block, a line that is no energy line does what the first matching marker of the chain says, or raises its error. |
| MarkerProps.FieldLine | src/pymatgen/io/nwchem.py:851-857 | A header field is recorded under its normalised key, as ScalarOf its text. Nothing else changes. |
| MarkerProps.CountKey | src/pymatgen/io/nwchem.py:856-857 | "No. of <what>" gets the key "n" followed by <what> lower-cased with blanks as "_". |
| MarkerProps.PlainKey | src/pymatgen/io/nwchem.py:856-857 | A name without "N" gets its blanks turned into "_" and is lower-cased. |
| MarkerProps.KeyShape | src/pymatgen/io/nwchem.py:856-857 | No key holds a blank or an upper-case letter. |
| MarkerProps.GeometryAndBasisHeaders | src/pymatgen/io/nwchem.py:858-861 | The geometry header opens the geometry block, and otherwise the basis header opens the basis summary. Nothing else changes. |
| MarkerProps.ProjectedFrequencyValues | src/pymatgen/io/nwchem.py:862-867 | A P.Frequency header raises iff a value after its first word is not a float literal. |
| MarkerProps.ProjectedFrequencyHeader | src/pymatgen/io/nwchem.py:862-867 | A P.Frequency header opens the projected block. It appends one mode per value, in order, each with no displacement, after the modes already read. |
| MarkerProps.NormalFrequencyValues | src/pymatgen/io/nwchem.py:869-875 | A "Frequency" header with values raises iff a value after its first word is not a float literal. |
| MarkerProps.NormalFrequencyHeader | src/pymatgen/io/nwchem.py:869-875 | A "Frequency" header opens the normal-mode block. It appends one mode per value, in order, each with no displacement, after the modes already read. |
| MarkerProps.FrequencyMentionIgnored | src/pymatgen/io/nwchem.py:869-871 | A line that mentions Frequency but does not start with it, or has nothing after it, changes nothing. |
| MarkerProps.HessianHeaders | src/pymatgen/io/nwchem.py:877-884 | A Hessian header opens its block. It starts an empty matrix when there is none and keeps one already read. |
| MarkerProps.GradientHeaderOpens | src/pymatgen/io/nwchem.py:886-887 | The gradient header opens the gradient table and changes nothing else. |
| MarkerProps.CorrectionLine | src/pymatgen/io/nwchem.py:893-894 | A correction is recorded under its label, converted to eV per atom, and raises iff its value is not a float literal. A line matching no marker changes nothing. |
| Tddft.WithRoots | src/pymatgen/io/nwchem.py:605 | Updating one multiplicity's roots leaves the other's alone. |
| Tddft.RootLine | src/pymatgen/io/nwchem.py:603-605 | A root line computes RootStep: float(tokens[-2]), or IndexError. |
| Tddft.OscillatorLine | src/pymatgen/io/nwchem.py:607-609 | An oscillator line computes OscillatorStep. |
| Tddft.TddftLine | src/pymatgen/io/nwchem.py:589-609 | The loop body computes the elif chain on the stripped line. |
| Tddft.ParseTddft | src/pymatgen/io/nwchem.py:577-611 | The loop popping lines from the front computes the roots of the whole log. |
| Tddft.RootLineAppends | src/pymatgen/io/nwchem.py:603-605 | A root line inside a block appends one root to the current multiplicity only. Its energy is float(tokens[-2]) and it has no strength yet. |
| Tddft.RootLineRaises | src/pymatgen/io/nwchem.py:603-605 | A root line inside a block raises IndexError with fewer than two tokens, and otherwise raises iff its token before last is not a float literal. |
| Tddft.OscillatorAttachesToLastRoot | src/pymatgen/io/nwchem.py:607-609 | The strength float(tokens[-1]) is set on the last root of the current multiplicity only. Every other root, and that root's energy, are kept. |
| Tddft.OscillatorLineRaises | src/pymatgen/io/nwchem.py:607-609 | An oscillator line inside a block raises iff it has no token, its last token is not a float literal, or the current multiplicity has no root. |
| Tddft.BlockTags | src/pymatgen/io/nwchem.py:591-595 | The start tag sets inside and the end tag clears it, changing nothing else. A line holding both counts as a start tag. |
| Tddft.OutsideKeeps | src/pymatgen/io/nwchem.py:589-611 | Outside a block, a line that is none of the four tags changes nothing: no root, no strength. |
| Tddft.LabelMarkers | src/pymatgen/io/nwchem.py:597-601 | Multiplicity markers switch the label, whether or not the scan is inside a block. |
| Tddft.RootStepExtends | src/pymatgen/io/nwchem.py:603-605 | A root line keeps every root and energy. |
| Tddft.OscillatorStepExtends | src/pymatgen/io/nwchem.py:607-609 | An oscillator line keeps every root and energy. |
| Tddft.StepExtends | src/pymatgen/io/nwchem.py:589-609 | No line removes or reorders a root or changes its energy. |
| Tddft.ScanExtends | src/pymatgen/io/nwchem.py:588-611 | Roots are kept in log order by the rest of the scan. |
| Tddft.NoBlockNoRoots | src/pymatgen/io/nwchem.py:591-609 | Without a start tag there are no roots and nothing raises. |

## Left out

- `get_excitation_spectrum` is not modelled. It is floating-point numerics (a grid, a Lorentzian broadening, sums), and floats are kept symbolic here.
- Reading the file (`zopen`) is left out. `OutputLog.Open` takes the filename and the file's text as parameters.
- The rounding of a literal to a double, and the unit conversions Hartree→eV and kJ/mol→eV/atom, are left out. A value is the literal it came from (`Float`, `EnergyEv`, `CorrectionEv`).
- `Molecule` and `Structure` are plain records of what the decoder hands them. Their own validation, and the lattice/coordinate semantics, are not part of this model.
- `NwTask` and `NwInput` (input-file generation) are not part of this model.
- `__iter__` and `__len__` are left out. They are the list itself and its length; `OutputLog.JobAt` models `__getitem__` for integer indices, not slices.
- The regular-expression engine is not modelled in general. `Regex` is a small matcher that takes the longest run of a repeated class. On ASCII text it agrees with Python's backtracking search on the decoder's patterns, because every repeated class there is followed by a character outside it.
- Python's `float()` and `int()` are modelled for ASCII text. They also accept non-ASCII digits, which the model does not.
- The regular-expression classes `\w` and `\d` are modelled for ASCII only. Python 3 also counts non-ASCII letters and digits in them, so on non-ASCII text the model may fail to match where Python matches.
- `lower()` and `capitalize()` are modelled for ASCII letters only. Other letters keep their case. This affects the header-field keys, the basis-summary column names and the species names.
- The dict merge `energies[-1] |= {...}` is modelled only on the dict values the gas-phase line creates. A plain energy raises TypeError, as a float does.
- BlockProps.CoordinateLineAppends: it states the appended coordinates only for a line whose numbers are float literals. The raising case is stated separately by BlockProps.GeometryRaises.
- BlockProps.LatticeLineAppends: it states the appended vector only for a line whose numbers are float literals. The raising case is in BlockProps.GeometryRaises.
- BlockProps.HessianRowValues: it assumes the row's values parse. A row that raises is characterised by JobSpec.HessianRow's contract, which says only that such a row was not skipped.
