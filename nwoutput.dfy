/** The NWChem output log as a whole: the log is cut into a preamble and one chunk per
    job, the preamble gives a flat key-value map, and every job chunk is decoded. */
module OutputLog {
  import opened Outcomes
  import opened Text
  import opened JobSpec
  import opened JobDecoder

  /** The text that opens every job of the log. */
  const JobMarker: string := "NWChem Input Module"

  /** Text of the closing citation notice; a last chunk holding it is not a job. */
  const CitationMarker: string := "CITATION"

  /** A decoded log: the file name, the raw text, the preamble map and the jobs. */
  datatype NwOutput = NwOutput(filename: string, raw: string, jobInfo: map<string, string>, data: seq<JobRecord>)

  // ---------------------------------------------------------------- job splitting

  /** The chunks the log is cut into, the last one dropped when it holds the citation. */
  function KeptChunks(data: string): seq<string> {
    var chunks := Split(data, JobMarker);
    if Contains(chunks[|chunks| - 1], CitationMarker) then chunks[..|chunks| - 1] else chunks
  }

  /** The preamble and the job chunks; popping the preamble off an empty list raises. */
  function SplitLog(data: string): Result<(string, seq<string>)> {
    var kept := KeptChunks(data);
    if |kept| == 0 then Err(IndexError) else Ok((kept[0], kept[1..]))
  }

  /** The split fails exactly when the log has no job marker but does hold the
      citation: its only chunk is then dropped and there is no preamble to pop. */
  lemma SplitLogRaises(data: string)
    ensures SplitLog(data).Err? <==> !Contains(data, JobMarker) && Contains(data, CitationMarker)
    ensures SplitLog(data).Err? ==> SplitLog(data).error == IndexError
  {
    SplitParts(data, JobMarker);
    var chunks := Split(data, JobMarker);
    if |chunks| == 1 {
      assert chunks == [data];
    }
  }

  /** A log without the job marker and without the citation is all preamble. */
  lemma NoMarkerAllPreamble(data: string)
    requires !Contains(data, JobMarker) && !Contains(data, CitationMarker)
    ensures SplitLog(data) == Ok((data, []))
  {
    SplitParts(data, JobMarker);
    assert Split(data, JobMarker) == [data];
    assert [data][1..] == [];
  }

  /** The preamble is the text before the first job marker (all of it when there is
      none), and no chunk contains the marker. */
  lemma SplitLogPreamble(data: string)
    requires SplitLog(data).Ok?
    ensures var first := FindFrom(data, JobMarker, 0);
      SplitLog(data).value.0 == if first.Some? then data[..first.value] else data
    ensures !Contains(SplitLog(data).value.0, JobMarker)
    ensures forall k :: 0 <= k < |SplitLog(data).value.1| ==> !Contains(SplitLog(data).value.1[k], JobMarker)
  {
    SplitParts(data, JobMarker);
    var chunks := Split(data, JobMarker);
    var jobs := SplitLog(data).value.1;
    if |chunks| == 1 {
      assert chunks == [data];
    }
    forall k | 0 <= k < |jobs|
      ensures !Contains(jobs[k], JobMarker)
    {
      assert jobs[k] == chunks[k + 1];
    }
  }

  /** Nothing of the log is lost: the preamble, the jobs and the dropped citation
      chunk (if any), joined back with the job marker, give the log. So there is one
      job per job marker, except a last chunk holding the citation. */
  lemma SplitLogRoundTrip(data: string)
    requires SplitLog(data).Ok?
    ensures var chunks := Split(data, JobMarker);
      var dropped := if Contains(chunks[|chunks| - 1], CitationMarker) then [chunks[|chunks| - 1]] else [];
      Join([SplitLog(data).value.0] + SplitLog(data).value.1 + dropped, JobMarker) == data
    ensures var chunks := Split(data, JobMarker);
      |SplitLog(data).value.1| == |chunks| - 1 - (if Contains(chunks[|chunks| - 1], CitationMarker) then 1 else 0)
  {
    var chunks := Split(data, JobMarker);
    JoinSplit(data, JobMarker);
    var kept := KeptChunks(data);
    var dropped := if Contains(chunks[|chunks| - 1], CitationMarker) then [chunks[|chunks| - 1]] else [];
    assert kept + dropped == chunks;
    assert [kept[0]] + kept[1..] == kept;
  }

  // ---------------------------------------------------------------- preamble

  /** The key and the value a preamble line defines: the text before its first "="
      and the text after its last "=", both stripped; None when it has no "=". */
  function PreambleEntry(line: string): Option<(string, string)> {
    var tokens := Split(line, "=");
    if |tokens| > 1 then Some((Strip(tokens[0]), Strip(tokens[|tokens| - 1]))) else None
  }

  /** The entries of the lines, in order. */
  function EntriesOf(lines: seq<string>): (entries: seq<Option<(string, string)>>)
    ensures |entries| == |lines| && forall k :: 0 <= k < |lines| ==> entries[k] == PreambleEntry(lines[k])
  {
    seq(|lines|, k requires 0 <= k < |lines| => PreambleEntry(lines[k]))
  }

  /** The map the entries define; a key defined again takes the later value. */
  function MapOf(entries: seq<Option<(string, string)>>): map<string, string>
    decreases |entries|
  {
    if |entries| == 0 then map[]
    else
      var info := MapOf(entries[..|entries| - 1]);
      match entries[|entries| - 1]
      case None => info
      case Some(entry) => info[entry.0 := entry.1]
  }

  function PreambleInfo(preamble: string): map<string, string> {
    MapOf(EntriesOf(Split(preamble, "\n")))
  }

  /** `_parse_preamble`: the map is filled line by line. */
  method ParsePreamble(preamble: string) returns (info: map<string, string>)
    ensures info == PreambleInfo(preamble)
  {
    var lines := Split(preamble, "\n");
    ghost var entries := EntriesOf(lines);
    info := map[];
    var i := 0;
    while i < |lines|
      invariant 0 <= i <= |lines|
      invariant info == MapOf(entries[..i])
    {
      assert entries[..i + 1][..i] == entries[..i];
      var tokens := Split(lines[i], "=");
      if |tokens| > 1 {
        info := info[Strip(tokens[0]) := Strip(tokens[|tokens| - 1])];
      }
      i := i + 1;
    }
    assert entries[..i] == entries;
  }

  /** A line defines an entry exactly when it holds "="; the key is the stripped text
      before the first "=", and the value the stripped text after the last "=", which
      holds no "=" itself. */
  lemma PreambleEntryShape(line: string)
    ensures PreambleEntry(line).Some? <==> Contains(line, "=")
    ensures PreambleEntry(line).Some? ==>
      var first := FindFrom(line, "=", 0).value;
      var tokens := Split(line, "=");
      var tail := tokens[|tokens| - 1];
      && PreambleEntry(line).value.0 == Strip(line[..first])
      && PreambleEntry(line).value.1 == Strip(tail)
      && |tail| < |line| && tail == line[|line| - |tail|..] && line[|line| - |tail| - 1] == '='
      && !Contains(tail, "=")
  {
    SplitParts(line, "=");
    SplitLast(line, "=");
  }

  /** The entry defines `key`. */
  predicate Defines(entry: Option<(string, string)>, key: string) {
    entry.Some? && entry.value.0 == key
  }

  /** The keys of the map are exactly the keys the entries define. */
  lemma {:induction false} MapKeys(entries: seq<Option<(string, string)>>, key: string)
    ensures key in MapOf(entries) <==> exists k :: 0 <= k < |entries| && Defines(entries[k], key)
    decreases |entries|
  {
    if |entries| > 0 {
      var front := entries[..|entries| - 1];
      MapKeys(front, key);
      if !Defines(entries[|entries| - 1], key) {
        if key in MapOf(front) {
          var k :| 0 <= k < |front| && Defines(front[k], key);
          assert entries[k] == front[k];
        }
        if exists k :: 0 <= k < |entries| && Defines(entries[k], key) {
          var k :| 0 <= k < |entries| && Defines(entries[k], key);
          assert entries[k] == front[k];
        }
      }
    }
  }

  /** A key takes the value of the last entry that defines it. */
  lemma {:induction false} MapLastWins(entries: seq<Option<(string, string)>>, k: nat)
    requires k < |entries| && entries[k].Some?
    requires forall j :: k < j < |entries| ==> !Defines(entries[j], entries[k].value.0)
    ensures entries[k].value.0 in MapOf(entries)
    ensures MapOf(entries)[entries[k].value.0] == entries[k].value.1
    decreases |entries|
  {
    if k < |entries| - 1 {
      var front := entries[..|entries| - 1];
      assert front[k] == entries[k];
      forall j | k < j < |front|
        ensures !Defines(front[j], front[k].value.0)
      {
        assert front[j] == entries[j];
      }
      MapLastWins(front, k);
    }
  }

  /** The keys of the preamble map are exactly the keys its lines define. */
  lemma PreambleKeys(lines: seq<string>, key: string)
    ensures key in MapOf(EntriesOf(lines)) <==> exists k :: 0 <= k < |lines| && Defines(PreambleEntry(lines[k]), key)
  {
    var entries := EntriesOf(lines);
    MapKeys(entries, key);
    if key in MapOf(entries) {
      var k :| 0 <= k < |entries| && Defines(entries[k], key);
      assert Defines(PreambleEntry(lines[k]), key);
    } else {
      forall k | 0 <= k < |lines|
        ensures !Defines(PreambleEntry(lines[k]), key)
      {
        assert !Defines(entries[k], key);
      }
    }
  }

  /** A key of the preamble takes the value of the last line that defines it. */
  lemma PreambleLastWins(preamble: string, k: nat)
    requires var lines := Split(preamble, "\n");
      k < |lines| && PreambleEntry(lines[k]).Some?
      && forall j :: k < j < |lines| ==> !Defines(PreambleEntry(lines[j]), PreambleEntry(lines[k]).value.0)
    ensures var entry := PreambleEntry(Split(preamble, "\n")[k]).value;
      entry.0 in PreambleInfo(preamble) && PreambleInfo(preamble)[entry.0] == entry.1
  {
    var lines := Split(preamble, "\n");
    MapLastWins(EntriesOf(lines), k);
  }

  // ---------------------------------------------------------------- the whole log

  /** `[_parse_job(c) for c in chunks]`. */
  function DecodeJobs(chunks: seq<string>): Result<seq<JobRecord>> {
    MapResult(DecodeJob, chunks)
  }

  /** The log decoded: the preamble map and the decoded job of every chunk. */
  function Load(filename: string, data: string): Result<NwOutput> {
    var parts :- SplitLog(data);
    var jobs :- DecodeJobs(parts.1);
    Ok(NwOutput(filename, data, PreambleInfo(parts.0), jobs))
  }

  /** The job chunks decoded one after the other. */
  method ParseJobs(chunks: seq<string>) returns (r: Result<seq<JobRecord>>)
    ensures r == DecodeJobs(chunks)
  {
    var jobs: seq<JobRecord> := [];
    var i := 0;
    while i < |chunks|
      invariant 0 <= i <= |chunks|
      invariant DecodeJobs(chunks[..i]) == Ok(jobs)
    {
      assert chunks[..i + 1][..i] == chunks[..i];
      var job := ParseJob(chunks[i]);
      if job.Err? {
        MapStopsAtFailure(DecodeJob, chunks, i + 1);
        return Err(job.error);
      }
      jobs := jobs + [job.value];
      i := i + 1;
    }
    assert chunks[..i] == chunks;
    return Ok(jobs);
  }

  /** `NwOutput(filename)` for a file holding `data`: the log is cut on the job
      marker, a last chunk holding the citation is popped, then the preamble. */
  method Open(filename: string, data: string) returns (r: Result<NwOutput>)
    ensures r == Load(filename, data)
  {
    var chunks := Split(data, JobMarker);
    if Contains(chunks[|chunks| - 1], CitationMarker) {
      chunks := chunks[..|chunks| - 1];
    }
    if |chunks| == 0 {
      return Err(IndexError);
    }
    var preamble := chunks[0];
    chunks := chunks[1..];
    var jobInfo := ParsePreamble(preamble);
    var jobs := ParseJobs(chunks);
    if jobs.Err? {
      return Err(jobs.error);
    }
    return Ok(NwOutput(filename, data, jobInfo, jobs.value));
  }

  /** `output[ind]`: a job by its Python index, negative indices counting from the end. */
  function JobAt(doc: NwOutput, ind: int): (r: Result<JobRecord>)
    ensures r.Ok? <==> 0 - |doc.data| <= ind < |doc.data|
    ensures r.Ok? ==> r.value == doc.data[if ind < 0 then ind + |doc.data| else ind]
    ensures r.Err? ==> r.error == IndexError
  {
    match PyIndex(|doc.data|, ind)
    case None => Err(IndexError)
    case Some(k) => Ok(doc.data[k])
  }
}
