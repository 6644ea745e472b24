/** The pass that runs after the last line of a job: the flat displacement lists of the
    normal modes are grouped into (dx, dy, dz) triples, and each Hessian, read as its
    lower triangle, is completed into a full matrix by copying column entries. */
module PostPass {
  import opened Outcomes
  import opened Numbers

  /** The displacement (dx, dy, dz) of one atom in a normal mode. */
  datatype Triple = Triple(x: Float, y: Float, z: Float)

  /** Rows of numbers; the Hessians are read as rows of differing lengths. */
  type Matrix = seq<seq<Float>>

  /** A mode while its block is read: the frequency and the displacements, flat. */
  datatype RawMode = RawMode(frequency: Float, flat: seq<Float>)

  /** A mode of the decoded job: the displacements grouped per atom. */
  datatype Mode = Mode(frequency: Float, displacements: seq<Triple>)

  /** `zip(*[iter(xs)] * 3)`: consecutive triples, an incomplete last group dropped. */
  function Triples(xs: seq<Float>): (r: seq<Triple>)
    ensures |r| == |xs| / 3
    ensures forall k :: 0 <= k < |r| ==> r[k] == Triple(xs[3 * k], xs[3 * k + 1], xs[3 * k + 2])
    decreases |xs|
  {
    if |xs| < 3 then [] else [Triple(xs[0], xs[1], xs[2])] + Triples(xs[3..])
  }

  function Flatten(ts: seq<Triple>): (r: seq<Float>)
    ensures |r| == 3 * |ts|
  {
    if ts == [] then [] else [ts[0].x, ts[0].y, ts[0].z] + Flatten(ts[1..])
  }

  /** Grouping loses only an incomplete last group: the triples, flattened, are the
      values up to the last whole triple. */
  lemma {:induction false} FlattenTriples(xs: seq<Float>)
    ensures Flatten(Triples(xs)) == xs[..|xs| / 3 * 3]
    decreases |xs|
  {
    if |xs| >= 3 {
      var rest := xs[3..];
      FlattenTriples(rest);
      assert |rest| / 3 * 3 + 3 == |xs| / 3 * 3;
      assert Triples(xs) == [Triple(xs[0], xs[1], xs[2])] + Triples(rest);
      assert xs[..|xs| / 3 * 3] == xs[..3] + rest[..|rest| / 3 * 3];
    }
  }

  /** Grouping undoes flattening. */
  lemma {:induction false} TriplesFlatten(ts: seq<Triple>)
    ensures Triples(Flatten(ts)) == ts
  {
    if ts != [] {
      TriplesFlatten(ts[1..]);
      var xs := Flatten(ts);
      assert xs[3..] == Flatten(ts[1..]);
    }
  }

  function Reshaped(m: RawMode): Mode {
    Mode(m.frequency, Triples(m.flat))
  }

  /** `for _freq, mode in modes: mode[:] = zip(*[iter(mode)] * 3)`: every mode regrouped,
      in place, keeping its frequency and its position. */
  method ReshapeModes(modes: seq<RawMode>) returns (r: seq<Mode>)
    ensures |r| == |modes|
    ensures forall k :: 0 <= k < |modes| ==>
      && r[k] == Reshaped(modes[k])
      && r[k].frequency == modes[k].frequency
      && |r[k].displacements| == |modes[k].flat| / 3
      && Flatten(r[k].displacements) == modes[k].flat[..|modes[k].flat| / 3 * 3]
  {
    r := [];
    var k := 0;
    while k < |modes|
      invariant 0 <= k <= |modes| && |r| == k
      invariant forall i :: 0 <= i < k ==> r[i] == Reshaped(modes[i])
    {
      FlattenTriples(modes[k].flat);
      r := r + [Reshaped(modes[k])];
      k := k + 1;
    }
    forall i | 0 <= i < |modes|
      ensures Flatten(r[i].displacements) == modes[i].flat[..|modes[i].flat| / 3 * 3]
    {
      FlattenTriples(modes[i].flat);
    }
  }

  /** Every row after row `i` reaches column `i`, which the completion reads. */
  predicate ColumnAvailable(h: Matrix, i: nat) {
    forall j :: i < j < |h| ==> i < |h[j]|
  }

  /** The completion reads only entries that exist. */
  predicate Completable(h: Matrix) {
    forall i :: 0 <= i < |h| ==> ColumnAvailable(h, i)
  }

  /** Column `i` of rows `lo` to `hi - 1`. */
  function Column(h: Matrix, i: nat, lo: nat, hi: nat): (c: seq<Float>)
    requires lo <= hi <= |h|
    requires forall j :: lo <= j < hi ==> i < |h[j]|
    ensures |c| == hi - lo
    ensures forall k :: 0 <= k < hi - lo ==> c[k] == h[lo + k][i]
    decreases hi - lo
  {
    if hi == lo then [] else Column(h, i, lo, hi - 1) + [h[hi - 1][i]]
  }

  /** Row `i` with the entries below the diagonal in column `i` appended. */
  function CompletedRow(h: Matrix, i: nat): seq<Float>
    requires i < |h| && ColumnAvailable(h, i)
  {
    h[i] + Column(h, i, i + 1, |h|)
  }

  function Completed(h: Matrix): (r: Matrix)
    requires Completable(h)
    ensures |r| == |h|
  {
    seq(|h|, i requires 0 <= i < |h| => CompletedRow(h, i))
  }

  /** Row `i` holds the `i + 1` entries up to the diagonal, as NWChem prints a Hessian. */
  predicate LowerTriangle(h: Matrix) {
    forall i :: 0 <= i < |h| ==> |h[i]| == i + 1
  }

  predicate Symmetric(m: Matrix) {
    forall i, j :: 0 <= i < |m| && 0 <= j < |m| ==> j < |m[i]| && i < |m[j]| && m[i][j] == m[j][i]
  }

  /** Completing a lower triangle gives a square symmetric matrix that agrees with the
      triangle on and below the diagonal. */
  lemma CompletedLowerTriangle(h: Matrix)
    requires LowerTriangle(h)
    ensures Completable(h)
    ensures forall i :: 0 <= i < |h| ==> |Completed(h)[i]| == |h| && Completed(h)[i][..i + 1] == h[i]
    ensures Symmetric(Completed(h))
  {
    assert Completable(h) by {
      forall i | 0 <= i < |h|
        ensures ColumnAvailable(h, i)
      {
        assert forall j :: i < j < |h| ==> |h[j]| == j + 1;
      }
    }
    var m := Completed(h);
    forall i, j | 0 <= i < |m| && 0 <= j < |m|
      ensures j < |m[i]| && i < |m[j]| && m[i][j] == m[j][i]
    {
      assert m[i] == h[i] + Column(h, i, i + 1, |h|) && |h[i]| == i + 1;
      assert m[j] == h[j] + Column(h, j, j + 1, |h|) && |h[j]| == j + 1;
    }
  }

  /** The completion loop, as written:
      `for ii in range(n): for jj in range(ii + 1, n): h[ii].append(h[jj][ii])`,
      which raises IndexError at the first entry a shorter row lacks. */
  method CompleteHessian(h: Matrix) returns (r: Result<Matrix>)
    ensures r == if Completable(h) then Ok(Completed(h)) else Err(IndexError)
  {
    var rows := h;
    var n := |h|;
    var ii := 0;
    while ii < n
      invariant 0 <= ii <= n && |rows| == n
      invariant forall k :: 0 <= k < ii ==> ColumnAvailable(h, k) && rows[k] == CompletedRow(h, k)
      invariant forall k :: ii <= k < n ==> rows[k] == h[k]
    {
      var jj := ii + 1;
      while jj < n
        invariant ii + 1 <= jj <= n && |rows| == n
        invariant forall k :: 0 <= k < ii ==> ColumnAvailable(h, k) && rows[k] == CompletedRow(h, k)
        invariant forall k :: ii < k < n ==> rows[k] == h[k]
        invariant forall j :: ii < j < jj ==> ii < |h[j]|
        invariant rows[ii] == h[ii] + Column(h, ii, ii + 1, jj)
      {
        if |rows[jj]| <= ii {
          assert !ColumnAvailable(h, ii);
          return Err(IndexError);
        }
        rows := rows[ii := rows[ii] + [rows[jj][ii]]];
        jj := jj + 1;
      }
      ii := ii + 1;
    }
    assert Completable(h);
    assert rows == Completed(h);
    return Ok(rows);
  }
}
