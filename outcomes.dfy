/** Option, the exceptions the decoder can raise, and a Result type that carries them. */
module Outcomes {

  datatype Option<+T> = None | Some(value: T)

  /** The Python exceptions that abort a decode: a bad numeric literal handed to
      float(), an out-of-range list index, and an operation on the wrong kind of
      value (len(None), a float merged with a dict). */
  datatype Raised = ValueError(literal: string) | IndexError | TypeError

  datatype Result<+T> = Ok(value: T) | Err(error: Raised) {
    predicate IsFailure() { Err? }

    function PropagateFailure<U>(): Result<U>
      requires Err?
    {
      Err(error)
    }

    function Extract(): T
      requires Ok?
    {
      value
    }
  }

  /** The state a line-by-line scan reaches: `step` applied to each line in turn,
      starting from `init`, until a line raises. */
  function Scan<S>(step: (S, string) -> Result<S>, init: S, lines: seq<string>): Result<S>
    decreases |lines|
  {
    if lines == [] then Ok(init)
    else
      var st :- Scan(step, init, lines[..|lines| - 1]);
      step(st, lines[|lines| - 1])
  }

  /** Scanning one more line applies `step` to the state the shorter scan reached. */
  lemma ScanNext<S>(step: (S, string) -> Result<S>, init: S, lines: seq<string>, n: nat)
    requires n < |lines| && Scan(step, init, lines[..n]).Ok?
    ensures Scan(step, init, lines[..n + 1]) == step(Scan(step, init, lines[..n]).value, lines[n])
  {
    assert lines[..n + 1][..n] == lines[..n];
  }

  /** Once a line has raised, the scan of any longer list of lines raises the same. */
  lemma {:induction false} ScanStopsAtFailure<S>(step: (S, string) -> Result<S>, init: S, lines: seq<string>, n: nat)
    requires n <= |lines| && Scan(step, init, lines[..n]).Err?
    ensures Scan(step, init, lines) == Scan(step, init, lines[..n])
    decreases |lines| - n
  {
    if n < |lines| {
      assert lines[..n + 1][..n] == lines[..n];
      ScanStopsAtFailure(step, init, lines, n + 1);
    } else {
      assert lines[..n] == lines;
    }
  }

  /** `[f(x) for x in xs]`: every item mapped, or the exception of the first item that
      raises. */
  function MapResult<T>(f: string -> Result<T>, xs: seq<string>): (r: Result<seq<T>>)
    ensures r.Ok? <==> forall k :: 0 <= k < |xs| ==> f(xs[k]).Ok?
    ensures r.Ok? ==> |r.value| == |xs| && forall k :: 0 <= k < |xs| ==> r.value[k] == f(xs[k]).value
    ensures r.Err? ==> exists k :: 0 <= k < |xs| && f(xs[k]) == Err(r.error) && forall j :: 0 <= j < k ==> f(xs[j]).Ok?
    decreases |xs|
  {
    if |xs| == 0 then Ok([])
    else
      var front :- MapResult(f, xs[..|xs| - 1]);
      var last :- f(xs[|xs| - 1]);
      Ok(front + [last])
  }

  /** Once an item has raised, mapping more items raises the same. */
  lemma {:induction false} MapStopsAtFailure<T>(f: string -> Result<T>, xs: seq<string>, n: nat)
    requires n <= |xs| && MapResult(f, xs[..n]).Err?
    ensures MapResult(f, xs) == MapResult(f, xs[..n])
    decreases |xs| - n
  {
    if n < |xs| {
      assert xs[..n + 1][..n] == xs[..n];
      MapStopsAtFailure(f, xs, n + 1);
    } else {
      assert xs[..n] == xs;
    }
  }
}
