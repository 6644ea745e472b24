/** The Python string operations the decoder relies on: `in`/`find`, `split(sep)`,
    `split()`, `strip()`, `startswith`, `replace`, `lower` and `capitalize`.
    Character classes are Python's for the ASCII range and the Unicode spaces;
    case mapping is ASCII only. */
module Text {
  import opened Outcomes

  /** Python's str.isspace(), which is also what `split()`, `strip()` and the
      regex class \s use. */
  predicate IsSpace(c: char) {
    || c == ' '
    || ('\t' <= c <= '\r')
    || ('\U{1c}' <= c <= '\U{1f}')
    || c == '\U{85}' || c == '\U{a0}' || c == '\U{1680}'
    || ('\U{2000}' <= c <= '\U{200a}')
    || c == '\U{2028}' || c == '\U{2029}' || c == '\U{202f}' || c == '\U{205f}' || c == '\U{3000}'
  }

  /** `sub` occurs in `s` at index `i`. */
  predicate OccursAt(s: string, sub: string, i: int) {
    0 <= i && i + |sub| <= |s| && s[i..i + |sub|] == sub
  }

  /** The first index at or after `i` where `sub` occurs (Python's `s.find(sub, i)`). */
  function FindFrom(s: string, sub: string, i: nat): (r: Option<nat>)
    ensures r.Some? ==> i <= r.value && r.value + |sub| <= |s|
    decreases |s| - i
  {
    if i + |sub| > |s| then None
    else if OccursAt(s, sub, i) then Some(i)
    else FindFrom(s, sub, i + 1)
  }

  /** FindFrom finds the first occurrence at or after `i`, and None means there is none. */
  lemma {:induction false} FindFromFirst(s: string, sub: string, i: nat)
    ensures var r := FindFrom(s, sub, i);
      && (r.Some? ==> OccursAt(s, sub, r.value) && forall j :: i <= j < r.value ==> !OccursAt(s, sub, j))
      && (r.None? ==> forall j :: i <= j ==> !OccursAt(s, sub, j))
    decreases |s| - i
  {
    if i + |sub| <= |s| && !OccursAt(s, sub, i) {
      FindFromFirst(s, sub, i + 1);
    }
  }

  /** What FindFrom finds is an occurrence. */
  lemma {:induction false} FindFromOccurs(s: string, sub: string, i: nat)
    requires FindFrom(s, sub, i).Some?
    ensures OccursAt(s, sub, FindFrom(s, sub, i).value)
    decreases |s| - i
  {
    if !OccursAt(s, sub, i) {
      FindFromOccurs(s, sub, i + 1);
    }
  }

  /** Python's `sub in s`, equivalently `s.find(sub) != -1`. */
  predicate Contains(s: string, sub: string) {
    FindFrom(s, sub, 0).Some?
  }

  lemma ContainsIff(s: string, sub: string)
    ensures Contains(s, sub) <==> exists j :: OccursAt(s, sub, j)
  {
    FindFromFirst(s, sub, 0);
  }

  lemma OccursInPrefix(s: string, sub: string, n: nat, i: int)
    requires n <= |s| && OccursAt(s[..n], sub, i)
    ensures OccursAt(s, sub, i)
  {
    assert s[..n][i..i + |sub|] == s[i..i + |sub|];
  }

  lemma OccursInSuffix(s: string, sub: string, n: nat, i: int)
    requires n <= |s| && OccursAt(s[n..], sub, i)
    ensures OccursAt(s, sub, n + i)
  {
    assert s[n..][i..i + |sub|] == s[n + i..n + i + |sub|];
  }

  /** Python's `s.split(sep)` for a non-empty separator; `re.split` on a literal
      pattern cuts the same way. */
  function Split(s: string, sep: string): (parts: seq<string>)
    requires |sep| > 0
    ensures |parts| >= 1
    decreases |s|
  {
    match FindFrom(s, sep, 0)
    case None => [s]
    case Some(j) => [s[..j]] + Split(s[j + |sep|..], sep)
  }

  /** Python's `sep.join(parts)`. */
  function Join(parts: seq<string>, sep: string): string
  {
    if parts == [] then []
    else if |parts| == 1 then parts[0]
    else parts[0] + sep + Join(parts[1..], sep)
  }

  /** Splitting loses nothing: joining the parts back with the separator gives the text. */
  lemma {:induction false} JoinSplit(s: string, sep: string)
    requires |sep| > 0
    ensures Join(Split(s, sep), sep) == s
    decreases |s|
  {
    match FindFrom(s, sep, 0)
    case None =>
    case Some(j) =>
      FindFromOccurs(s, sep, 0);
      var rest := s[j + |sep|..];
      JoinSplit(rest, sep);
      JoinCons(s[..j], Split(rest, sep), sep);
      assert s == s[..j] + s[j..j + |sep|] + rest;
  }

  lemma JoinCons(first: string, rest: seq<string>, sep: string)
    requires |rest| >= 1
    ensures Join([first] + rest, sep) == first + sep + Join(rest, sep)
  {
    assert ([first] + rest)[1..] == rest;
  }

  /** No part contains the separator; the text has a separator exactly when it splits
      into more than one part; the first part is the text before the first separator. */
  lemma {:induction false} SplitParts(s: string, sep: string)
    requires |sep| > 0
    ensures forall k :: 0 <= k < |Split(s, sep)| ==> !Contains(Split(s, sep)[k], sep)
    ensures Contains(s, sep) <==> |Split(s, sep)| > 1
    ensures FindFrom(s, sep, 0) == if |Split(s, sep)| > 1 then Some(|Split(s, sep)[0]|) else None
    ensures Split(s, sep)[0] == s[..|Split(s, sep)[0]|]
    decreases |s|
  {
    FindFromFirst(s, sep, 0);
    match FindFrom(s, sep, 0)
    case None =>
    case Some(j) =>
      var rest := s[j + |sep|..];
      SplitParts(rest, sep);
      var parts := Split(s, sep);
      assert parts == [s[..j]] + Split(rest, sep);
      if Contains(s[..j], sep) {
        FindFromFirst(s[..j], sep, 0);
        var i := FindFrom(s[..j], sep, 0).value;
        OccursInPrefix(s, sep, j, i);
      }
      forall k | 0 <= k < |parts|
        ensures !Contains(parts[k], sep)
      {
        if k > 0 {
          assert parts[k] == Split(rest, sep)[k - 1];
        }
      }
  }

  /** The last part is a suffix of the text, and (when there is more than one part)
      the separator sits right before it. */
  lemma SplitLast(s: string, sep: string)
    requires |sep| > 0
    ensures var parts := Split(s, sep); var last := parts[|parts| - 1];
      && |last| <= |s| && s[|s| - |last|..] == last
      && (|parts| > 1 ==> OccursAt(s, sep, |s| - |last| - |sep|))
  {
    SplitLastSuffix(s, sep);
    SplitLastSeparator(s, sep);
  }

  /** One step of `Split`: the text before the first separator, then the parts of the rest. */
  lemma SplitStep(s: string, sep: string, j: nat)
    requires |sep| > 0 && FindFrom(s, sep, 0) == Some(j)
    ensures j + |sep| <= |s|
    ensures Split(s, sep) == [s[..j]] + Split(s[j + |sep|..], sep)
  {
    assert FindFrom(s, sep, 0).value == j;
  }

  lemma LastOfCons(first: string, tail: seq<string>)
    requires |tail| > 0
    ensures |[first] + tail| == |tail| + 1 && ([first] + tail)[|tail|] == tail[|tail| - 1]
  {
  }

  lemma {:induction false} SplitLastSuffix(s: string, sep: string)
    requires |sep| > 0
    ensures var parts := Split(s, sep);
      |parts[|parts| - 1]| <= |s| && s[|s| - |parts[|parts| - 1]|..] == parts[|parts| - 1]
    decreases |s|
  {
    match FindFrom(s, sep, 0)
    case None =>
      assert Split(s, sep) == [s];
    case Some(j) =>
      SplitStep(s, sep, j);
      var rest := s[j + |sep|..];
      SplitLastSuffix(rest, sep);
      var tail := Split(rest, sep);
      LastOfCons(s[..j], tail);
      SuffixOfSuffix(s, j + |sep|, tail[|tail| - 1]);
  }

  lemma {:induction false} SplitLastSeparator(s: string, sep: string)
    requires |sep| > 0
    ensures var parts := Split(s, sep); var last := parts[|parts| - 1];
      |parts| > 1 ==> OccursAt(s, sep, |s| - |last| - |sep|)
    decreases |s|
  {
    match FindFrom(s, sep, 0)
    case None =>
      assert Split(s, sep) == [s];
    case Some(j) =>
      SplitStep(s, sep, j);
      var rest := s[j + |sep|..];
      var tail := Split(rest, sep);
      var last := tail[|tail| - 1];
      LastOfCons(s[..j], tail);
      SplitLastSuffix(rest, sep);
      if |tail| > 1 {
        SplitLastSeparator(rest, sep);
        OccursInSuffix(s, sep, j + |sep|, |rest| - |last| - |sep|);
      } else {
        assert tail == [rest];
        FindFromOccurs(s, sep, 0);
        assert |s| - |last| - |sep| == j;
      }
  }

  /** A suffix of a suffix of `s` is a suffix of `s`. */
  lemma SuffixOfSuffix(s: string, n: nat, t: string)
    requires n <= |s| && |t| <= |s| - n && s[n..][|s| - n - |t|..] == t
    ensures s[|s| - |t|..] == t
  {
    assert s[n..][|s| - n - |t|..] == s[|s| - |t|..];
  }

  /** Python's `s.startswith(p)`. */
  predicate StartsWith(s: string, p: string) {
    |p| <= |s| && s[..|p|] == p
  }

  /** Python's `s.replace(target, replacement)`: every non-overlapping occurrence, leftmost first. */
  function Replace(s: string, target: string, replacement: string): string
    requires |target| > 0
  {
    Join(Split(s, target), replacement)
  }

  /** Every `c` of `s` read as `d`, character by character. */
  function SwapChar(s: string, c: char, d: char): (r: string)
    ensures |r| == |s|
  {
    seq(|s|, k requires 0 <= k < |s| => if s[k] == c then d else s[k])
  }

  /** Replacing one character by another keeps the length and every other character. */
  lemma {:induction false} ReplaceChar(s: string, c: char, d: char)
    ensures Replace(s, [c], [d]) == SwapChar(s, c, d)
    decreases |s|
  {
    FindFromFirst(s, [c], 0);
    match FindFrom(s, [c], 0)
    case None =>
      forall k | 0 <= k < |s|
        ensures s[k] != c
      {
        assert !OccursAt(s, [c], k);
        assert s[k..k + 1] == [s[k]];
      }
      assert SwapChar(s, c, d) == s;
    case Some(j) =>
      var rest := s[j + 1..];
      assert Split(s, [c]) == [s[..j]] + Split(rest, [c]);
      JoinCons(s[..j], Split(rest, [c]), [d]);
      ReplaceChar(rest, c, d);
      assert s[j..j + 1] == [c];
      forall k | 0 <= k < j
        ensures s[k] != c
      {
        assert !OccursAt(s, [c], k);
        assert s[k..k + 1] == [s[k]];
      }
      assert SwapChar(s, c, d) == s[..j] + [d] + SwapChar(rest, c, d);
  }

  /** A text in which the first character of `target` never occurs is left as it is. */
  lemma ReplaceAbsent(s: string, target: string, replacement: string)
    requires |target| > 0 && forall k :: 0 <= k < |s| ==> s[k] != target[0]
    ensures Replace(s, target, replacement) == s
  {
    SplitAbsent(s, target);
  }

  /** Splitting a text in which the first character of the separator never occurs
      gives the text alone. */
  lemma SplitAbsent(s: string, sep: string)
    requires |sep| > 0 && forall k :: 0 <= k < |s| ==> s[k] != sep[0]
    ensures Split(s, sep) == [s]
  {
    FindFromFirst(s, sep, 0);
    forall j | 0 <= j && j + |sep| <= |s|
      ensures !OccursAt(s, sep, j)
    {
      assert s[j..j + |sep|][0] == s[j];
    }
  }

  /** Python's slice `xs[1:]`, which is empty for an empty list. */
  function Drop1<T>(xs: seq<T>): seq<T> {
    if xs == [] then [] else xs[1..]
  }

  function TrimStart(s: string): (r: string)
    ensures |r| <= |s| && r == s[|s| - |r|..]
    decreases |s|
  {
    if s != [] && IsSpace(s[0]) then TrimStart(s[1..]) else s
  }

  /** TrimStart removes exactly the leading white space. */
  lemma {:induction false} TrimStartSpaces(s: string)
    ensures var r := TrimStart(s);
      && (r == [] || !IsSpace(r[0]))
      && forall k :: 0 <= k < |s| - |r| ==> IsSpace(s[k])
    decreases |s|
  {
    if s != [] && IsSpace(s[0]) {
      TrimStartSpaces(s[1..]);
    }
  }

  function TrimEnd(s: string): (r: string)
    ensures |r| <= |s| && r == s[..|r|]
    decreases |s|
  {
    if s != [] && IsSpace(s[|s| - 1]) then TrimEnd(s[..|s| - 1]) else s
  }

  /** TrimEnd removes exactly the trailing white space. */
  lemma {:induction false} TrimEndSpaces(s: string)
    ensures var r := TrimEnd(s);
      && (r == [] || !IsSpace(r[|r| - 1]))
      && forall k :: |r| <= k < |s| ==> IsSpace(s[k])
    decreases |s|
  {
    if s != [] && IsSpace(s[|s| - 1]) {
      TrimEndSpaces(s[..|s| - 1]);
    }
  }

  /** Python's `s.strip()`. */
  function Strip(s: string): string {
    TrimEnd(TrimStart(s))
  }

  /** The length of the run of non-space characters that starts `s`. */
  function WordLength(s: string): (n: nat)
    ensures n <= |s|
    ensures forall k :: 0 <= k < n ==> !IsSpace(s[k])
    ensures n == |s| || IsSpace(s[n])
    decreases |s|
  {
    if s != [] && !IsSpace(s[0]) then 1 + WordLength(s[1..]) else 0
  }

  /** Python's `s.split()`: the maximal runs of non-space characters, in order. */
  function SplitWs(s: string): (tokens: seq<string>)
    decreases |s|
  {
    var t := TrimStart(s);
    if t == [] then []
    else
      var n := WordLength(t);
      [t[..n]] + SplitWs(t[n..])
  }

  /** `split()` yields no empty token. */
  lemma {:induction false} SplitWsTokens(s: string)
    ensures forall k :: 0 <= k < |SplitWs(s)| ==> SplitWs(s)[k] != []
    decreases |s|
  {
    var t := TrimStart(s);
    TrimStartSpaces(s);
    if t != [] {
      var n := WordLength(t);
      SplitWsTokens(t[n..]);
      var tokens := SplitWs(s);
      assert tokens == [t[..n]] + SplitWs(t[n..]);
      assert n > 0;
      forall k | 0 <= k < |tokens|
        ensures tokens[k] != []
      {
        if k > 0 {
          assert tokens[k] == SplitWs(t[n..])[k - 1];
        }
      }
    }
  }

  /** A line is blank after `strip()` exactly when `split()` finds no token in it. */
  lemma BlankIffNoTokens(s: string)
    ensures Strip(s) == [] <==> SplitWs(s) == []
  {
    var t := TrimStart(s);
    TrimStartSpaces(s);
    if t != [] {
      TrimEndSpaces(t);
      assert !IsSpace(t[0]);
      assert TrimEnd(t) != [];
    }
  }

  function LowerChar(c: char): char {
    if 'A' <= c <= 'Z' then (c as int + 32) as char else c
  }

  function UpperChar(c: char): char {
    if 'a' <= c <= 'z' then (c as int - 32) as char else c
  }

  /** Python's `s.lower()` on ASCII letters. */
  function Lower(s: string): (r: string)
    ensures |r| == |s| && forall k :: 0 <= k < |s| ==> r[k] == LowerChar(s[k])
  {
    seq(|s|, k requires 0 <= k < |s| => LowerChar(s[k]))
  }

  /** Python's `s.capitalize()` on ASCII letters: first character upper case, the rest lower. */
  function Capitalize(s: string): (r: string)
    ensures |r| == |s|
    ensures s != [] ==> r[0] == UpperChar(s[0]) && r[1..] == Lower(s[1..])
  {
    if s == [] then [] else [UpperChar(s[0])] + Lower(s[1..])
  }
}
