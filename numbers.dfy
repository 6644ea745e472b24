/** Numeric tokens: which strings Python's float() and int() accept, the decoder's two
    token helpers (fort2py, isfloatstring) and the unit conversions it asks the units
    library for. A parsed number is represented by the literal it was read from;
    the rounding to a double and the conversion factors belong to Python and to the
    units library and are not modelled. */
module Numbers {
  import opened Outcomes
  import opened Text

  /** The double Python's float() makes of `literal`. */
  datatype Float = Float(literal: string)

  /** `Energy(x, "Ha").to("eV")`: the energy of `hartree` Hartree, in eV. */
  datatype Energy = EnergyEv(hartree: Float)

  /** `FloatWithUnit(x, "kJ mol^-1").to("eV atom^-1")`: a correction given in kJ/mol, in eV per atom. */
  datatype Correction = CorrectionEv(kjPerMol: Float)

  predicate IsDigit(c: char) {
    '0' <= c <= '9'
  }

  /** The length of the longest prefix of `s` of the form digit (["_"] digit)*, 0 when
      `s` does not start with a digit. */
  function DigitPartLength(s: string): (n: nat)
    ensures n <= |s|
    ensures n > 0 ==> IsDigit(s[0]) && IsDigit(s[n - 1])
    ensures forall k :: 0 <= k < n ==> IsDigit(s[k]) || s[k] == '_'
    decreases |s|
  {
    if s == [] || !IsDigit(s[0]) then 0
    else if |s| >= 3 && s[1] == '_' && IsDigit(s[2]) then 2 + DigitPartLength(s[2..])
    else 1 + DigitPartLength(s[1..])
  }

  function DropSign(s: string): string {
    if s != [] && (s[0] == '+' || s[0] == '-') then s[1..] else s
  }

  predicate IsDigitPart(s: string) {
    s != [] && DigitPartLength(s) == |s|
  }

  /** An optional exponent: empty, or e/E, an optional sign and a digit part. */
  predicate IsExponent(s: string) {
    s == [] || ((s[0] == 'e' || s[0] == 'E') && IsDigitPart(DropSign(s[1..])))
  }

  /** digitpart ["." [digitpart]] [exponent]  |  "." digitpart [exponent] */
  predicate IsDecimal(s: string) {
    var n := DigitPartLength(s);
    if n > 0 then
      var r := s[n..];
      if r != [] && r[0] == '.' then IsExponent(r[1 + DigitPartLength(r[1..])..])
      else IsExponent(r)
    else
      && s != [] && s[0] == '.'
      && DigitPartLength(s[1..]) > 0
      && IsExponent(s[1 + DigitPartLength(s[1..])..])
  }

  /** The strings Python's float() accepts (ASCII digits). */
  predicate IsFloatLiteral(s: string) {
    var body := DropSign(Strip(s));
    Lower(body) in {"inf", "infinity", "nan"} || IsDecimal(body)
  }

  /** float(token), raising ValueError on a token that is not a literal. */
  function ParseFloat(token: string): (r: Result<Float>)
    ensures r.Ok? <==> IsFloatLiteral(token)
    ensures r.Ok? ==> r.value == Float(token)
    ensures r.Err? ==> r.error == ValueError(token)
  {
    if IsFloatLiteral(token) then Ok(Float(token)) else Err(ValueError(token))
  }

  /** `[float(t) for t in tokens]`: every token parsed, or the ValueError of a token
      that is not a literal (the first such token, as the comprehension runs left to right). */
  function ParseFloats(tokens: seq<string>): (r: Result<seq<Float>>)
    ensures r.Ok? <==> forall k :: 0 <= k < |tokens| ==> IsFloatLiteral(tokens[k])
    ensures r.Ok? ==> |r.value| == |tokens| && forall k :: 0 <= k < |tokens| ==> r.value[k] == Float(tokens[k])
    ensures r.Err? ==> r.error.ValueError? && r.error.literal in tokens && !IsFloatLiteral(r.error.literal)
    decreases |tokens|
  {
    if tokens == [] then Ok([])
    else
      var first :- ParseFloat(tokens[0]);
      var rest :- ParseFloats(tokens[1..]);
      Ok([first] + rest)
  }

  /** Three tokens parsed: the three values, in order. */
  lemma ParseThree(tokens: seq<string>)
    requires |tokens| == 3 && ParseFloats(tokens).Ok?
    ensures ParseFloats(tokens).value == [Float(tokens[0]), Float(tokens[1]), Float(tokens[2])]
  {
    var fs := ParseFloats(tokens).value;
    assert fs[0] == Float(tokens[0]) && fs[1] == Float(tokens[1]) && fs[2] == Float(tokens[2]);
    assert fs == [fs[0], fs[1], fs[2]];
  }

  /** The strings Python's int() accepts in base 10. */
  predicate IsIntLiteral(s: string) {
    IsDigitPart(DropSign(Strip(s)))
  }

  /** The value of a run of digits, underscores skipped. */
  function DigitsValue(d: string): nat
    decreases |d|
  {
    if d == [] then 0
    else if IsDigit(d[|d| - 1]) then 10 * DigitsValue(d[..|d| - 1]) + (d[|d| - 1] as int - '0' as int)
    else DigitsValue(d[..|d| - 1])
  }

  /** int(s) for a string that IsIntLiteral accepts. */
  function IntValue(s: string): int {
    var t := Strip(s);
    if t != [] && t[0] == '-' then 0 - DigitsValue(t[1..]) as int else DigitsValue(DropSign(t))
  }

  /** The decoder's fort2py: a Fortran exponent letter D becomes e. */
  function Fort2Py(token: string): string {
    Replace(token, "D", "e")
  }

  /** The decoder's isfloatstring, which, despite its name, holds when the token has
      NO decimal point; a Hessian row whose second token passes it is skipped. */
  predicate IsFloatString(token: string) {
    !Contains(token, ".")
  }

  /** The decoder's isfloatstring holds exactly when no character of the token is a
      decimal point. */
  lemma IsFloatStringIff(token: string)
    ensures IsFloatString(token) <==> forall k :: 0 <= k < |token| ==> token[k] != '.'
  {
    ContainsIff(token, ".");
    if exists k :: 0 <= k < |token| && token[k] == '.' {
      var k :| 0 <= k < |token| && token[k] == '.';
      assert OccursAt(token, ".", k);
    }
    if Contains(token, ".") {
      var j :| OccursAt(token, ".", j);
      assert token[j..j + 1][0] == token[j];
    }
  }

  /** fort2py keeps the length and every character except D, which becomes e. */
  lemma Fort2PySwapsD(token: string)
    ensures Fort2Py(token) == SwapChar(token, 'D', 'e')
  {
    ReplaceChar(token, 'D', 'e');
  }

  /** fort2py applied to every token. */
  function Fort2PyAll(tokens: seq<string>): (r: seq<string>)
    ensures |r| == |tokens| && forall k :: 0 <= k < |tokens| ==> r[k] == Fort2Py(tokens[k])
  {
    seq(|tokens|, k requires 0 <= k < |tokens| => Fort2Py(tokens[k]))
  }
}
