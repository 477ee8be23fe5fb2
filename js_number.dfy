/**
 * Which strings JavaScript's `Number(s)` reads as a number rather than NaN:
 * the StringNumericLiteral grammar of ECMAScript (section 7.1.4.1.1 of
 * ECMA-262). Surrounding white space is ignored, an empty string is 0, and
 * the rest is a signed decimal (with fraction, exponent or `Infinity`) or an
 * unsigned 0x/0o/0b integer. The grammar is regular; it is written here as
 * the automaton that reads it one character at a time.
 */
module JsNumber {
  import opened Text

  /** A digit of base 2, 8 or 16. */
  predicate IsRadixDigit(base: nat, c: char) {
    if base == 2 then c == '0' || c == '1'
    else if base == 8 then '0' <= c <= '7'
    else IsDigit(c) || 'a' <= c <= 'f' || 'A' <= c <= 'F'
  }

  /**
   * How much of a numeric literal has been read:
   * - `Start`: nothing yet.
   * - `Signed`: a sign.
   * - `Zero`: a leading 0, which may open a 0x/0o/0b prefix.
   * - `Int`: integer digits.
   * - `Dot`: a point with no digit before it.
   * - `Frac`: a point after or before digits.
   * - `ExpMark`: the `e`/`E` of an exponent.
   * - `ExpSign`: the exponent's sign.
   * - `Exp`: exponent digits.
   * - `Radix`: a 0x/0o/0b prefix.
   * - `RadixDigits`: digits after such a prefix.
   * - `Inf(k)`: the first k letters of `Infinity`.
   * - `Dead`: not a number.
   */
  datatype NumState =
    | Start | Signed | Zero | Int | Dot | Frac | ExpMark | ExpSign | Exp
    | Radix(base: nat) | RadixDigits(base: nat) | Inf(k: nat) | Trail | Dead

  const InfinityText: string := "Infinity"

  /** One character read in state `st`. */
  function Step(st: NumState, c: char): NumState {
    var next := LiteralStep(st, c);
    if next != Dead || !IsJsWhitespace(c) then next
    else if st == Start then Start
    else if IsFinal(st) then Trail
    else Dead
  }

  /** One character of the literal itself read in state `st`; white space is never one. */
  function LiteralStep(st: NumState, c: char): NumState {
    match st
    case Start =>
      if c == '+' || c == '-' then Signed
      else if c == '0' then Zero
      else if IsDigit(c) then Int
      else if c == '.' then Dot
      else if c == 'I' then Inf(1)
      else Dead
    case Signed =>
      if IsDigit(c) then Int else if c == '.' then Dot else if c == 'I' then Inf(1) else Dead
    case Zero =>
      if IsDigit(c) then Int
      else if c == '.' then Frac
      else if c == 'e' || c == 'E' then ExpMark
      else if c == 'x' || c == 'X' then Radix(16)
      else if c == 'o' || c == 'O' then Radix(8)
      else if c == 'b' || c == 'B' then Radix(2)
      else Dead
    case Int =>
      if IsDigit(c) then Int else if c == '.' then Frac else if c == 'e' || c == 'E' then ExpMark else Dead
    case Dot =>
      if IsDigit(c) then Frac else Dead
    case Frac =>
      if IsDigit(c) then Frac else if c == 'e' || c == 'E' then ExpMark else Dead
    case ExpMark =>
      if c == '+' || c == '-' then ExpSign else if IsDigit(c) then Exp else Dead
    case ExpSign =>
      if IsDigit(c) then Exp else Dead
    case Exp =>
      if IsDigit(c) then Exp else Dead
    case Radix(b) =>
      if IsRadixDigit(b, c) then RadixDigits(b) else Dead
    case RadixDigits(b) =>
      if IsRadixDigit(b, c) then RadixDigits(b) else Dead
    case Inf(k) =>
      if 0 < k < |InfinityText| && c == InfinityText[k] then Inf(k + 1) else Dead
    case Trail => Dead
    case Dead => Dead
  }

  /** The states in which a complete literal has been read; `Start` is the empty text, which is 0. */
  predicate IsFinal(st: NumState) {
    st == Start || st == Zero || st == Int || st == Frac || st == Exp || st.RadixDigits?
    || st == Inf(|InfinityText|) || st == Trail
  }

  /** Reading all of `t` from state `st` ends in a final state. */
  predicate Accepts(t: string, st: NumState) {
    if t == [] then IsFinal(st)
    else
      var next := Step(st, t[0]);
      next != Dead && Accepts(t[1..], next)
  }

  /** `!isNaN(Number(s))` for a string `s`. */
  predicate ParsesAsNumber(s: string) {
    Accepts(s, Start)
  }

  /** The characters a number can be written with, white space included. */
  predicate IsNumberChar(c: char) {
    || IsDigit(c) || ('a' <= c <= 'f') || ('A' <= c <= 'F') || IsJsWhitespace(c)
    || c == '.' || c == '+' || c == '-' || c == 'x' || c == 'X' || c == 'o' || c == 'O'
    || c == 'I' || c == 'n' || c == 'i' || c == 't' || c == 'y'
  }

  /** Every character the automaton does not reject is a number character. */
  lemma StepChar(st: NumState, c: char)
    requires Step(st, c) != Dead
    ensures IsNumberChar(c)
  {
    if st.Inf? && LiteralStep(st, c) != Dead {
      assert c in InfinityText;
    }
  }

  lemma {:induction false} AcceptedChars(t: string, st: NumState)
    requires Accepts(t, st)
    ensures forall i :: 0 <= i < |t| ==> IsNumberChar(t[i])
  {
    if t != [] {
      StepChar(st, t[0]);
      AcceptedChars(t[1..], Step(st, t[0]));
      assert forall i :: 1 <= i < |t| ==> t[i] == t[1..][i - 1];
    }
  }

  /** A string that reads as a number is made of number characters only. */
  lemma NumberChars(s: string)
    requires ParsesAsNumber(s)
    ensures forall i :: 0 <= i < |s| ==> IsNumberChar(s[i])
  {
    AcceptedChars(s, Start);
  }

  lemma SeparatorsAreNotNumberChars()
    ensures !IsNumberChar(',') && !IsNumberChar(':') && !IsNumberChar('/') && !IsNumberChar('?')
  {
  }

  /** A number never holds the separators of a cart path. */
  lemma NoPathSeparators(s: string)
    requires ParsesAsNumber(s)
    ensures ',' !in s && ':' !in s && '/' !in s && '?' !in s
  {
    NumberChars(s);
    SeparatorsAreNotNumberChars();
  }

  /** After a first digit, a run of digits keeps the literal complete. */
  lemma {:induction false} DigitsAccepted(t: string, st: NumState)
    requires st == Zero || st == Int
    requires AllDigits(t)
    ensures Accepts(t, st)
  {
    if t != [] {
      assert Step(st, t[0]) == Int;
      DigitsAccepted(t[1..], Int);
    }
  }

  /** Every non-empty run of decimal digits reads as a number. */
  lemma DigitsParse(s: string)
    requires |s| > 0 && AllDigits(s)
    ensures ParsesAsNumber(s)
  {
    DigitsAccepted(s[1..], Step(Start, s[0]));
  }

  /** Digits leave the integer, fraction and exponent states where they are. */
  lemma {:induction false} DigitRun(t: string, st: NumState, rest: string)
    requires st == Int || st == Frac || st == Exp
    requires AllDigits(t)
    ensures Accepts(t + rest, st) <==> Accepts(rest, st)
  {
    if t != [] {
      assert (t + rest)[0] == t[0] && (t + rest)[1..] == t[1..] + rest;
      assert Step(st, t[0]) == st;
      DigitRun(t[1..], st, rest);
    } else {
      assert t + rest == rest;
    }
  }

  /** `e` and a run of digits complete a literal after a fraction. */
  lemma ExponentAccepted(exp: string)
    requires |exp| > 0 && AllDigits(exp)
    ensures Accepts(['e'] + exp, Frac)
  {
    DigitRun(exp[1..], Exp, []);
    assert exp[1..] + [] == exp[1..];
    assert Step(ExpMark, exp[0]) == Exp;
    assert Accepts(exp, ExpMark);
    assert (['e'] + exp)[1..] == exp;
  }

  /** A point followed by an accepted fraction completes a literal begun with integer digits. */
  lemma PointAccepted(t: string, st: NumState)
    requires st == Int || st == Zero
    requires Accepts(t, Frac)
    ensures Accepts(['.'] + t, st)
  {
    assert (['.'] + t)[1..] == t;
  }

  /** Digits, a point, digits, `e` and digits: a number in exponent form. */
  lemma ExponentFormParses(whole: string, frac: string, exp: string)
    requires |whole| > 0 && AllDigits(whole) && AllDigits(frac) && |exp| > 0 && AllDigits(exp)
    ensures ParsesAsNumber(whole + "." + frac + "e" + exp)
  {
    var expPart := ['e'] + exp;
    ExponentAccepted(exp);
    DigitRun(frac, Frac, expPart);
    var fracPart := ['.'] + (frac + expPart);
    var s := whole + fracPart;
    assert s == whole + "." + frac + "e" + exp;
    var first := Step(Start, whole[0]);
    assert first == Zero || first == Int;
    PointAccepted(frac + expPart, first);
    PointAccepted(frac + expPart, Int);
    assert s[1..] == whole[1..] + fracPart;
    if |whole| > 1 {
      assert Step(first, whole[1]) == Int;
      DigitRun(whole[2..], Int, fracPart);
      assert s[1..][1..] == whole[2..] + fracPart;
    } else {
      assert s[1..] == fracPart;
    }
  }

  /** After a 0x/0o/0b prefix, a run of digits of that base keeps the literal complete. */
  lemma {:induction false} RadixDigitsAccepted(t: string, base: nat)
    requires forall i :: 0 <= i < |t| ==> IsRadixDigit(base, t[i])
    ensures Accepts(t, RadixDigits(base))
  {
    if t != [] {
      assert LiteralStep(RadixDigits(base), t[0]) == RadixDigits(base);
      RadixDigitsAccepted(t[1..], base);
    }
  }

  /** White space in front of a string does not change whether it reads as a number. */
  lemma {:induction false} LeadingSpaceIgnored(w: string, s: string)
    requires forall i :: 0 <= i < |w| ==> IsJsWhitespace(w[i])
    ensures ParsesAsNumber(w + s) == ParsesAsNumber(s)
  {
    if w == [] {
      assert w + s == s;
    } else {
      assert (w + s)[0] == w[0] && (w + s)[1..] == w[1..] + s;
      assert LiteralStep(Start, w[0]) == Dead;
      assert Step(Start, w[0]) == Start;
      LeadingSpaceIgnored(w[1..], s);
    }
  }

  /** `0x` followed by one or more hexadecimal digits reads as a number. */
  lemma HexParses(digits: string)
    requires |digits| > 0 && forall i :: 0 <= i < |digits| ==> IsRadixDigit(16, digits[i])
    ensures ParsesAsNumber("0x" + digits)
  {
    var s := "0x" + digits;
    RadixDigitsAccepted(digits[1..], 16);
    assert LiteralStep(Radix(16), digits[0]) == RadixDigits(16);
    assert s[2..] == digits && digits[1..] == s[3..];
    assert Accepts(s[2..], Radix(16));
    assert Accepts(s[1..], Zero);
  }

  /** The rest of `Infinity` after its first k letters completes the literal. */
  lemma {:induction false} InfinityTail(k: nat)
    requires 1 <= k <= |InfinityText|
    ensures Accepts(InfinityText[k..], Inf(k))
    decreases |InfinityText| - k
  {
    if k < |InfinityText| {
      var t := InfinityText[k..];
      InfinityTail(k + 1);
      assert t[0] == InfinityText[k] && t[1..] == InfinityText[k + 1..];
      InfinityStep(t, k);
    }
  }

  /** One letter of `Infinity` read in state `Inf(k)`. */
  lemma InfinityStep(t: string, k: nat)
    requires 1 <= k < |InfinityText| && t != [] && t[0] == InfinityText[k]
    requires Accepts(t[1..], Inf(k + 1))
    ensures Accepts(t, Inf(k))
  {
    assert LiteralStep(Inf(k), t[0]) == Inf(k + 1);
  }

  /** `Infinity` completes a literal from the start or after a sign. */
  lemma InfinityAccepted(st: NumState)
    requires st == Start || st == Signed
    ensures Accepts(InfinityText, st)
  {
    InfinityTail(1);
    assert Step(st, InfinityText[0]) == Inf(1);
  }

  /** `Infinity`, with or without a sign, reads as a number. */
  lemma InfinityParses(sign: string)
    requires sign == "" || sign == "+" || sign == "-"
    ensures ParsesAsNumber(sign + InfinityText)
  {
    var t := sign + InfinityText;
    if sign == "" {
      assert t == InfinityText;
      InfinityAccepted(Start);
    } else {
      assert t[1..] == InfinityText;
      InfinityAccepted(Signed);
    }
  }

  /** From a run of digits, a letter other than a number letter ends all hope of a number. */
  lemma {:induction false} LetterAfterDigits(t: string, st: NumState, c: char, rest: string)
    requires st == Zero || st == Int
    requires AllDigits(t)
    requires 'a' <= c <= 'z' && c != 'e' && c != 'o' && c != 'b' && c != 'x'
    ensures !Accepts(t + [c] + rest, st)
  {
    var s := t + [c] + rest;
    if t == [] {
      assert s[0] == c;
    } else {
      assert s[0] == t[0] && s[1..] == t[1..] + [c] + rest;
      LetterAfterDigits(t[1..], Int, c, rest);
    }
  }

  /** Digits followed by a letter that no literal continues with are not a number. */
  lemma TrailingLettersDoNotParse(digits: string, c: char, rest: string)
    requires |digits| > 0 && AllDigits(digits)
    requires 'a' <= c <= 'z' && c != 'e' && c != 'o' && c != 'b' && c != 'x'
    ensures !ParsesAsNumber(digits + [c] + rest)
  {
    var s := digits + [c] + rest;
    assert s[0] == digits[0] && s[1..] == digits[1..] + [c] + rest;
    LetterAfterDigits(digits[1..], Step(Start, digits[0]), c, rest);
  }

  /** A sign rules out the 0x prefix: a signed hexadecimal literal is never a number. */
  lemma SignedHexDoesNotParse(sign: char, rest: string)
    requires sign == '+' || sign == '-'
    ensures !ParsesAsNumber([sign, '0', 'x'] + rest)
  {
    var s := [sign, '0', 'x'] + rest;
    assert s[0] == sign && Step(Start, sign) == Signed;
    assert s[1..][0] == '0' && Step(Signed, '0') == Int;
    assert s[1..][1..] == ['x'] + rest;
    assert !Accepts(['x'] + rest, Int);
    assert !Accepts(s[1..], Signed);
  }
}
