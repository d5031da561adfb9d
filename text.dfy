/**
 * The parts of Java's string and number library that the argument parser and the
 * dispatcher rely on: the regex whitespace class `\s`, `String.split("\\s+")` and
 * `split("\\s+", 2)[0]`, `Integer.toString` for positive counts, `Integer.parseInt`,
 * `Long.parseLong` and the decimal subset of `Float.parseFloat`.
 */
module Text {
  import opened Wrappers

  /** Java's regex class `\s`: space, tab, newline, vertical tab, form feed, carriage return. */
  predicate IsSpace(c: char) {
    c == ' ' || '\t' <= c <= '\r'
  }

  predicate NoSpace(s: string) {
    forall i :: 0 <= i < |s| ==> !IsSpace(s[i])
  }

  predicate IsDigit(c: char) {
    '0' <= c <= '9'
  }

  predicate AllDigits(s: string) {
    forall i :: 0 <= i < |s| ==> IsDigit(s[i])
  }

  function DigitValue(c: char): nat
    requires IsDigit(c)
  {
    c as int - '0' as int
  }

  function DigitChar(d: nat): (c: char)
    requires d < 10
    ensures IsDigit(c) && DigitValue(c) == d
  {
    ('0' as int + d) as char
  }

  // ---------------------------------------------------------------------------
  // Whitespace splitting
  // ---------------------------------------------------------------------------

  /** The longest prefix of `s` without whitespace: `s.split("\\s+", 2)[0]` for non-empty `s`. */
  function TakeWord(s: string): (w: string)
    ensures w <= s && NoSpace(w)
    ensures |w| < |s| ==> IsSpace(s[|w|])
  {
    if s == [] || IsSpace(s[0]) then [] else [s[0]] + TakeWord(s[1..])
  }

  /** `s` without its leading run of whitespace. */
  function DropSpaces(s: string): (r: string)
    ensures |r| <= |s| && r == s[|s| - |r|..]
    ensures r == [] || !IsSpace(r[0])
    ensures s != [] && IsSpace(s[0]) ==> |r| < |s|
  {
    if s != [] && IsSpace(s[0]) then DropSpaces(s[1..]) else s
  }

  /**
   * The pieces between the maximal whitespace runs of `s`, before Java drops trailing
   * empty strings: a leading run gives a leading "", a trailing run a trailing "".
   */
  function Pieces(s: string): (ps: seq<string>)
    ensures |ps| > 0
    ensures forall i :: 0 <= i < |ps| ==> NoSpace(ps[i])
    ensures forall i :: 0 < i < |ps| - 1 ==> ps[i] != []
    decreases |s|
  {
    var w := TakeWord(s);
    if |w| == |s| then [w] else [w] + Pieces(DropSpaces(s[|w|..]))
  }

  function DropTrailingEmpty(ps: seq<string>): (r: seq<string>)
    ensures r <= ps
    ensures r == [] || r[|r| - 1] != []
  {
    if ps != [] && ps[|ps| - 1] == [] then DropTrailingEmpty(ps[..|ps| - 1]) else ps
  }

  /**
   * `s.split("\\s+")`: the whitespace-separated words of `s`. A leading whitespace run
   * yields a leading empty word, trailing ones yield nothing, and a string without any
   * whitespace is its own single word (so "" splits into [""]).
   */
  function SplitWs(s: string): (r: seq<string>)
    ensures forall i :: 0 <= i < |r| ==> NoSpace(r[i])
    ensures forall i :: 0 < i < |r| ==> r[i] != []
  {
    if s == [] then [[]]
    else
      var ps := Pieces(s);
      var r := DropTrailingEmpty(ps);
      assert forall i :: 0 <= i < |r| ==> r[i] == ps[i];
      r
  }

  /** Words joined by single spaces: the inverse that SplitWs undoes. */
  function JoinSpaced(ws: seq<string>): string
    requires |ws| > 0
  {
    if |ws| == 1 then ws[0] else ws[0] + " " + JoinSpaced(ws[1..])
  }

  predicate ProperWords(ws: seq<string>) {
    forall i :: 0 <= i < |ws| ==> ws[i] != [] && NoSpace(ws[i])
  }

  lemma TakeWordOfWord(w: string)
    requires NoSpace(w)
    ensures TakeWord(w) == w
  {
  }

  lemma {:induction false} TakeWordBeforeSpace(w: string, t: string)
    requires NoSpace(w) && t != [] && IsSpace(t[0])
    ensures TakeWord(w + t) == w
  {
    if w != [] {
      assert (w + t)[1..] == w[1..] + t;
      TakeWordBeforeSpace(w[1..], t);
    } else {
      assert w + t == t;
    }
  }

  lemma {:induction false} JoinSpacedStart(ws: seq<string>)
    requires |ws| > 0
    ensures ws[0] <= JoinSpaced(ws)
  {
  }

  /** One separating space in front of a word is all that DropSpaces removes. */
  lemma DropOneSpace(rest: string)
    requires rest != [] && !IsSpace(rest[0])
    ensures DropSpaces(" " + rest) == rest
  {
    assert (" " + rest)[1..] == rest;
  }

  /** Pieces peels off the first word and continues after the whitespace behind it. */
  lemma PiecesStep(w: string, tail: string, rest: string)
    requires NoSpace(w) && tail != [] && IsSpace(tail[0]) && DropSpaces(tail) == rest
    ensures Pieces(w + tail) == [w] + Pieces(rest)
  {
    TakeWordBeforeSpace(w, tail);
    assert (w + tail)[|w|..] == tail;
  }

  /** Joining one more word in front adds exactly that piece. */
  lemma PiecesOfJoinCons(ws: seq<string>)
    requires |ws| > 1 && ProperWords(ws)
    ensures Pieces(JoinSpaced(ws)) == [ws[0]] + Pieces(JoinSpaced(ws[1..]))
  {
    var rest := JoinSpaced(ws[1..]);
    JoinSpacedStart(ws[1..]);
    assert rest[0] == ws[1][0];
    DropOneSpace(rest);
    PiecesStep(ws[0], " " + rest, rest);
    assert JoinSpaced(ws) == ws[0] + (" " + rest);
  }

  lemma {:induction false} PiecesOfJoin(ws: seq<string>)
    requires |ws| > 0 && ProperWords(ws)
    ensures Pieces(JoinSpaced(ws)) == ws
    decreases |ws|
  {
    if |ws| == 1 {
      TakeWordOfWord(ws[0]);
    } else {
      PiecesOfJoinCons(ws);
      PiecesOfJoin(ws[1..]);
      assert [ws[0]] + ws[1..] == ws;
    }
  }

  /** Round trip: splitting words joined by single spaces gives the words back. */
  lemma SplitJoin(ws: seq<string>)
    requires |ws| > 0 && ProperWords(ws)
    ensures SplitWs(JoinSpaced(ws)) == ws
  {
    JoinSpacedStart(ws);
    PiecesOfJoin(ws);
  }

  // ---------------------------------------------------------------------------
  // Decimal numbers
  // ---------------------------------------------------------------------------

  /** The value of a run of decimal digits (0 for the empty run). */
  function DigitsValue(s: string): nat
    requires AllDigits(s)
  {
    if s == [] then 0 else DigitsValue(s[..|s| - 1]) * 10 + DigitValue(s[|s| - 1])
  }

  /** `Integer.toString(n)` for `n >= 0`: decimal digits without a leading zero. */
  function NatToString(n: nat): (s: string)
    ensures |s| > 0 && AllDigits(s)
    ensures s[0] == '0' ==> n == 0
  {
    if n < 10 then [DigitChar(n)] else NatToString(n / 10) + [DigitChar(n % 10)]
  }

  lemma {:induction false} NatToStringValue(n: nat)
    ensures DigitsValue(NatToString(n)) == n
  {
    if n >= 10 {
      var s := NatToString(n);
      assert s[..|s| - 1] == NatToString(n / 10);
      NatToStringValue(n / 10);
    }
  }

  const INT_MIN: int := -0x8000_0000
  const INT_MAX: int := 0x7FFF_FFFF
  const LONG_MIN: int := -0x8000_0000_0000_0000
  const LONG_MAX: int := 0x7FFF_FFFF_FFFF_FFFF

  /** `[+-]?digits` with at least one digit, and its mathematical value. */
  function SignedDecimal(s: string): Option<int> {
    if |s| > 0 && (s[0] == '+' || s[0] == '-') then
      if |s| > 1 && AllDigits(s[1..]) then
        Some(if s[0] == '-' then -(DigitsValue(s[1..]) as int) else DigitsValue(s[1..]) as int)
      else None
    else if |s| > 0 && AllDigits(s) then Some(DigitsValue(s))
    else None
  }

  /** `Integer.parseInt(s)`: a signed decimal in 32-bit range, or None for NumberFormatException. */
  function ParseInt(s: string): (r: Option<int>)
    ensures r.Some? ==> INT_MIN <= r.value <= INT_MAX && SignedDecimal(s) == r
    ensures r.None? ==> SignedDecimal(s).None? || SignedDecimal(s).value < INT_MIN || INT_MAX < SignedDecimal(s).value
  {
    match SignedDecimal(s)
    case Some(v) => if INT_MIN <= v <= INT_MAX then Some(v) else None
    case None => None
  }

  /** Whether `Long.parseLong(s)` returns normally (a `null` argument throws). */
  predicate IsLong(s: Option<string>) {
    s.Some? && SignedDecimal(s.value).Some? && LONG_MIN <= SignedDecimal(s.value).value <= LONG_MAX
  }

  /**
   * Integer.parseInt inverts Integer.toString on the non-negative ints, with or
   * without a '+' sign, and on their negations; beyond INT_MAX it fails.
   */
  lemma ParseIntOfString(n: nat)
    ensures ParseInt(NatToString(n)).Some? <==> n <= INT_MAX
    ensures n <= INT_MAX ==> ParseInt(NatToString(n)) == Some(n)
    ensures n <= INT_MAX ==> ParseInt("+" + NatToString(n)) == Some(n)
    ensures n <= -INT_MIN ==> ParseInt("-" + NatToString(n)) == Some(-(n as int))
  {
    var s := NatToString(n);
    NatToStringValue(n);
    assert ("+" + s)[1..] == s;
    assert ("-" + s)[1..] == s;
  }

  // ---------------------------------------------------------------------------
  // Float.parseFloat on what the float slot can capture
  // ---------------------------------------------------------------------------

  function Pow10(n: nat): (p: nat)
    ensures p > 0
  {
    if n == 0 then 1 else 10 * Pow10(n - 1)
  }

  /** The length of the leading run of digits of `s`. */
  function LeadingDigits(s: string): (k: nat)
    ensures k <= |s| && AllDigits(s[..k])
    ensures k < |s| ==> !IsDigit(s[k])
  {
    if s == [] || !IsDigit(s[0]) then 0
    else
      var k := 1 + LeadingDigits(s[1..]);
      assert s[..k] == [s[0]] + s[1..][..k - 1];
      k
  }

  function Signed(negative: bool, x: real): real {
    if negative then -x else x
  }

  /**
   * `Float.parseFloat(s)` for text of the form `[+-]?digits?(.digits?)?`, the only form the
   * float slot captures: the exact decimal value when the text holds at least one digit,
   * None (NumberFormatException) when it holds none ("+", ".", "-.") or anything else.
   */
  function ParseFloat(s: string): Option<real> {
    var negative := |s| > 0 && s[0] == '-';
    var body := if |s| > 0 && (s[0] == '+' || s[0] == '-') then s[1..] else s;
    var k := LeadingDigits(body);
    var whole := body[..k];
    var rest := body[k..];
    if rest == [] then
      if whole == [] then None else Some(Signed(negative, DigitsValue(whole) as real))
    else if rest[0] == '.' && AllDigits(rest[1..]) && (|whole| > 0 || |rest| > 1) then
      Some(Signed(negative, DigitsValue(whole) as real + DigitsValue(rest[1..]) as real / Pow10(|rest| - 1) as real))
    else None
  }

  lemma AllDigitsLead(s: string)
    requires AllDigits(s)
    ensures LeadingDigits(s) == |s|
  {
  }

  /** Every text Integer.parseInt accepts, Float.parseFloat accepts with the same value. */
  lemma IntIsFloat(s: string)
    requires ParseInt(s).Some?
    ensures ParseFloat(s) == Some(ParseInt(s).value as real)
  {
    var body := if |s| > 0 && (s[0] == '+' || s[0] == '-') then s[1..] else s;
    AllDigitsLead(body);
    assert body[..|body|] == body;
  }

  /** A text Float.parseFloat accepts contains a digit. */
  lemma FloatNeedsDigit(s: string)
    requires ParseFloat(s).Some?
    ensures exists i :: 0 <= i < |s| && IsDigit(s[i])
  {
    var off := if |s| > 0 && (s[0] == '+' || s[0] == '-') then 1 else 0;
    var body := s[off..];
    var k := LeadingDigits(body);
    if k > 0 {
      assert IsDigit(s[off]);
    } else {
      assert body[k..][1] == s[off + 1];
      assert IsDigit(s[off + 1]);
    }
  }
}
