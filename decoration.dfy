/**
 * The line decoration done by `WrappedProcess.decorate_and_print`: every line a
 * child writes on its output or error pipe is shown on the console with a
 * background colour chosen by the member's rank, the rank itself, the separator
 * "| ", the line without its trailing newline, and then "erase to end of line"
 * and "reset attributes".  The escape sequences are ECMA-48 control functions:
 * SGR (Select Graphic Rendition, section 8.3.117 of ECMA-48) and EL (Erase in
 * Line, section 8.3.41 of ECMA-48).
 */
module Decoration {
  import opened Wrappers

  /** The escape character, code 0x1B. */
  const ESC: char := '\U{1B}'

  /** The four background colours of the rank table. */
  datatype Color = Red | Green | Blue | Magenta

  /** The failure of the colour lookup: the rank has no entry in the table. */
  datatype DecorateError = NoColorForRank(rank: nat)

  /** The SGR parameter that selects `c` as the background colour. */
  function SgrCode(c: Color): (code: nat)
    ensures 40 <= code <= 47  // SGR 40..47 select a background colour
  {
    match c
    case Red => 41
    case Green => 42
    case Blue => 44
    case Magenta => 45
  }

  /** The fixed rank-to-colour table; ranks outside it have no entry. */
  function BackgroundColor(rank: nat): (r: Option<Color>)
    ensures r.Some? <==> rank < 4
  {
    if rank == 0 then Some(Red)
    else if rank == 1 then Some(Green)
    else if rank == 2 then Some(Blue)
    else if rank == 3 then Some(Magenta)
    else None
  }

  /** Distinct ranks of the table get distinct background codes. */
  lemma BackgroundCodesDistinct(a: nat, b: nat)
    requires a < 4 && b < 4 && a != b
    ensures SgrCode(BackgroundColor(a).value) != SgrCode(BackgroundColor(b).value)
  {
  }

  predicate IsDigit(ch: char) {
    '0' <= ch <= '9'
  }

  function DigitChar(d: nat): (ch: char)
    requires d < 10
    ensures IsDigit(ch) && DigitValue(ch) == d
  {
    (48 + d) as char
  }

  function DigitValue(ch: char): nat
    requires IsDigit(ch)
  {
    ch as nat - 48
  }

  lemma DigitCharOfValue(ch: char)
    requires IsDigit(ch)
    ensures DigitChar(DigitValue(ch)) == ch
  {
  }

  /** The decimal rendering of `n`, as Python's str() gives it for a non-negative int. */
  function Decimal(n: nat): (r: string)
    ensures |r| >= 1
    ensures forall i :: 0 <= i < |r| ==> IsDigit(r[i])
    ensures (|r| == 1) == (n < 10)
    ensures r[0] == '0' ==> n == 0  // no leading zero
  {
    if n < 10 then [DigitChar(n)] else Decimal(n / 10) + [DigitChar(n % 10)]
  }

  /** The value of a string of decimal digits. */
  function ParseDecimal(s: string): nat
    requires forall i :: 0 <= i < |s| ==> IsDigit(s[i])
  {
    if s == [] then 0 else 10 * ParseDecimal(s[..|s| - 1]) + DigitValue(s[|s| - 1])
  }

  /** Reading the rendering back gives the number. */
  lemma {:induction false} DecimalRoundTrip(n: nat)
    ensures ParseDecimal(Decimal(n)) == n
  {
    var r := Decimal(n);
    if n >= 10 {
      DecimalRoundTrip(n / 10);
      assert r[..|r| - 1] == Decimal(n / 10);
    } else {
      assert r[..0] == [];
    }
  }

  predicate EndsWithNewline(line: string) {
    |line| > 0 && line[|line| - 1] == '\n'
  }

  /** The line with at most one trailing newline removed. */
  function StripNewline(line: string): (r: string)
    ensures EndsWithNewline(line) ==> r + "\n" == line
    ensures !EndsWithNewline(line) ==> r == line
  {
    if EndsWithNewline(line) then line[..|line| - 1] else line
  }

  /** Only one newline goes, and nothing before it changes. */
  lemma StripRemovesOnlyOne(text: string)
    ensures StripNewline(text + "\n") == text
    ensures StripNewline(text + "\n\n") == text + "\n"
  {
  }

  /** The SGR control function that selects background colour `c`. */
  function SetBackground(c: Color): (r: string)
    ensures |r| == 5 && r[0] == ESC && r[1] == '[' && r[4] == 'm'
    ensures forall i :: 2 <= i < 4 ==> IsDigit(r[i])
    ensures ParseDecimal(r[2..4]) == SgrCode(c)  // the parameter is the colour's code
  {
    var r := [ESC, '['] + Decimal(SgrCode(c)) + "m";
    DecimalRoundTrip(SgrCode(c));
    assert r[2..4] == Decimal(SgrCode(c));
    r
  }

  /** EL with parameter 0 (erase to the end of the line), then SGR 0 (reset),
    * then the newline that print adds. */
  const Trailer: string := [ESC, '[', 'K', ESC, '[', '0', 'm', '\n']

  /**
   * The console line that `decorate_and_print` writes for `line` on the member
   * of rank `rank`, newline included; the colour lookup fails for a rank
   * outside the table.
   */
  function Decorate(rank: nat, line: string): (r: Result<string, DecorateError>)
    ensures r.Success? <==> rank < 4
    ensures r.Failure? ==> r.error == NoColorForRank(rank)
    ensures r.Success? ==> |r.value| == |StripNewline(line)| + 16
    ensures r.Success? ==> r.value[8..|r.value| - 8] == StripNewline(line)
  {
    match BackgroundColor(rank)
    case None => Failure(NoColorForRank(rank))
    case Some(c) => Success(SetBackground(c) + Decimal(rank) + "| " + StripNewline(line) + Trailer)
  }

  /**
   * Reads a decorated console line back: the rank it was written for and the
   * text it shows, or None when the line does not have the decorated layout.
   */
  function Undecorate(s: string): Option<(nat, string)> {
    if |s| < 16 || !IsDigit(s[5]) then None
    else
      var rank := DigitValue(s[5]);
      match BackgroundColor(rank)
      case None => None
      case Some(c) =>
        if s[..5] == SetBackground(c) && s[6..8] == "| " && s[|s| - 8..] == Trailer
        then Some((rank, s[8..|s| - 8]))
        else None
  }

  /** A decorated line identifies the member that wrote it and the text it wrote. */
  lemma UndecorateDecorate(rank: nat, line: string)
    requires rank < 4
    ensures Undecorate(Decorate(rank, line).value) == Some((rank, StripNewline(line)))
  {
  }

  /** Every line with the decorated layout is the decoration of the text it shows. */
  lemma DecorateUndecorate(s: string, rank: nat, text: string)
    requires Undecorate(s) == Some((rank, text))
    ensures Decorate(rank, text + "\n") == Success(s)
  {
    var c := BackgroundColor(rank).value;
    DigitCharOfValue(s[5]);
    assert Decimal(rank) == [s[5]];
    assert StripNewline(text + "\n") == text;
    assert s == s[..5] + [s[5]] + s[6..8] + s[8..|s| - 8] + s[|s| - 8..];
  }

  /** The line "ready\n" written by the child of rank 1, as it reaches the console. */
  lemma DecorateRankOneExample()
    ensures Decorate(1, "ready\n")
         == Success([ESC] + "[42m1| ready" + [ESC] + "[K" + [ESC] + "[0m\n")
  {
    assert Decimal(4) == "4" && Decimal(42) == "42";
    assert SetBackground(Green) == [ESC] + "[42m";
    assert Decimal(1) == "1";
    assert StripNewline("ready\n") == "ready";
    var s := SetBackground(Green) + "1" + "| " + "ready" + Trailer;
    assert Decorate(1, "ready\n") == Success(s);
    assert s == [ESC] + "[42m1| ready" + [ESC] + "[K" + [ESC] + "[0m\n";
  }
}
