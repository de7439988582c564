/**
 * Harmonica holes: a hole number and the airflow (blow or draw) that sounds
 * a note, with the textual forms the app uses: the identifier "6-draw", the
 * label "6 Draw", and the compact hole code "6D" stored in note events.
 */
module Holes {
  import opened Options
  import opened SwiftStd

  datatype Airflow = Blow | Draw

  datatype Hole = Hole(index: int, airflow: Airflow)

  /** `Airflow.rawValue`. */
  function AirflowName(a: Airflow): (s: string)
    ensures |s| == 4 && s[0] == (if a == Blow then 'b' else 'd')
  {
    match a
    case Blow => "blow"
    case Draw => "draw"
  }

  /** `HarmonicaHole.id`: "<index>-blow" or "<index>-draw". */
  function Id(h: Hole): (s: string)
    ensures |s| == |IntText(h.index)| + 5
    ensures s[..|s| - 5] == IntText(h.index) && s[|s| - 5] == '-'
    ensures s[|s| - 4..] == AirflowName(h.airflow)
  {
    IntText(h.index) + "-" + AirflowName(h.airflow)
  }

  /** `HarmonicaHole.displayName`: "<index> Blow" or "<index> Draw". */
  function DisplayName(h: Hole): (s: string)
    ensures |s| == |IntText(h.index)| + 5
    ensures s[..|s| - 5] == IntText(h.index) && s[|s| - 5] == ' '
    ensures s[|s| - 4..] == (if h.airflow == Blow then "Blow" else "Draw")
  {
    IntText(h.index) + " " + (if h.airflow == Blow then "Blow" else "Draw")
  }

  /** The airflow letter a hole code ends with, read case-insensitively. */
  function AirflowOfLetter(c: char): (r: Option<Airflow>)
    ensures r == Some(Blow) <==> c == 'B' || c == 'b'
    ensures r == Some(Draw) <==> c == 'D' || c == 'd'
  {
    if c == 'B' || c == 'b' then Some(Blow)
    else if c == 'D' || c == 'd' then Some(Draw)
    else None
  }

  /**
   * The part of `HarmonicaHole.fromCode` after trimming: at least two
   * characters, all but the last reading as an `Int` and the last being B or
   * D in either case.
   */
  function FromTrimmedCode(t: string): (r: Option<Hole>)
    ensures r.Some? <==>
      |t| >= 2 && ParseInt(t[..|t| - 1]).Some? && AirflowOfLetter(t[|t| - 1]).Some?
    ensures r.Some? ==>
      r.value.index == ParseInt(t[..|t| - 1]).value && Some(r.value.airflow) == AirflowOfLetter(t[|t| - 1])
  {
    if |t| < 2 then None
    else
      match ParseInt(t[..|t| - 1])
      case None => None
      case Some(index) =>
        match AirflowOfLetter(t[|t| - 1])
        case None => None
        case Some(a) => Some(Hole(index, a))
  }

  /** `HarmonicaHole.fromCode`: surrounding whitespace is trimmed before parsing. */
  function FromCode(code: string): (r: Option<Hole>)
    ensures |Trim(code)| < 2 ==> r.None?
  {
    FromTrimmedCode(Trim(code))
  }

  /**
   * The view model's `holeCode(for:)`: the hole number followed by "B" for
   * blow or "D" for draw.
   */
  function HoleCode(h: Hole): (s: string)
    ensures |s| >= 2
    ensures s[..|s| - 1] == IntText(h.index)
    ensures s[|s| - 1] == (if h.airflow == Blow then 'B' else 'D')
  {
    IntText(h.index) + (if h.airflow == Blow then "B" else "D")
  }

  /** A hole code has no surrounding whitespace for `FromCode` to trim. */
  lemma HoleCodeTrimmed(h: Hole)
    ensures Trim(HoleCode(h)) == HoleCode(h)
  {
    var s := HoleCode(h);
    assert !IsWhitespace(s[0]) by {
      assert s[0] == IntText(h.index)[0];
      IntTextStart(h.index);
    }
    assert !IsWhitespace(s[|s| - 1]) by {
      assert s[|s| - 1] == 'B' || s[|s| - 1] == 'D';
    }
    TrimUnchanged(s);
  }

  /** Parsing a hole code gives back the hole it was made from. */
  lemma FromCodeHoleCode(h: Hole)
    ensures FromCode(HoleCode(h)) == Some(h)
  {
    var s := HoleCode(h);
    assert AirflowOfLetter(s[|s| - 1]) == Some(h.airflow);
    ParseIntText(h.index);
    assert ParseInt(s[..|s| - 1]) == Some(h.index);
    assert FromTrimmedCode(s) == Some(h);
    HoleCodeTrimmed(h);
  }

  /** Distinct holes have distinct codes. */
  lemma HoleCodeInjective(h1: Hole, h2: Hole)
    requires HoleCode(h1) == HoleCode(h2)
    ensures h1 == h2
  {
    FromCodeHoleCode(h1);
    FromCodeHoleCode(h2);
  }

  /** Whitespace around a code never changes what it parses to. */
  lemma FromCodeIgnoresPadding(before: string, code: string, after: string)
    requires Blank(before) && Blank(after)
    ensures FromCode(before + code + after) == FromCode(code)
  {
    TrimIgnoresPadding(before, code, after);
  }

  /** A code that needs no trimming, with a one-digit hole number. */
  lemma FromCodeOneDigit(code: string, d: nat, a: Airflow)
    requires d < 10 && |code| == 2 && code[0] == DigitChar(d)
    requires AirflowOfLetter(code[1]) == Some(a)
    ensures FromCode(code) == Some(Hole(d, a))
  {
    assert code[..1] == [DigitChar(d)];
    ParseDigits(code[..1], d, 0);
    assert FromTrimmedCode(code) == Some(Hole(d, a));
    assert !IsWhitespace(code[0]) && !IsWhitespace(code[1]);
    TrimUnchanged(code);
  }

  /** Well-formed codes, upper or lower case. */
  lemma FromCodeAccepts()
    ensures FromCode("4B") == Some(Hole(4, Blow))
    ensures FromCode("7d") == Some(Hole(7, Draw))
  {
    assert DigitChar(4) == '4' && DigitChar(7) == '7';
    FromCodeOneDigit("4B", 4, Blow);
    FromCodeOneDigit("7d", 7, Draw);
  }

  /** Surrounding whitespace is ignored: a two-digit hole between a space and a newline. */
  lemma FromCodePadded(code: string, d1: nat, d2: nat, a: Airflow)
    requires d1 < 10 && d2 < 10 && |code| == 5
    requires code[0] == ' ' && code[1] == DigitChar(d1) && code[2] == DigitChar(d2) && code[4] == '\n'
    requires AirflowOfLetter(code[3]) == Some(a)
    ensures FromCode(code) == Some(Hole(10 * d1 + d2, a))
  {
    var inner := code[1..4];
    assert inner[..2] == [DigitChar(d1), DigitChar(d2)];
    ParseDigits(inner[..2], d1, d2);
    assert inner[2] == code[3];
    assert FromTrimmedCode(inner) == Some(Hole(10 * d1 + d2, a));
    TrimOnePadding(code);
  }

  /** A two-character code whose first character is not a number is refused. */
  lemma FromCodeNotANumber(code: string)
    requires |code| == 2 && !IsDigit(code[0]) && code[0] !in "+-"
    requires !IsWhitespace(code[0]) && !IsWhitespace(code[1])
    ensures FromCode(code) == None
  {
    assert code[..1] == [code[0]];
    assert FromTrimmedCode(code) == None;
    TrimUnchanged(code);
  }

  /** A two-character code whose last character is not B or D is refused. */
  lemma FromCodeUnknownAirflow(code: string)
    requires |code| == 2 && AirflowOfLetter(code[1]).None?
    requires !IsWhitespace(code[0]) && !IsWhitespace(code[1])
    ensures FromCode(code) == None
  {
    assert FromTrimmedCode(code) == None;
    TrimUnchanged(code);
  }

  /** Codes shorter than two characters are refused. */
  lemma FromCodeTooShort(code: string)
    requires |code| < 2
    ensures FromCode(code) == None
  {
    var t := Trim(code);
    assert |t| <= |code|;
  }

  /** The empty code and a bare number. */
  lemma FromCodeRejectsShort()
    ensures FromCode("") == None
    ensures FromCode("7") == None
  {
    FromCodeTooShort("");
    FromCodeTooShort("7");
  }

  /** A letter where the number belongs. */
  lemma FromCodeRejectsLetters()
    ensures FromCode("BD") == None
  {
    FromCodeNotANumber("BD");
  }

  /** An airflow letter other than B or D. */
  lemma FromCodeRejectsUnknownLetter()
    ensures FromCode("3X") == None
  {
    FromCodeUnknownAirflow("3X");
  }

  /** Holes are told apart by their identifiers. */
  lemma IdInjective(h1: Hole, h2: Hole)
    requires Id(h1) == Id(h2)
    ensures h1 == h2
  {
    var s := Id(h1);
    assert IntText(h1.index) == s[..|s| - 5] == IntText(h2.index);
    ParseIntText(h1.index);
    ParseIntText(h2.index);
    assert AirflowName(h1.airflow)[0] == s[|s| - 4] == AirflowName(h2.airflow)[0];
  }

  /** The identifier and label of the 6 draw hole. */
  lemma IdExample()
    ensures Id(Hole(6, Draw)) == "6-draw"
    ensures DisplayName(Hole(6, Draw)) == "6 Draw"
  {
    assert IntText(6) == "6";
  }
}
