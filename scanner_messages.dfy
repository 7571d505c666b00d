/**
 * The scanner's error messages lose nothing: the numbers of the inconsistent-dedent
 * message and the code point of the unexpected-character message read back.
 */
module ScannerMessages {
  import opened Tokens
  import opened Scanner

  /** Itoa writes no space, so the space after a number marks where it ends. */
  lemma ItoaHasNoSpace(i: int)
    ensures forall k :: 0 <= k < |Itoa(i)| ==> Itoa(i)[k] != ' '
  {
    ItoaRoundTrip(i);
    var s := Itoa(i);
    forall k | 0 <= k < |s|
      ensures s[k] != ' '
    {
      if s[0] == '-' && k > 0 {
        assert s[k] == s[1..][k - 1];
      }
    }
  }

  /** The dedent message with any two texts for the numbers, read back when they hold no space. */
  lemma DedentTextReadsBack(a1: string, b1: string, a2: string, b2: string)
    requires "Inconsistent dedent. Expecting " + a1 + " but found " + b1 + "."
          == "Inconsistent dedent. Expecting " + a2 + " but found " + b2 + "."
    requires forall k :: 0 <= k < |a1| ==> a1[k] != ' '
    requires forall k :: 0 <= k < |a2| ==> a2[k] != ' '
    ensures a1 == a2 && b1 == b2
  {
    var p := "Inconsistent dedent. Expecting ";
    var x1, x2 := " but found " + b1 + ".", " but found " + b2 + ".";
    var m1 := "Inconsistent dedent. Expecting " + a1 + " but found " + b1 + ".";
    var m2 := "Inconsistent dedent. Expecting " + a2 + " but found " + b2 + ".";
    assert m1[31..] == a1 + x1;
    assert m2[31..] == a2 + x2;
    SplitAtMark(a1, x1, a2, x2, ' ');
    assert b1 == x1[11..|x1| - 1] && b2 == x2[11..|x2| - 1];
  }

  /** The inconsistent-dedent message determines the level reached and the width found. */
  lemma DedentMessageReadsBack(e1: int, f1: int, e2: int, f2: int)
    requires DedentMessage(e1, f1) == DedentMessage(e2, f2)
    ensures e1 == e2 && f1 == f2
  {
    ItoaHasNoSpace(e1);
    ItoaHasNoSpace(e2);
    DedentTextReadsBack(Itoa(e1), Itoa(f1), Itoa(e2), Itoa(f2));
    ItoaInjective(e1, e2);
    ItoaInjective(f1, f2);
  }

  function HexValue(ch: char): (d: nat)
    requires IsHexChar(ch)
    ensures d < 16
  {
    if ch <= '9' then ch as int - '0' as int else ch as int - 'A' as int + 10
  }

  /** The number a text of hexadecimal digits denotes (the partner of HexDigits). */
  function HexNumber(s: string): nat
    requires AllHex(s)
  {
    if s == [] then 0 else HexNumber(s[..|s| - 1]) * 16 + HexValue(s[|s| - 1])
  }

  /** HexDigits writes hexadecimal digits only, and they read back as n. */
  lemma {:induction false} HexRoundTrip(n: nat)
    ensures AllHex(HexDigits(n)) && HexNumber(HexDigits(n)) == n
  {
    if n >= 16 {
      var s := HexDigits(n);
      HexRoundTrip(n / 16);
      assert s == HexDigits(n / 16) + [HexChar(n % 16)];
      assert s[..|s| - 1] == HexDigits(n / 16);
    }
  }

  /** A leading zero does not change the number. */
  lemma {:induction false} LeadingZero(s: string)
    requires AllHex(s)
    ensures AllHex("0" + s) && HexNumber("0" + s) == HexNumber(s)
  {
    if s != [] {
      LeadingZero(s[..|s| - 1]);
      assert ("0" + s)[..|"0" + s| - 1] == "0" + s[..|s| - 1];
    }
  }

  /** Zero padding does not change the number. */
  lemma {:induction false} PadKeepsNumber(s: string, width: nat)
    requires AllHex(s)
    ensures AllHex(ZeroPad(s, width)) && HexNumber(ZeroPad(s, width)) == HexNumber(s)
    decreases width - |s|
  {
    if |s| < width {
      LeadingZero(s);
      PadKeepsNumber("0" + s, width);
    }
  }

  /**
   * The shape of the %#U notation: `U+`, then the rune between single quotes exactly
   * when it is printable.
   */
  lemma NotationShape(tbl: Tables, r: char)
    ensures var s := UnicodeNotation(tbl, r);
      && 6 <= |s| && s[..2] == "U+"
      && (tbl.isPrint(r) <==> s[|s| - 1] == '\'')
      && (tbl.isPrint(r) ==> s[|s| - 2] == r)
  {
    var hex := ZeroPad(HexDigits(r as int), 4);
    HexRoundTrip(r as int);
    PadKeepsNumber(HexDigits(r as int), 4);
    assert IsHexChar(hex[|hex| - 1]);
  }

  /** The unexpected-character error names the rune in %#U notation between fixed texts. */
  lemma UnexpectedMessageShape(tbl: Tables, r: char)
    ensures var m, u := UnexpectedMessage(tbl, r), UnicodeNotation(tbl, r);
      && |m| == 49 + |u|
      && m[..30] == "Unexpected unicode character ("
      && m[30..30 + |u|] == u
      && m[30 + |u|..] == ") in outer context."
  {
  }

  /**
   * The %#U notation of a rune reads back: at least four hexadecimal digits follow
   * `U+`, up to the quoted rune when it is printable, and they denote its code point.
   */
  lemma NotationReadsBack(tbl: Tables, r: char)
    ensures var s := UnicodeNotation(tbl, r);
      var n := if tbl.isPrint(r) then |s| - 4 else |s|;
      && 6 <= n <= |s|
      && AllHex(s[2..n]) && HexNumber(s[2..n]) == r as int
  {
    var hex := ZeroPad(HexDigits(r as int), 4);
    var s := UnicodeNotation(tbl, r);
    var n := if tbl.isPrint(r) then |s| - 4 else |s|;
    assert s == "U+" + hex + (if tbl.isPrint(r) then " '" + [r] + "'" else "");
    assert s[2..n] == hex;
    HexRoundTrip(r as int);
    PadKeepsNumber(HexDigits(r as int), 4);
  }

  /** `%#U` of two concrete runes: a printable capital and the non-printable NUL. */
  lemma NotationExamples(tbl: Tables)
    requires tbl.isPrint('A') && !tbl.isPrint('\0')
    ensures UnicodeNotation(tbl, 'A') == "U+0041 'A'"
    ensures UnicodeNotation(tbl, '\0') == "U+0000"
  {
    assert HexDigits(65) == "41" by {
      assert HexDigits(4) == "4";
    }
    assert ZeroPad("41", 4) == "0041" by {
      assert ZeroPad("041", 4) == "0041";
    }
    assert HexDigits(0) == "0";
    assert ZeroPad("000", 4) == "0000";
    assert ZeroPad("00", 4) == ZeroPad("000", 4);
    assert "0" + "0" == "00";
    assert ZeroPad("0", 4) == ZeroPad("00", 4);
  }
}
