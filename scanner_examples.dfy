/**
 * Concrete runs of the DTDX scanner on inputs taken from its expected outputs, with
 * ASCII stand-ins for the Unicode tables.
 */
module ScannerExamples {
  import opened Tokens
  import opened Lexer
  import opened Scanner

  /** ASCII letters, ASCII digits, and the printable ASCII range. */
  function AsciiTables(): (tbl: Tables)
    ensures tbl.Valid()
  {
    Tables(r => 'a' <= r <= 'z' || 'A' <= r <= 'Z', r => '0' <= r <= '9', r => ' ' <= r <= '~')
  }

  /** "..." scanned from OuterState: one reference token, then the end-of-input token. */
  lemma ReferenceExample()
    ensures ScanRun("...", AsciiTables(), Initial(), Outer)
         == Step(Snapshot(3, 3, true, [Token(ReferenceTok, "..."), Token(EofTok, "")], [0]), Stop)
  {
    var src, tbl := "...", AsciiTables();
    var c0 := Initial();
    var c1 := Snapshot(0, 1, false, [], [0]);
    assert OuterTurn(src, tbl, c0) == Return(Step(c1, Reference));
    var c2 := Snapshot(3, 3, false, [Token(ReferenceTok, "...")], [0]);
    assert RunEnd(src, 1, ".") == 3;
    assert ScanReference(src, c1) == Step(c2, Outer);
    ReferenceExampleEnd();
  }

  lemma ReferenceExampleEnd()
    ensures ScanRun("...", AsciiTables(), Snapshot(3, 3, false, [Token(ReferenceTok, "...")], [0]), Outer)
         == Step(Snapshot(3, 3, true, [Token(ReferenceTok, "..."), Token(EofTok, "")], [0]), Stop)
  {
    var src, tbl := "...", AsciiTables();
    var c2 := Snapshot(3, 3, false, [Token(ReferenceTok, "...")], [0]);
    var c3 := c2.(atEOF := true);
    assert ScanIndent(src, c3) == Step(c3, Outer);
    assert OuterTurn(src, tbl, c2) == Return(ScanEnd(src, c3));
    assert ScanRun(src, tbl, c2, Outer) == ScanEnd(src, c3);
  }

  /** Two dots are not a reference: the scan ends with the malformed-ellipsis error. */
  lemma TwoDotsExample()
    ensures ScanRun("..", AsciiTables(), Initial(), Outer)
         == Step(Snapshot(0, 2, false, [Token(ErrorTok, "Malformed reference ellipsis: ..")], [0]), Stop)
  {
    var src, tbl := "..", AsciiTables();
    var c1 := Snapshot(0, 1, false, [], [0]);
    assert OuterTurn(src, tbl, Initial()) == Return(Step(c1, Reference));
    assert ScanOuter(src, tbl, Initial()) == Step(c1, Reference);
    assert RunEnd(src, 2, ".") == 2;
    assert RunEnd(src, 1, ".") == 2;
    assert src[0..2] == src && |src| != 3;
    assert "Malformed reference ellipsis: " + src == "Malformed reference ellipsis: ..";
    var c2 := Snapshot(0, 2, false, [Token(ErrorTok, "Malformed reference ellipsis: ..")], [0]);
    assert ScanReference(src, c1) == Step(c2, Stop);
    assert ScanRun(src, tbl, c1, Reference) == Step(c2, Stop);
  }

  /** Four dots are not a reference: the scan ends with the malformed-ellipsis error. */
  lemma FourDotsExample()
    ensures ScanRun("....", AsciiTables(), Initial(), Outer)
         == Step(Snapshot(0, 4, false, [Token(ErrorTok, "Malformed reference ellipsis: ....")], [0]), Stop)
  {
    var src, tbl := "....", AsciiTables();
    var c1 := Snapshot(0, 1, false, [], [0]);
    assert OuterTurn(src, tbl, Initial()) == Return(Step(c1, Reference));
    assert ScanOuter(src, tbl, Initial()) == Step(c1, Reference);
    assert RunEnd(src, 4, ".") == 4;
    assert RunEnd(src, 1, ".") == 4;
    assert src[0..4] == src && |src| != 3;
    assert "Malformed reference ellipsis: " + src == "Malformed reference ellipsis: ....";
    var c2 := Snapshot(0, 4, false, [Token(ErrorTok, "Malformed reference ellipsis: ....")], [0]);
    assert ScanReference(src, c1) == Step(c2, Stop);
    assert ScanRun(src, tbl, c1, Reference) == Step(c2, Stop);
  }

  /**
   * Stack [0, 4] and a line indented by 2: one level is popped with its dedent token,
   * then the width 2 matches no open level.
   */
  lemma InconsistentDedentExample()
    ensures ScanIndent("  ", Snapshot(0, 2, false, [], [0, 4]))
         == Step(Snapshot(2, 2, false, [Token(DedentTok, "  "), Token(ErrorTok, "Inconsistent dedent. Expecting 0 but found 2.")], [0]), Stop)
  {
    assert Width("  ") == 2 by {
      assert "  "[..1] == " " && " "[..0] == "";
    }
    assert Pops([0, 4], 2) == 1 by {
      assert [0, 4][..1] == [0];
    }
    var src, c := "  ", Snapshot(0, 2, false, [], [0, 4]);
    assert src[0..2] == src && Blank(src);
    assert Dedents(src, 1) == [Token(DedentTok, "  ")];
    var d := Snapshot(2, 2, false, [Token(DedentTok, "  ")], [0]);
    assert Popped(src, c, 2) == d;
    assert Itoa(0) == "0" && Itoa(2) == "2";
    assert DedentMessage(0, 2) == "Inconsistent dedent. Expecting 0 but found 2.";
    assert ScanDedent(src, c, 2) == Step(Errored(d, DedentMessage(0, 2)), Stop);
  }

  /** The input of the runaway-quote case: the first quote is never closed. */
  const Runaway: string := "attr1=\"one attr2='2' attr3="

  /** A quote that is never closed: the error carries the rest of the line. */
  lemma RunawayQuoteExample()
    ensures ScanRun(Runaway, AsciiTables(), Initial(), Outer).snap.tokens
         == [Token(IdentTok, "attr1"), Token(EqualsTok, "="), Token(ErrorTok, "Runaway quote: one attr2='2' attr3=")]
  {
    var tbl := AsciiTables();
    var c1 := Snapshot(0, 1, false, [], [0]);
    var c2 := Snapshot(5, 5, false, [Token(IdentTok, "attr1")], [0]);
    var c4 := Snapshot(6, 7, false, [Token(IdentTok, "attr1"), Token(EqualsTok, "=")], [0]);
    RunawayIdentifier();
    RunawayEquals();
    RunawayQuote();
    assert ScanRun(Runaway, tbl, c4, DoubleQuote).snap.tokens == c4.tokens + [Token(ErrorTok, "Runaway quote: one attr2='2' attr3=")];
    assert ScanRun(Runaway, tbl, c2, Outer) == ScanRun(Runaway, tbl, c4, DoubleQuote);
    assert ScanRun(Runaway, tbl, c1, Identifier) == ScanRun(Runaway, tbl, c2, Outer);
  }

  lemma RunawayIdentifier()
    ensures ScanStep(Runaway, AsciiTables(), Initial(), Outer) == Step(Snapshot(0, 1, false, [], [0]), Identifier)
    ensures ScanStep(Runaway, AsciiTables(), Snapshot(0, 1, false, [], [0]), Identifier)
         == Step(Snapshot(5, 5, false, [Token(IdentTok, "attr1")], [0]), Outer)
  {
    var tbl := AsciiTables();
    assert OuterTurn(Runaway, tbl, Initial()) == Return(Step(Snapshot(0, 1, false, [], [0]), Identifier));
    RunawayIdentEnd();
  }

  lemma RunawayIdentEnd()
    ensures IdentEnd(Runaway, 1, AsciiTables()) == 5 && Runaway[0..5] == "attr1"
  {
    var tbl := AsciiTables();
    assert Runaway[5] == '=' && !IsAlphaNumeric(tbl, '=');
    assert IdentEnd(Runaway, 5, tbl) == 5;
  }

  lemma RunawayEquals()
    ensures ScanStep(Runaway, AsciiTables(), Snapshot(5, 5, false, [Token(IdentTok, "attr1")], [0]), Outer)
         == Step(Snapshot(6, 7, false, [Token(IdentTok, "attr1"), Token(EqualsTok, "=")], [0]), DoubleQuote)
  {
    var tbl := AsciiTables();
    var c2 := Snapshot(5, 5, false, [Token(IdentTok, "attr1")], [0]);
    var c3 := Snapshot(6, 6, false, c2.tokens + [Token(EqualsTok, "=")], [0]);
    assert Runaway[5] == '=' && Runaway[6] == '"';
    assert Runaway[5..6] == "=";
    assert OuterTurn(Runaway, tbl, c2) == Continue(c3);
    assert OuterTurn(Runaway, tbl, c3) == Return(Step(c3.(position := 7), DoubleQuote));
    assert ScanOuter(Runaway, tbl, c3) == Step(c3.(position := 7), DoubleQuote);
  }

  lemma RunawayQuote()
    ensures ScanStep(Runaway, AsciiTables(), Snapshot(6, 7, false, [Token(IdentTok, "attr1"), Token(EqualsTok, "=")], [0]), DoubleQuote)
         == Step(Snapshot(7, |Runaway|, false, [Token(IdentTok, "attr1"), Token(EqualsTok, "="), Token(ErrorTok, "Runaway quote: one attr2='2' attr3=")], [0]), Stop)
  {
    RunawayEnd();
  }

  /** No closing quote, newline or NUL follows the opening quote. */
  lemma RunawayEnd()
    ensures StopAt(Runaway, 7, "\"\n\0") == |Runaway|
    ensures "Runaway quote: " + Runaway[7..|Runaway|] == "Runaway quote: one attr2='2' attr3="
  {
    var rest := Runaway[7..|Runaway|];
    assert rest == "one attr2='2' attr3=";
    assert "Runaway quote: " + rest == "Runaway quote: one attr2='2' attr3=";
    RestHasNoStop(rest);
    forall k | 7 <= k < |Runaway|
      ensures Runaway[k] !in "\"\n\0"
    {
      assert Runaway[k] == rest[k - 7];
    }
    StopAtEnd(Runaway, 7, "\"\n\0");
  }

  /** With no stop rune ahead, the scan runs to the end. */
  lemma StopAtEnd(s: string, i: nat, stops: string)
    requires i <= |s| && forall k :: i <= k < |s| ==> s[k] !in stops
    ensures StopAt(s, i, stops) == |s|
  {
  }

  lemma RestHasNoStop(rest: string)
    requires rest == "one attr2='2' attr3="
    ensures forall k :: 0 <= k < |rest| ==> rest[k] !in "\"\n\0"
  {
  }
}
