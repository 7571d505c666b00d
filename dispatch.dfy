/**
 * What OuterState does with each kind of rune, followed through the state it hands
 * over to: the token that results and the text it covers. Each lemma starts from a
 * state with nothing pending, as OuterState is after a token or a dropped blank.
 */
module Dispatch {
  import opened Tokens
  import opened Lexer
  import opened Scanner

  /** Where OuterState is about to read a rune (not the end) with nothing pending. */
  ghost predicate AtRune(source: string, c: Snapshot) {
    Ready(source, c) && !c.atEOF && c.start == c.position < |source|
  }

  /** The token type of each one-rune token, 0 for every other rune. */
  function OneRuneKind(ch: char): TokenType {
    if ch == '=' then EqualsTok
    else if ch == '(' then OpenTok
    else if ch == ')' then CloseTok
    else if ch == ',' || ch == '|' || ch == '&' then SeparatorTok
    else if ch == '*' || ch == '+' || ch == '?' then MultiplicityTok
    else 0
  }

  /** Spaces and tabs are dropped without a token, together with anything pending, and OuterState goes on. */
  lemma BlankDropped(source: string, tbl: Tables, c: Snapshot)
    requires Ready(source, c) && !c.atEOF && c.position < |source|
    requires source[c.position] == ' ' || source[c.position] == '\t'
    ensures OuterTurn(source, tbl, c) == Continue(c.(start := c.position + 1, position := c.position + 1))
  {
  }

  /** Each of = ( ) , | & * + ? is one token whose value is that rune. */
  lemma OneRuneToken(source: string, tbl: Tables, c: Snapshot)
    requires AtRune(source, c) && OneRuneKind(source[c.position]) != 0
    ensures OuterTurn(source, tbl, c)
         == Continue(c.(start := c.position + 1, position := c.position + 1,
                        tokens := c.tokens + [Token(OneRuneKind(source[c.position]), [source[c.position]])]))
  {
    assert source[c.start..c.position + 1] == [source[c.position]];
  }

  /**
   * The closing quote a quoted value leaves pending joins the value of a one-rune token
   * read right after it: in `a="x"=` the second equals token holds the quote and `=`.
   */
  lemma PendingQuoteJoinsToken(source: string, tbl: Tables, c: Snapshot)
    requires Ready(source, c) && !c.atEOF && c.start + 1 == c.position < |source|
    requires source[c.start] == '"' || source[c.start] == '\''
    requires OneRuneKind(source[c.position]) != 0
    ensures OuterTurn(source, tbl, c)
         == Continue(c.(start := c.position + 1, position := c.position + 1,
                        tokens := c.tokens + [Token(OneRuneKind(source[c.position]), [source[c.start], source[c.position]])]))
  {
    assert source[c.start..c.position + 1] == [source[c.start], source[c.position]];
  }

  /** `#` and a capital begin a directive, the run of capitals; any other `#` a comment, the rest of the line. */
  lemma HashDispatch(source: string, tbl: Tables, c: Snapshot)
    requires AtRune(source, c) && source[c.position] == '#'
    ensures var r, q := ScanOuter(source, tbl, c), c.position + 1;
      var upper := q < |source| && 'A' <= source[q] <= 'Z';
      var e := if upper then RunEnd(source, q, Uppercase) else StopAt(source, q, "\n\0");
      && r == Step(c.(position := q), if upper then Directive else Comment)
      && ScanStep(source, tbl, r.snap, r.next)
         == Step(Emitted(source, c.(position := e), if upper then DirectiveTok else CommentTok), Outer)
  {
    var q := c.position + 1;
    var c1 := c.(position := q);
    assert RuneAt(source, q) == if q < |source| then source[q] else EOFRune;
    assert OuterTurn(source, tbl, c) == Return(Step(c1, if q < |source| && 'A' <= source[q] <= 'Z' then Directive else Comment));
  }

  /** A letter, `_` or `:` begins an identifier, which runs over letters, digits and `_`. */
  lemma IdentifierDispatch(source: string, tbl: Tables, c: Snapshot)
    requires AtRune(source, c)
    requires tbl.isLetter(source[c.position]) || source[c.position] == '_' || source[c.position] == ':'
    requires OneRuneKind(source[c.position]) == 0 && source[c.position] !in " \t\n\"'.#\0"
    ensures var r := ScanOuter(source, tbl, c);
      && r == Step(c.(position := c.position + 1), Identifier)
      && ScanStep(source, tbl, r.snap, r.next)
         == Step(Emitted(source, c.(position := IdentEnd(source, c.position + 1, tbl)), IdentTok), Outer)
  {
    assert OuterTurn(source, tbl, c) == Return(Step(c.(position := c.position + 1), Identifier));
  }

  /** A run of dots is a reference token exactly when it is three dots long. */
  lemma ReferenceDispatch(source: string, tbl: Tables, c: Snapshot)
    requires AtRune(source, c) && source[c.position] == '.'
    ensures var r, e := ScanOuter(source, tbl, c), RunEnd(source, c.position, ".");
      && r == Step(c.(position := c.position + 1), Reference)
      && (e == c.position + 3 ==>
            ScanStep(source, tbl, r.snap, r.next)
            == Step(Emitted(source, c.(position := e), ReferenceTok), Outer)
            && source[c.position..e] == "...")
      && (e != c.position + 3 ==>
            ScanStep(source, tbl, r.snap, r.next)
            == Step(Errored(c.(position := e), "Malformed reference ellipsis: " + source[c.position..e]), Stop))
  {
    var e := RunEnd(source, c.position, ".");
    assert OuterTurn(source, tbl, c) == Return(Step(c.(position := c.position + 1), Reference));
    assert RunEnd(source, c.position + 1, ".") == e;
    if e == c.position + 3 {
      assert source[c.position..e] == "..." by {
        assert source[c.position] == '.' && source[c.position + 1] in "." && source[c.position + 2] in ".";
      }
    } else {
      assert |source[c.position..e]| != 3;
    }
  }

  /** Any other rune ends the scan with the unexpected-character error. */
  lemma UnexpectedRune(source: string, tbl: Tables, c: Snapshot)
    requires AtRune(source, c)
    requires OneRuneKind(source[c.position]) == 0 && source[c.position] !in " \t\n\"'.#\0"
    requires !tbl.isLetter(source[c.position]) && source[c.position] != '_' && source[c.position] != ':'
    ensures ScanOuter(source, tbl, c)
         == Step(Errored(c.(position := c.position + 1), UnexpectedMessage(tbl, source[c.position])), Stop)
    ensures UnexpectedMessage(tbl, source[c.position])[..30] == "Unexpected unicode character ("
  {
    assert OuterTurn(source, tbl, c).Return?;
  }

  /**
   * A quote begins a quoted value. The token holds the text between the delimiters; the
   * closing delimiter is read but stays pending. Without a closing delimiter before a
   * newline, NUL or the end, the scan ends with the runaway-quote error.
   */
  lemma QuoteDispatch(source: string, tbl: Tables, c: Snapshot)
    requires AtRune(source, c) && (source[c.position] == '"' || source[c.position] == '\'')
    ensures var quote, q := source[c.position], c.position + 1;
      var r, p := ScanOuter(source, tbl, c), StopAt(source, q, [quote] + "\n\0");
      && r == Step(c.(position := q), if quote == '"' then DoubleQuote else SingleQuote)
      && (forall i :: q <= i < p ==> source[i] != quote && source[i] != '\n')
      && (p < |source| && source[p] == quote ==>
            ScanStep(source, tbl, r.snap, r.next)
            == Step(c.(start := p, position := p + 1, tokens := c.tokens + [Token(QuoteTok, source[q..p])]), Outer))
      && (!(p < |source| && source[p] == quote) ==>
            ScanStep(source, tbl, r.snap, r.next)
            == Step(c.(start := q, position := p, tokens := c.tokens + [Token(ErrorTok, "Runaway quote: " + source[q..p])]), Stop))
  {
    var quote, q := source[c.position], c.position + 1;
    assert OuterTurn(source, tbl, c) == Return(Step(c.(position := q), if quote == '"' then DoubleQuote else SingleQuote));
    var p := StopAt(source, q, [quote] + "\n\0");
    forall i | q <= i < p
      ensures source[i] != quote && source[i] != '\n'
    {
      assert source[i] !in [quote] + "\n\0";
    }
  }

  /**
   * A closing quote that is the last rune of the input is still pending when OuterState
   * meets the end, and measuring it as indentation panics.
   */
  lemma QuoteAtEndPanics(source: string, tbl: Tables, c: Snapshot)
    requires Ready(source, c) && !c.atEOF && c.position == |source| && c.start + 1 == c.position
    requires source[c.start] == '"' || source[c.start] == '\''
    ensures ScanOuter(source, tbl, c).next == Panic
  {
    var c1 := c.(atEOF := true);
    assert !Blank(source[c.start..c.position]) by {
      assert source[c.start..c.position][0] == source[c.start];
    }
    assert OuterTurn(source, tbl, c) == Return(ScanEnd(source, c1));
  }

  /**
   * NewlineState on a line of blanks: no token, the indentation stack untouched, and the
   * scan goes on exactly as if it started on the next line.
   */
  lemma BlankLineSkipped(source: string, tbl: Tables, c: Snapshot)
    requires Ready(source, c) && !c.atEOF
    requires RunEnd(source, c.position, "\t ") < |source| && source[RunEnd(source, c.position, "\t ")] == '\n'
    ensures var p := RunEnd(source, c.position, "\t ");
      ScanRun(source, tbl, c, Newline) == ScanRun(source, tbl, c.(start := p + 1, position := p + 1), Newline)
  {
    var p := RunEnd(source, c.position, "\t ");
    var d := c.(start := c.position, position := p + 1);
    assert ScanNewline(source, c) == Step(d, Newline);
    NewlineIgnoresStart(source, tbl, d, p + 1);
  }

  /** NewlineState first drops whatever is pending, so where the pending text starts does not matter. */
  lemma NewlineIgnoresStart(source: string, tbl: Tables, c: Snapshot, start: nat)
    requires Ready(source, c) && !c.atEOF && start <= c.position
    ensures ScanRun(source, tbl, c, Newline) == ScanRun(source, tbl, c.(start := start), Newline)
  {
    assert ScanNewline(source, c) == ScanNewline(source, c.(start := start));
  }
}
