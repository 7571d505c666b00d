/**
 * What the DTDX scanner guarantees about the token stream it delivers: the
 * indentation stack stays well formed, indents and dedents balance, a scan that
 * stops ends with exactly one closing token (the end-of-input token or an error),
 * and the individual state functions do what their comments in scanner.go promise.
 */
module ScannerProps {
  import opened Tokens
  import opened Lexer
  import opened Scanner

  /* ------------------------------------------------------------------------- */
  /* Token accounting                                                           */

  /** A token after which nothing more is delivered. */
  predicate Terminal(t: Token) {
    t.kind == EofTok || t.kind == ErrorTok
  }

  predicate NoTerminal(ts: seq<Token>) {
    forall i :: 0 <= i < |ts| ==> !Terminal(ts[i])
  }

  /** Number of tokens of kind k. */
  function Count(ts: seq<Token>, k: TokenType): nat
  {
    if |ts| == 0 then 0 else Count(ts[..|ts| - 1], k) + (if ts[|ts| - 1].kind == k then 1 else 0)
  }

  lemma {:induction false} CountAppend(a: seq<Token>, b: seq<Token>, k: TokenType)
    ensures Count(a + b, k) == Count(a, k) + Count(b, k)
    decreases |b|
  {
    if b != [] {
      var b' := b[..|b| - 1];
      var last := if b[|b| - 1].kind == k then 1 else 0;
      assert (a + b)[..|a + b| - 1] == a + b';
      assert (a + b)[|a + b| - 1] == b[|b| - 1];
      calc {
        Count(a + b, k);
        Count(a + b', k) + last;
        { CountAppend(a, b', k); }
        Count(a, k) + Count(b', k) + last;
        Count(a, k) + Count(b, k);
      }
    } else {
      assert a + b == a;
    }
  }

  lemma CountOne(t: Token, k: TokenType)
    ensures Count([t], k) == if t.kind == k then 1 else 0
  {
    assert [t][..0] == [];
  }

  /** n pops deliver n dedent tokens and nothing else. */
  lemma {:induction false} DedentsCount(text: string, n: nat)
    ensures Count(Dedents(text, n), DedentTok) == n
    ensures Count(Dedents(text, n), IndentTok) == 0
  {
    if n > 0 {
      var ds := Dedents(text, n - 1);
      var t := Token(DedentTok, if n == 1 then text else "");
      assert Dedents(text, n) == ds + [t];
      DedentsCount(text, n - 1);
      CountOne(t, DedentTok);
      CountOne(t, IndentTok);
      CountAppend(ds, [t], DedentTok);
      CountAppend(ds, [t], IndentTok);
    }
  }

  /** The dedent tokens of n pops: the first carries the pending whitespace, the others are empty. */
  lemma {:induction false} DedentsShape(text: string, n: nat)
    ensures forall i :: 0 <= i < n ==> Dedents(text, n)[i] == Token(DedentTok, if i == 0 then text else "")
  {
    if n > 0 {
      DedentsShape(text, n - 1);
      assert Dedents(text, n) == Dedents(text, n - 1) + [Token(DedentTok, if n == 1 then text else "")];
    }
  }

  lemma DedentsPlain(text: string, n: nat)
    ensures NoTerminal(Dedents(text, n))
  {
    DedentsShape(text, n);
  }

  /** Every open level has had one more indent than dedent. */
  ghost predicate Balanced(c: Snapshot) {
    Count(c.tokens, IndentTok) == Count(c.tokens, DedentTok) + |c.indents| - 1
  }

  /** Appending tokens other than indents, dedents and closing tokens keeps the account. */
  lemma PlainToken(c: Snapshot, t: Token)
    requires NoTerminal(c.tokens) && Balanced(c)
    requires !Terminal(t) && t.kind != IndentTok && t.kind != DedentTok
    ensures NoTerminal(c.tokens + [t]) && Balanced(c.(tokens := c.tokens + [t]))
  {
    CountAppend(c.tokens, [t], IndentTok);
    CountAppend(c.tokens, [t], DedentTok);
  }

  /** Where a running state may be called: what the scanner keeps true between state functions. */
  ghost predicate Resumable(source: string, c: Snapshot, st: State) {
    && Ready(source, c) && !c.atEOF
    && NoTerminal(c.tokens) && Balanced(c)
    && (st == Outer ==> Pending(source, c) == "" || !Blank(Pending(source, c)))
  }

  /**
   * A finished token stream: exactly one closing token, the last; when that is the
   * end-of-input token, every indentation level was closed by a dedent.
   */
  ghost predicate Finished(c: Snapshot) {
    && |c.tokens| >= 1 && NoTerminal(c.tokens[..|c.tokens| - 1]) && Terminal(c.tokens[|c.tokens| - 1])
    && (c.tokens[|c.tokens| - 1].kind == EofTok ==>
          c.indents == [0] && Count(c.tokens, IndentTok) == Count(c.tokens, DedentTok))
  }

  lemma ErrorFinishes(c: Snapshot, msg: string)
    requires NoTerminal(c.tokens)
    ensures Finished(Errored(c, msg))
  {
    assert Errored(c, msg).tokens[..|c.tokens|] == c.tokens;
  }

  /* ------------------------------------------------------------------------- */
  /* Indentation                                                                */

  /** measure: a tab moves the width to the next multiple of 4. */
  lemma TabStop(s: string)
    requires Blank(s)
    ensures Blank(s + "\t")
    ensures Width(s + "\t") % 4 == 0 && Width(s) < Width(s + "\t") <= Width(s) + 4
  {
    assert (s + "\t")[..|s|] == s;
  }

  /** measure: a space adds one column. */
  lemma SpaceAddsOne(s: string)
    requires Blank(s)
    ensures Blank(s + " ") && Width(s + " ") == Width(s) + 1
  {
    assert (s + " ")[..|s|] == s;
  }

  /** The widths quoted in measure's comments: a tab alone, and a tab after two spaces. */
  lemma WidthExamples()
    ensures Width("\t") == 4 && Width("  \t") == 4
  {
    assert "\t"[..0] == "";
    assert "  \t"[..2] == "  " && "  "[..1] == " " && " "[..0] == "";
  }

  /** The popped levels are exactly those above `w`; every level left is at most `w`. */
  lemma {:induction false} PopsSplit(s: seq<int>, w: int)
    requires StackOk(s) && w >= 0
    ensures Pops(s, w) < |s|
    ensures forall i :: |s| - Pops(s, w) <= i < |s| ==> w < s[i]
    ensures forall i :: 0 <= i < |s| - Pops(s, w) ==> s[i] <= w
  {
    PopsKeepsBase(s, w);
    var n := Pops(s, w);
    var kept := s[..|s| - n];
    forall i | |s| - n <= i < |s|
      ensures w < s[i]
    {
      PopsCount(s, w, |s| - 1 - i);
    }
    forall i | 0 <= i < |kept| - 1
      ensures s[i] <= w
    {
      BelowTop(kept, i);
    }
  }

  /** The top of the stack is at least the base, and equals it only when the base is alone. */
  lemma StackTop(s: seq<int>)
    requires StackOk(s)
    ensures s[|s| - 1] >= 0 && (s[|s| - 1] == 0 ==> |s| == 1)
  {
    if |s| > 1 {
      BelowTop(s, 0);
    }
  }

  /** Measuring width 0 pops every level but the base. */
  lemma {:induction false} PopsToBase(s: seq<int>)
    requires StackOk(s)
    ensures Pops(s, 0) == |s| - 1
    decreases |s|
  {
    if |s| > 1 {
      BelowTop(s, 0);
      PopsToBase(s[..|s| - 1]);
    }
  }

  /** No level of an increasing stack is above its top. */
  lemma AtMostTop(s: seq<int>, i: nat)
    requires Increasing(s) && i < |s|
    ensures s[i] <= s[|s| - 1]
  {
    if i < |s| - 1 {
      BelowTop(s, i);
    }
  }

  /** The dedent loop pops the levels above the width, at least one, never the base. */
  lemma DedentPops(source: string, c: Snapshot, size: nat)
    requires Ready(source, c) && size < c.indents[|c.indents| - 1]
    ensures var d, n := Popped(source, c, size), Pops(c.indents, size);
      && 1 <= n < |c.indents|
      && d.indents == c.indents[..|c.indents| - n]
      && d.tokens == c.tokens + Dedents(Pending(source, c), n)
      && (forall i :: |c.indents| - n <= i < |c.indents| ==> size < c.indents[i])
      && (forall i :: 0 <= i < |d.indents| ==> d.indents[i] <= size)
  {
    PopsSplit(c.indents, size);
    PopsCount(c.indents, size, 0);
  }

  /** After popping the levels above `w`, `w` was open exactly when it is the new top. */
  lemma OpenIffTop(s: seq<int>, n: nat, w: int)
    requires n < |s| && StackOk(s[..|s| - n])
    requires forall i :: |s| - n <= i < |s| ==> w < s[i]
    requires forall i :: 0 <= i < |s| - n ==> s[i] <= w
    ensures w in s <==> s[|s| - n - 1] == w
  {
    var kept := s[..|s| - n];
    if w in s {
      var j :| 0 <= j < |s| && s[j] == w;
      assert j < |kept| && kept[j] == w;
      AtMostTop(kept, j);
    }
  }

  /** The dedent ends consistently exactly when the width is one of the open levels. */
  lemma DedentConsistent(source: string, c: Snapshot, size: nat)
    requires Ready(source, c) && size < c.indents[|c.indents| - 1]
    ensures ScanDedent(source, c, size).next == Outer <==> size in c.indents
  {
    DedentPops(source, c, size);
    OpenIffTop(c.indents, Pops(c.indents, size), size);
  }

  /** An inconsistent dedent reports the level it fell back to and the width it found. */
  lemma DedentError(source: string, c: Snapshot, size: nat)
    requires Ready(source, c) && size < c.indents[|c.indents| - 1]
    requires ScanDedent(source, c, size).next == Stop
    ensures var r := ScanDedent(source, c, size);
      r.snap.tokens[|r.snap.tokens| - 1] == Token(ErrorTok, DedentMessage(r.snap.indents[|r.snap.indents| - 1], size))
  {
    var d := Popped(source, c, size);
    var top := d.indents[|d.indents| - 1];
    var r := ScanDedent(source, c, size);
    assert top < size;
    assert r.snap == Errored(d, DedentMessage(top, size));
  }

  /** The dedent loop keeps the account: one dedent token per popped level. */
  lemma PoppedKeeps(source: string, c: Snapshot, size: nat)
    requires Ready(source, c) && size < c.indents[|c.indents| - 1]
    requires NoTerminal(c.tokens) && Balanced(c)
    ensures NoTerminal(Popped(source, c, size).tokens) && Balanced(Popped(source, c, size))
  {
    var text := Pending(source, c);
    var n := Pops(c.indents, size);
    DedentPops(source, c, size);
    DedentsCount(text, n);
    DedentsPlain(text, n);
    CountAppend(c.tokens, Dedents(text, n), IndentTok);
    CountAppend(c.tokens, Dedents(text, n), DedentTok);
  }

  /** The dedent branch keeps the account, or ends with the inconsistent-dedent error. */
  lemma DedentKeeps(source: string, c: Snapshot, size: nat)
    requires Ready(source, c) && size < c.indents[|c.indents| - 1]
    requires NoTerminal(c.tokens) && Balanced(c)
    ensures var r := ScanDedent(source, c, size);
      && (r.next == Outer ==> NoTerminal(r.snap.tokens) && Balanced(r.snap) && r.snap.start == r.snap.position)
      && (r.next == Stop ==> Finished(r.snap) && r.snap.tokens[|r.snap.tokens| - 1].kind == ErrorTok)
  {
    var d := Popped(source, c, size);
    PoppedKeeps(source, c, size);
    var top := d.indents[|d.indents| - 1];
    if top < size {
      DedentStopFinishes(source, c, size);
    } else {
      assert ScanDedent(source, c, size) == Step(d, Outer);
    }
  }

  /** An inconsistent dedent finishes the stream with its error token. */
  lemma DedentStopFinishes(source: string, c: Snapshot, size: nat)
    requires Ready(source, c) && size < c.indents[|c.indents| - 1]
    requires NoTerminal(Popped(source, c, size).tokens)
    requires Popped(source, c, size).indents[|Popped(source, c, size).indents| - 1] < size
    ensures var r := ScanDedent(source, c, size);
      r.next == Stop && Finished(r.snap) && r.snap.tokens[|r.snap.tokens| - 1].kind == ErrorTok
  {
    var d := Popped(source, c, size);
    var msg := DedentMessage(d.indents[|d.indents| - 1], size);
    assert ScanDedent(source, c, size) == Step(Errored(d, msg), Stop);
    ErrorFinishes(d, msg);
  }

  /** updateIndent keeps the account and, unless it fails, leaves nothing pending. */
  lemma IndentKeeps(source: string, c: Snapshot)
    requires Ready(source, c) && NoTerminal(c.tokens) && Balanced(c)
    ensures var r := ScanIndent(source, c);
      && (r.next == Outer ==> NoTerminal(r.snap.tokens) && Balanced(r.snap) && r.snap.start == r.snap.position)
      && (r.next == Stop ==> Finished(r.snap) && r.snap.tokens[|r.snap.tokens| - 1].kind == ErrorTok)
      && (r.next == Panic ==> r.snap == c)
  {
    var text := source[c.start..c.position];
    if Blank(text) {
      var size := Width(text);
      var peek := c.indents[|c.indents| - 1];
      if size > peek {
        IndentUpKeeps(source, c);
      } else if size < peek {
        DedentKeeps(source, c, size);
        IndentDown(source, c);
      } else {
        assert ScanIndent(source, c) == Step(Ignored(c), Outer);
      }
    } else {
      assert ScanIndent(source, c) == Step(c, Panic);
    }
  }

  /** A shallower line is the dedent branch. */
  lemma IndentDown(source: string, c: Snapshot)
    requires Ready(source, c)
    requires Blank(source[c.start..c.position]) && Width(source[c.start..c.position]) < c.indents[|c.indents| - 1]
    ensures ScanIndent(source, c) == ScanDedent(source, c, Width(source[c.start..c.position]))
  {
  }

  /** A line as deep as the top of the stack gives no token and keeps the stack. */
  lemma IndentSame(source: string, c: Snapshot)
    requires Ready(source, c)
    requires Blank(Pending(source, c)) && Width(Pending(source, c)) == c.indents[|c.indents| - 1]
    ensures var r := ScanIndent(source, c);
      && r.next == Outer && r.snap.tokens == c.tokens && r.snap.indents == c.indents
      && r.snap.start == c.position
  {
  }

  /** A deeper line pushes its width with one indent token, and the account is kept. */
  lemma IndentUpKeeps(source: string, c: Snapshot)
    requires Ready(source, c) && NoTerminal(c.tokens) && Balanced(c)
    requires Blank(source[c.start..c.position]) && Width(source[c.start..c.position]) > c.indents[|c.indents| - 1]
    ensures var r := ScanIndent(source, c);
      && r.next == Outer && NoTerminal(r.snap.tokens) && Balanced(r.snap) && r.snap.start == r.snap.position
      && r.snap.tokens == c.tokens + [Token(IndentTok, Pending(source, c))]
      && r.snap.indents == c.indents + [Width(Pending(source, c))]
  {
    var text := source[c.start..c.position];
    IndentCount(c, Token(IndentTok, text), Width(text));
    assert ScanIndent(source, c) == Step(Emitted(source, c, IndentTok).(indents := c.indents + [Width(text)]), Outer);
  }

  /** An indent token and a pushed level keep the account. */
  lemma IndentCount(c: Snapshot, t: Token, w: int)
    requires NoTerminal(c.tokens) && Balanced(c) && t.kind == IndentTok
    ensures NoTerminal(c.tokens + [t]) && Balanced(c.(tokens := c.tokens + [t], indents := c.indents + [w]))
  {
    CountAppend(c.tokens, [t], IndentTok);
    CountAppend(c.tokens, [t], DedentTok);
  }

  /* ------------------------------------------------------------------------- */
  /* End of input                                                               */

  /** At the end of input with nothing pending, every open level gets a dedent, then eof. */
  lemma EndClosesAll(source: string, c: Snapshot)
    requires Ready(source, c) && c.start == c.position
    ensures var r := ScanEnd(source, c);
      && r.next == Stop && r.snap.indents == [0]
      && r.snap.tokens == c.tokens + Dedents("", |c.indents| - 1) + [Token(EofTok, "")]
  {
    var s := c.indents;
    assert Pending(source, c) == "" && Width("") == 0;
    StackTop(s);
    if s[|s| - 1] != 0 {
      DedentPops(source, c, 0);
      DedentConsistent(source, c, 0);
      PopsToBase(s);
    }
  }

  /** Closing n open levels and then the input balances the account. */
  lemma ClosingFinishes(c: Snapshot, n: nat)
    requires NoTerminal(c.tokens) && Count(c.tokens, IndentTok) == Count(c.tokens, DedentTok) + n
    ensures Finished(c.(tokens := c.tokens + Dedents("", n) + [Token(EofTok, "")], indents := [0]))
  {
    var ds := Dedents("", n);
    var eof := Token(EofTok, "");
    DedentsCount("", n);
    DedentsPlain("", n);
    CountOne(eof, IndentTok);
    CountOne(eof, DedentTok);
    CountAppend(c.tokens, ds, IndentTok);
    CountAppend(c.tokens, ds, DedentTok);
    CountAppend(c.tokens + ds, [eof], IndentTok);
    CountAppend(c.tokens + ds, [eof], DedentTok);
    var ts := c.tokens + ds + [eof];
    assert ts[..|ts| - 1] == c.tokens + ds;
  }

  /** The eof branch of OuterState keeps the account, or panics on a pending non-blank rune. */
  lemma EndKeeps(source: string, c: Snapshot)
    requires Ready(source, c) && NoTerminal(c.tokens) && Balanced(c)
    requires Pending(source, c) == "" || !Blank(Pending(source, c))
    ensures var r := ScanEnd(source, c);
      && (r.next == Stop <==> Pending(source, c) == "")
      && (r.next == Stop ==> Finished(r.snap) && r.snap.tokens[|r.snap.tokens| - 1] == Token(EofTok, ""))
      && (r.next == Panic ==> r.snap.tokens == c.tokens)
  {
    if Pending(source, c) == "" {
      EndClosesAll(source, c);
      ClosingFinishes(c, |c.indents| - 1);
    }
  }

  /* ------------------------------------------------------------------------- */
  /* The state functions keep the account                                        */

  /** What holds after a state function: resumable if running, finished if stopped. */
  ghost predicate Settled(source: string, r: Step) {
    && (r.next.Running() ==> Resumable(source, r.snap, r.next))
    && (r.next == Stop ==> Finished(r.snap))
    && (r.next == Panic ==> NoTerminal(r.snap.tokens))
  }

  /** One pass of OuterState's loop that reaches the end rune. */
  lemma TurnEndKeeps(source: string, tbl: Tables, c: Snapshot)
    requires Resumable(source, c, Outer) && RuneAt(source, c.position) == EOFRune
    ensures OuterTurn(source, tbl, c).Return? && Settled(source, OuterTurn(source, tbl, c).step)
  {
    var c1 := Advanced(source, c);
    if c.position < |source| {
      assert Pending(source, c1)[|Pending(source, c1)| - 1] == '\0';
    } else {
      assert Pending(source, c1) == Pending(source, c);
    }
    EndKeeps(source, c1);
  }

  /** One pass of OuterState's loop that goes round again. */
  lemma TurnContinueKeeps(source: string, tbl: Tables, c: Snapshot)
    requires Resumable(source, c, Outer) && OuterTurn(source, tbl, c).Continue?
    ensures Resumable(source, OuterTurn(source, tbl, c).snap, Outer)
  {
    var d := OuterTurn(source, tbl, c).snap;
    if d.tokens != c.tokens {
      var t := d.tokens[|c.tokens|];
      assert d.tokens == c.tokens + [t];
      PlainToken(c, t);
    }
  }

  /** One pass of OuterState's loop that hands over to another state. */
  lemma TurnDispatchKeeps(source: string, tbl: Tables, c: Snapshot)
    requires Resumable(source, c, Outer) && RuneAt(source, c.position) != EOFRune
    requires OuterTurn(source, tbl, c).Return? && OuterTurn(source, tbl, c).step.next.Running()
    ensures OuterTurn(source, tbl, c).step.snap == Advanced(source, c)
    ensures Settled(source, OuterTurn(source, tbl, c).step)
  {
  }

  /** One pass of OuterState's loop that meets an unexpected rune. */
  lemma TurnErrorKeeps(source: string, tbl: Tables, c: Snapshot)
    requires Resumable(source, c, Outer) && RuneAt(source, c.position) != EOFRune
    requires OuterTurn(source, tbl, c).Return? && !OuterTurn(source, tbl, c).step.next.Running()
    ensures OuterTurn(source, tbl, c).step.next == Stop
    ensures Finished(OuterTurn(source, tbl, c).step.snap)
  {
    ErrorFinishes(Advanced(source, c), UnexpectedMessage(tbl, source[c.position]));
  }

  /** One pass of OuterState's loop. */
  lemma TurnKeeps(source: string, tbl: Tables, c: Snapshot)
    requires Resumable(source, c, Outer)
    ensures var t := OuterTurn(source, tbl, c);
      && (t.Continue? ==> Resumable(source, t.snap, Outer))
      && (t.Return? ==> Settled(source, t.step))
  {
    if RuneAt(source, c.position) == EOFRune {
      TurnEndKeeps(source, tbl, c);
    } else if OuterTurn(source, tbl, c).Continue? {
      TurnContinueKeeps(source, tbl, c);
    } else if OuterTurn(source, tbl, c).step.next.Running() {
      TurnDispatchKeeps(source, tbl, c);
    } else {
      TurnErrorKeeps(source, tbl, c);
    }
  }

  /** OuterState keeps the account, whatever it meets. */
  lemma {:induction false} OuterKeeps(source: string, tbl: Tables, c: Snapshot)
    requires Resumable(source, c, Outer)
    ensures Settled(source, ScanOuter(source, tbl, c))
    decreases |source| - c.position
  {
    TurnKeeps(source, tbl, c);
    match OuterTurn(source, tbl, c)
    case Continue(d) => OuterKeeps(source, tbl, d);
    case Return(_) =>
  }

  lemma NewlineKeeps(source: string, c: Snapshot)
    requires Resumable(source, c, Newline)
    ensures Settled(source, ScanNewline(source, c))
  {
    var p := RunEnd(source, c.position, "\t ");
    var c1 := c.(start := c.position, position := p);
    if !(p < |source| && source[p] == '\n') {
      IndentKeeps(source, c1);
    }
  }

  lemma QuoteKeeps(source: string, c: Snapshot, quote: char)
    requires Resumable(source, c, DoubleQuote) && (quote == '"' || quote == '\'')
    ensures Settled(source, ScanQuote(source, c, quote))
  {
    var p := StopAt(source, c.position, [quote] + "\n\0");
    var c1 := c.(start := c.position, position := p);
    if p < |source| && source[p] == quote {
      PlainToken(c1, Token(QuoteTok, source[c1.start..p]));
      var r := ScanQuote(source, c, quote);
      assert r.snap.start == p && r.snap.position == p + 1;
      assert Pending(source, r.snap) == [quote];
    } else {
      ErrorFinishes(c1, "Runaway quote: " + source[c.position..p]);
    }
  }

  lemma ReferenceKeeps(source: string, c: Snapshot)
    requires Resumable(source, c, Reference)
    ensures Settled(source, ScanReference(source, c))
  {
    var p := RunEnd(source, c.position, ".");
    var c1 := c.(position := p);
    if source[c.start..p] == "..." {
      PlainToken(c1, Token(ReferenceTok, source[c.start..p]));
    } else {
      ErrorFinishes(c1, "Malformed reference ellipsis: " + source[c.start..p]);
    }
  }

  /** Every state function keeps the account. */
  lemma StepKeeps(source: string, tbl: Tables, c: Snapshot, st: State)
    requires Resumable(source, c, st) && st.Running()
    ensures Settled(source, ScanStep(source, tbl, c, st))
  {
    match st
    case Outer => OuterKeeps(source, tbl, c);
    case Newline => NewlineKeeps(source, c);
    case DoubleQuote => QuoteKeeps(source, c, '"');
    case SingleQuote => QuoteKeeps(source, c, '\'');
    case Directive =>
      var p := RunEnd(source, c.position, Uppercase);
      PlainToken(c.(position := p), Token(DirectiveTok, source[c.start..p]));
    case Comment =>
      var p := StopAt(source, c.position, "\n\0");
      PlainToken(c.(position := p), Token(CommentTok, source[c.start..p]));
    case Identifier =>
      var p := IdentEnd(source, c.position, tbl);
      PlainToken(c.(position := p), Token(IdentTok, source[c.start..p]));
    case Reference => ReferenceKeeps(source, c);
  }

  /**
   * The driver: a scan that stops has delivered exactly one closing token, the last,
   * and at the end-of-input token every indent has been matched by a dedent.
   */
  lemma {:induction false} RunKeeps(source: string, tbl: Tables, c: Snapshot, st: State)
    requires Resumable(source, c, st) && st.Running()
    ensures Settled(source, ScanRun(source, tbl, c, st))
    decreases |source| - c.position, st.Rank()
  {
    var s := ScanStep(source, tbl, c, st);
    StepKeeps(source, tbl, c, st);
    if s.next.Running() {
      RunKeeps(source, tbl, s.snap, s.next);
    }
  }

  /**
   * A whole session started in NewlineState or OuterState, as the scanner's callers do:
   * unless the program panics, the token stream ends with one eof or error token, and
   * an eof closes every indentation level.
   */
  lemma SessionFinishes(source: string, tbl: Tables, init: State)
    requires init == Newline || init == Outer
    ensures var r := ScanRun(source, tbl, Initial(), init);
      && (r.next == Stop || r.next == Panic)
      && (r.next == Stop ==> Finished(r.snap))
      && (r.next == Panic ==> NoTerminal(r.snap.tokens))
  {
    assert Count([], IndentTok) == 0 && Count([], DedentTok) == 0;
    assert Pending(source, Initial()) == "";
    RunKeeps(source, tbl, Initial(), init);
  }
}
