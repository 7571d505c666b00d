/**
 * The DTDX scanner (internal/parser/scanner.go): a fixed set of state functions over
 * the Lex engine, with a stack of indentation widths that turns leading whitespace
 * into indent and dedent tokens.
 *
 * Every state function is given twice: as a pure function Scan* from one engine
 * Snapshot to the next (the specification) and as a method over a Lex object that
 * moves the cursor with the engine's rune primitives, exactly as the Go code does,
 * proved to produce the state its Scan* function describes.
 */
module Scanner {
  import opened Tokens
  import opened Lexer

  // Token types of the grammar, numbered by iota from 1 (scanner.go:14-30).
  const IndentTok: TokenType := 1
  const DedentTok: TokenType := 2
  const EqualsTok: TokenType := 3
  const OpenTok: TokenType := 4
  const CloseTok: TokenType := 5
  const SeparatorTok: TokenType := 6
  const MultiplicityTok: TokenType := 7
  const IdentTok: TokenType := 8
  const QuoteTok: TokenType := 9
  const ReferenceTok: TokenType := 10
  const DirectiveTok: TokenType := 11
  const CommentTok: TokenType := 12
  const EofTok: TokenType := 13

  /** The names the scanner registers for its token types at start-up (scanner.go:32-46). */
  const ScannerNames: map<TokenType, string> := map[
    IndentTok := "indentTok", DedentTok := "dedentTok", EqualsTok := "equalsTok",
    OpenTok := "openTok", CloseTok := "closeTok", SeparatorTok := "separatorTok",
    MultiplicityTok := "multiplicityTok", IdentTok := "identTok", QuoteTok := "quoteTok",
    ReferenceTok := "referenceTok", DirectiveTok := "directiveTok", CommentTok := "commentTok",
    EofTok := "eofTok"]

  /**
   * Every token type of the scanner renders as its own registered name, no two alike;
   * the error type, which nothing registers, renders as `tok_-1`.
   */
  lemma RegisteredNames()
    ensures forall t :: IndentTok <= t <= EofTok ==> t in ScannerNames && TypeName(ScannerNames, t) == ScannerNames[t]
    ensures forall a, b :: a in ScannerNames && b in ScannerNames && ScannerNames[a] == ScannerNames[b] ==> a == b
    ensures TypeName(ScannerNames, DedentTok) == "dedentTok"
    ensures TypeName(ScannerNames, ErrorTok) == "tok_-1"
  {
    assert Digits(1) == "1";
    assert Itoa(ErrorTok) == "-1";
  }

  /** The registry is readable: no name holds a comma or starts with `tok_`, and no two are alike. */
  lemma ScannerNamesReadable()
    ensures Readable(ScannerNames)
  {
    RegisteredNames();
    forall tt | tt in ScannerNames
      ensures Lacks(ScannerNames[tt], ',') && !(|ScannerNames[tt]| >= 4 && ScannerNames[tt][..4] == "tok_")
    {
      LettersReadable(ScannerNames[tt]);
    }
  }

  /** Text of ASCII letters only, as every registered name is. */
  predicate Letters(s: string) {
    forall k :: 0 <= k < |s| ==> 'a' <= s[k] <= 'z' || 'A' <= s[k] <= 'Z'
  }

  /** A name of letters holds no comma and cannot start with `tok_`. */
  lemma LettersReadable(s: string)
    requires Letters(s)
    ensures Lacks(s, ',') && !(|s| >= 4 && s[..4] == "tok_")
  {
    if |s| >= 4 {
      assert s[..4][3] == s[3];
    }
  }

  /** With the scanner's registry, a token's rendering determines its type and its value. */
  lemma ScannerRenderingReadsBack(t: Token, u: Token)
    requires TokenString(ScannerNames, t) == TokenString(ScannerNames, u)
    ensures t == u
  {
    ScannerNamesReadable();
    TokenStringReadsBack(ScannerNames, t, u);
  }

  const Uppercase: string := "ABCDEFGHIJKLMNOPQRSTUVWXYZ"

  /**
   * The Unicode tables the scanner consults: unicode.IsLetter, unicode.IsDigit and
   * strconv.IsPrint. They are parameters of the model, not reimplemented.
   */
  datatype Tables = Tables(isLetter: char -> bool, isDigit: char -> bool, isPrint: char -> bool)
  {
    /** As in Unicode, the NUL rune is neither a letter nor a digit. */
    predicate Valid() {
      !isLetter(EOFRune) && !isDigit(EOFRune)
    }
  }

  /** The state functions, plus Stop (the nil state) and Panic (the Go program panics). */
  datatype State =
    | Outer | Newline | DoubleQuote | SingleQuote | Directive | Comment | Identifier | Reference
    | Stop | Panic
  {
    predicate Running() {
      !Stop? && !Panic?
    }

    /**
     * Second component of the termination measure: a state function that does not move
     * the cursor hands over to Outer, which in turn either moves it or stops.
     */
    function Rank(): nat {
      if !Running() then 0 else if Outer? then 1 else 2
    }
  }

  /** What a state function leaves behind: the engine's new state and the next state. */
  datatype Step = Step(snap: Snapshot, next: State)

  /** The indentation stack: base 0 first, strictly increasing towards the top. */
  ghost predicate StackOk(s: seq<int>) {
    |s| >= 1 && s[0] == 0 && Increasing(s)
  }

  /** Each level is above the one below it. */
  ghost predicate Increasing(s: seq<int>) {
    |s| <= 1 || (s[|s| - 2] < s[|s| - 1] && Increasing(s[..|s| - 1]))
  }

  /** In an increasing stack every level below the top is smaller than the top. */
  lemma {:induction false} BelowTop(s: seq<int>, i: nat)
    requires Increasing(s) && i < |s| - 1
    ensures s[i] < s[|s| - 1]
    decreases |s|
  {
    if i < |s| - 2 {
      BelowTop(s[..|s| - 1], i);
    }
  }

  ghost predicate Ready(source: string, c: Snapshot) {
    CursorOk(source, c) && StackOk(c.indents)
  }

  /** The engine before any scanning: New followed by the lazy [0] of updateIndent. */
  function Initial(): Snapshot {
    Snapshot(0, 0, false, [], [0])
  }

  /* ------------------------------------------------------------------------- */
  /* Indentation                                                                */

  /** Text made of spaces and tabs only: the runes measure accepts. */
  predicate Blank(s: string) {
    forall i :: 0 <= i < |s| ==> s[i] == ' ' || s[i] == '\t'
  }

  /** Column width of leading whitespace: a space counts 1, a tab moves to the next multiple of 4. */
  function Width(s: string): (w: nat)
    requires Blank(s)
    ensures |s| <= w <= 4 * |s|
  {
    if s == [] then 0
    else
      var w := Width(s[..|s| - 1]);
      if s[|s| - 1] == ' ' then w + 1 else w + 4 - w % 4
  }

  /** measure: the loop that accumulates the width of the whitespace rune by rune. */
  method Measure(s: string) returns (width: nat)
    requires Blank(s)
    ensures width == Width(s)
  {
    width := 0;
    for i := 0 to |s|
      invariant width == Width(s[..i])
    {
      assert s[..i + 1][..i] == s[..i];
      if s[i] == ' ' {
        width := width + 1;
      } else {
        width := width + 4 - width % 4;  // a tab; any other rune is excluded by Blank
      }
    }
    assert s[..|s|] == s;
  }

  /** Number of levels the dedent loop pops: those on top of the stack above `w`. */
  function Pops(s: seq<int>, w: int): (n: nat)
    ensures n <= |s|
  {
    if |s| > 0 && w < s[|s| - 1] then 1 + Pops(s[..|s| - 1], w) else 0
  }

  /** The base 0 is never popped; what remains is a stack whose top is at most `w`. */
  lemma {:induction false} PopsKeepsBase(s: seq<int>, w: int)
    requires StackOk(s) && w >= 0
    ensures Pops(s, w) < |s|
    ensures StackOk(s[..|s| - Pops(s, w)])
    ensures s[|s| - Pops(s, w) - 1] <= w
  {
    if w < s[|s| - 1] {
      var t := s[..|s| - 1];
      assert |s| >= 2;
      assert StackOk(t);
      PopsKeepsBase(t, w);
      assert t[..|t| - Pops(t, w)] == s[..|s| - Pops(s, w)];
    } else {
      assert s[..|s|] == s;
    }
  }

  /** Below the count of pops, the levels met are exactly those above `w`. */
  lemma {:induction false} PopsCount(s: seq<int>, w: int, n: nat)
    requires n <= Pops(s, w) && n < |s|
    ensures n < Pops(s, w) <==> w < s[|s| - n - 1]
  {
    if n > 0 {
      PopsCount(s[..|s| - 1], w, n - 1);
    }
  }

  /** The tokens of n pops: the first carries the pending whitespace, the others are empty. */
  function Dedents(text: string, n: nat): (ts: seq<Token>)
    ensures |ts| == n
  {
    if n == 0 then [] else Dedents(text, n - 1) + [Token(DedentTok, if n == 1 then text else "")]
  }

  /** The inconsistent-dedent error: the level the pops reached and the width found. */
  function DedentMessage(expected: int, found: int): string {
    "Inconsistent dedent. Expecting " + Itoa(expected) + " but found " + Itoa(found) + "."
  }

  /** updateIndent: compares the width of the pending whitespace with the top of the stack. */
  function ScanIndent(source: string, c: Snapshot): (r: Step)
    requires Ready(source, c)
    ensures Ready(source, r.snap)
    ensures r.snap.position == c.position && r.snap.atEOF == c.atEOF
    ensures r.next == Outer || r.next == Stop || r.next == Panic
  {
    var text := source[c.start..c.position];
    if !Blank(text) then Step(c, Panic)  // measure panics on any other rune
    else
      var size := Width(text);
      var peek := c.indents[|c.indents| - 1];
      if size == peek then Step(Ignored(c), Outer)
      else if size > peek then Step(Emitted(source, c, IndentTok).(indents := c.indents + [size]), Outer)
      else ScanDedent(source, c, size)
  }

  /**
   * The dedent branch of updateIndent: pop the levels above `size`, one dedent token
   * each; the width must then be one of the levels left.
   */
  function ScanDedent(source: string, c: Snapshot, size: nat): (r: Step)
    requires Ready(source, c) && size < c.indents[|c.indents| - 1]
    ensures Ready(source, r.snap)
    ensures r.snap.position == c.position && r.snap.atEOF == c.atEOF
    ensures r.next == Outer || r.next == Stop
  {
    var d := Popped(source, c, size);
    var top := d.indents[|d.indents| - 1];
    if top < size then Step(Errored(d, DedentMessage(top, size)), Stop)
    else Step(d, Outer)
  }

  /** The state after the dedent loop: the levels above `size` are gone, each with its dedent token. */
  function Popped(source: string, c: Snapshot, size: nat): (d: Snapshot)
    requires Ready(source, c) && size < c.indents[|c.indents| - 1]
    ensures Ready(source, d) && d.start == d.position == c.position && d.atEOF == c.atEOF
    ensures d.indents[|d.indents| - 1] <= size
  {
    PopsKeepsBase(c.indents, size);
    var n := Pops(c.indents, size);
    c.(tokens := c.tokens + Dedents(source[c.start..c.position], n), start := c.position, indents := c.indents[..|c.indents| - n])
  }

  /* ------------------------------------------------------------------------- */
  /* The other states                                                           */

  /** NewlineState: skips blank lines, then measures the indentation of the next line. */
  function ScanNewline(source: string, c: Snapshot): (r: Step)
    requires Ready(source, c) && !c.atEOF
    ensures Ready(source, r.snap) && c.position <= r.snap.position && !r.snap.atEOF
    ensures r.next == Newline ==> c.position < r.snap.position
    ensures r.next != Outer && r.next != Newline ==> !r.next.Running()
  {
    var p := RunEnd(source, c.position, "\t ");
    var c1 := c.(start := c.position, position := p);
    if p < |source| && source[p] == '\n' then Step(c1.(position := p + 1), Newline)
    else ScanIndent(source, c1)
  }

  /** quoteHelper: the quoted text up to the closing delimiter, which is read but not dropped. */
  function ScanQuote(source: string, c: Snapshot, quote: char): (r: Step)
    requires CursorOk(source, c) && !c.atEOF
    ensures CursorOk(source, r.snap) && r.snap.indents == c.indents && c.position <= r.snap.position && !r.snap.atEOF
    ensures r.next == Outer ==> c.position < r.snap.position
    ensures r.next == Outer || r.next == Stop
  {
    var p := StopAt(source, c.position, [quote] + "\n\0");
    var c1 := c.(start := c.position, position := p);
    if p < |source| && source[p] == quote then Step(Emitted(source, c1, QuoteTok).(position := p + 1), Outer)
    else Step(Errored(c1, "Runaway quote: " + source[c.position..p]), Stop)
  }

  /** DirectiveState: `#` and the run of capitals after it. */
  function ScanDirective(source: string, c: Snapshot): (r: Step)
    requires CursorOk(source, c) && !c.atEOF
    ensures CursorOk(source, r.snap) && r.snap.indents == c.indents && c.position <= r.snap.position && !r.snap.atEOF
    ensures r.next == Outer
  {
    var p := RunEnd(source, c.position, Uppercase);
    Step(Emitted(source, c.(position := p), DirectiveTok), Outer)
  }

  /** CommentState: `#` and the rest of the line. */
  function ScanComment(source: string, c: Snapshot): (r: Step)
    requires CursorOk(source, c) && !c.atEOF
    ensures CursorOk(source, r.snap) && r.snap.indents == c.indents && c.position <= r.snap.position && !r.snap.atEOF
    ensures r.next == Outer
  {
    var p := StopAt(source, c.position, "\n\0");
    Step(Emitted(source, c.(position := p), CommentTok), Outer)
  }

  /**
   * isAlphaNumeric: the runes that continue an identifier, the underscore among them.
   * The end rune is never one, so an identifier stops at the end of the input.
   */
  function IsAlphaNumeric(tbl: Tables, r: char): (ok: bool)
    ensures r == '_' ==> ok
    ensures tbl.Valid() && r == EOFRune ==> !ok
  {
    r == '_' || tbl.isLetter(r) || tbl.isDigit(r)
  }

  /** End of the run of identifier runes that starts at offset i. */
  function IdentEnd(s: string, i: nat, tbl: Tables): (j: nat)
    requires i <= |s|
    ensures i <= j <= |s|
    ensures forall k :: i <= k < j ==> IsAlphaNumeric(tbl, s[k])
    ensures j < |s| ==> !IsAlphaNumeric(tbl, s[j])
    decreases |s| - i
  {
    if i < |s| && IsAlphaNumeric(tbl, s[i]) then IdentEnd(s, i + 1, tbl) else i
  }

  /** IdentifierState: the first rune was read by Outer; the rest are letters, digits or `_`. */
  function ScanIdentifier(source: string, tbl: Tables, c: Snapshot): (r: Step)
    requires CursorOk(source, c) && !c.atEOF
    ensures CursorOk(source, r.snap) && r.snap.indents == c.indents && c.position <= r.snap.position && !r.snap.atEOF
    ensures r.next == Outer
  {
    var p := IdentEnd(source, c.position, tbl);
    Step(Emitted(source, c.(position := p), IdentTok), Outer)
  }

  /** ReferenceState: a run of dots is a reference when it is exactly "...". */
  function ScanReference(source: string, c: Snapshot): (r: Step)
    requires CursorOk(source, c) && !c.atEOF
    ensures CursorOk(source, r.snap) && r.snap.indents == c.indents && c.position <= r.snap.position && !r.snap.atEOF
    ensures r.next == Outer || r.next == Stop
  {
    var p := RunEnd(source, c.position, ".");
    var c1 := c.(position := p);
    if source[c.start..p] == "..." then Step(Emitted(source, c1, ReferenceTok), Outer)
    else Step(Errored(c1, "Malformed reference ellipsis: " + source[c.start..p]), Stop)
  }

  /** An upper-case hexadecimal digit. */
  predicate IsHexChar(ch: char) {
    '0' <= ch <= '9' || 'A' <= ch <= 'F'
  }

  /** Text made of upper-case hexadecimal digits only. */
  predicate AllHex(s: string) {
    forall k :: 0 <= k < |s| ==> IsHexChar(s[k])
  }

  function HexChar(d: nat): (ch: char)
    requires d < 16
    ensures IsHexChar(ch)
  {
    if d < 10 then ('0' as int + d) as char else ('A' as int + d - 10) as char
  }

  /** Upper-case hexadecimal digits of n, most significant first. */
  function HexDigits(n: nat): (s: string)
    ensures |s| >= 1
  {
    if n < 16 then [HexChar(n)] else HexDigits(n / 16) + [HexChar(n % 16)]
  }

  /** Left-pads hex digits with zeros up to `width`. */
  function ZeroPad(s: string, width: nat): (t: string)
    ensures |t| >= width && |t| >= |s|
    decreases width - |s|
  {
    if |s| >= width then s else ZeroPad("0" + s, width)
  }

  /**
   * fmt's %#U: U+ and at least four hex digits, then the rune between single quotes
   * when it is printable.
   */
  function UnicodeNotation(tbl: Tables, r: char): string {
    "U+" + ZeroPad(HexDigits(r as int), 4) + (if tbl.isPrint(r) then " '" + [r] + "'" else "")
  }

  /** The unexpected-character error of OuterState. */
  function UnexpectedMessage(tbl: Tables, r: char): string {
    "Unexpected unicode character (" + UnicodeNotation(tbl, r) + ") in outer context."
  }

  /** The EOFRune case of OuterState: close the open levels, then the end-of-input token. */
  function ScanEnd(source: string, c: Snapshot): (r: Step)
    requires Ready(source, c)
    ensures Ready(source, r.snap) && r.snap.position == c.position && r.snap.atEOF == c.atEOF
    ensures r.next == Stop || r.next == Panic
  {
    var u := ScanIndent(source, c);
    if u.next == Panic then u else Step(Emitted(source, u.snap, EofTok), Stop)
  }

  /** The cursor after Next: one rune further, or the end flag set at the end. */
  function Advanced(source: string, c: Snapshot): (d: Snapshot)
    requires CursorOk(source, c) && !c.atEOF
    ensures CursorOk(source, d) && d.start == c.start && d.tokens == c.tokens && d.indents == c.indents
    ensures c.position < |source| ==> d.position == c.position + 1 && !d.atEOF
    ensures c.position == |source| ==> d.position == c.position && d.atEOF
  {
    if c.position == |source| then c.(atEOF := true) else c.(position := c.position + 1)
  }

  /** What one pass of OuterState's loop does: go round again from a new state, or return. */
  datatype Turn = Continue(snap: Snapshot) | Return(step: Step)

  /** One pass of OuterState's loop: read a rune and act on it. */
  function OuterTurn(source: string, tbl: Tables, c: Snapshot): (t: Turn)
    requires Ready(source, c) && !c.atEOF
    ensures t.Continue? ==> Ready(source, t.snap) && !t.snap.atEOF && c.position < t.snap.position
    ensures t.Return? ==> Ready(source, t.step.snap) && c.position <= t.step.snap.position
    ensures t.Return? && t.step.next.Running() ==>
      c.position < t.step.snap.position && !t.step.snap.atEOF && t.step.next != Outer
    ensures t.Continue? ==> t.snap.start == t.snap.position && t.snap.indents == c.indents
    ensures t.Continue? && t.snap.tokens != c.tokens ==>
      && |t.snap.tokens| == |c.tokens| + 1 && t.snap.tokens[..|c.tokens|] == c.tokens
      && EqualsTok <= t.snap.tokens[|c.tokens|].kind <= MultiplicityTok
    ensures t.Return? && !t.step.next.Running() && RuneAt(source, c.position) != EOFRune ==>
      t.step == Step(Errored(Advanced(source, c), UnexpectedMessage(tbl, source[c.position])), Stop)
  {
    var c1 := Advanced(source, c);
    var ch := RuneAt(source, c.position);
    match ch
    case ' ' | '\t' => Continue(Ignored(c1))
    case '\n' => Return(Step(c1, Newline))
    case '=' => Continue(Emitted(source, c1, EqualsTok))
    case '(' => Continue(Emitted(source, c1, OpenTok))
    case ')' => Continue(Emitted(source, c1, CloseTok))
    case ',' | '|' | '&' => Continue(Emitted(source, c1, SeparatorTok))
    case '*' | '+' | '?' => Continue(Emitted(source, c1, MultiplicityTok))
    case '"' => Return(Step(c1, DoubleQuote))
    case '\'' => Return(Step(c1, SingleQuote))
    case '.' => Return(Step(c1, Reference))
    case '#' => Return(Step(c1, if 'A' <= RuneAt(source, c1.position) <= 'Z' then Directive else Comment))
    case '\0' => Return(ScanEnd(source, c1))  // the end of input, or a NUL in the text
    case _ =>
      if tbl.isLetter(ch) || ch == '_' || ch == ':' then Return(Step(c1, Identifier))
      else Return(Step(Errored(c1, UnexpectedMessage(tbl, ch)), Stop))
  }

  /** OuterState: drops blanks, emits one-rune tokens, and dispatches on everything else. */
  function ScanOuter(source: string, tbl: Tables, c: Snapshot): (r: Step)
    requires Ready(source, c) && !c.atEOF
    ensures Ready(source, r.snap) && c.position <= r.snap.position
    ensures r.next.Running() ==> c.position < r.snap.position && !r.snap.atEOF && r.next != Outer
    decreases |source| - c.position
  {
    match OuterTurn(source, tbl, c)
    case Continue(d) => ScanOuter(source, tbl, d)
    case Return(s) => s
  }

  /** One call of a state function. */
  function ScanStep(source: string, tbl: Tables, c: Snapshot, st: State): (r: Step)
    requires Ready(source, c) && !c.atEOF && st.Running()
    ensures Ready(source, r.snap) && c.position <= r.snap.position
    ensures r.next.Running() ==> !r.snap.atEOF
    ensures c.position < r.snap.position || r.next.Rank() < st.Rank()
  {
    match st
    case Outer => ScanOuter(source, tbl, c)
    case Newline => ScanNewline(source, c)
    case DoubleQuote => ScanQuote(source, c, '"')
    case SingleQuote => ScanQuote(source, c, '\'')
    case Directive => ScanDirective(source, c)
    case Comment => ScanComment(source, c)
    case Identifier => ScanIdentifier(source, tbl, c)
    case Reference => ScanReference(source, c)
  }

  /** The driver: state functions run until one returns nil (Stop) or the program panics. */
  function ScanRun(source: string, tbl: Tables, c: Snapshot, st: State): (r: Step)
    requires Ready(source, c) && (st.Running() ==> !c.atEOF)
    ensures Ready(source, r.snap) && !r.next.Running()
    decreases |source| - c.position, st.Rank()
  {
    if !st.Running() then Step(c, st)
    else
      var s := ScanStep(source, tbl, c, st);
      ScanRun(source, tbl, s.snap, s.next)
  }

  /* ------------------------------------------------------------------------- */
  /* The state functions as methods over the engine                             */

  /** The dedent loop of updateIndent: pops every level above `size`, one dedent token each. */
  method PopLevels(l: Lex, size: nat) returns (peek: int)
    requires l.Valid() && StackOk(l.indents) && size < l.indents[|l.indents| - 1]
    modifies l`tokens, l`start, l`indents
    ensures l.Valid() && l.Snap() == Popped(l.source, old(l.Snap()), size)
    ensures peek == l.indents[|l.indents| - 1]
  {
    ghost var stack, text := l.indents, l.Current();
    ghost var n := 0;  // levels popped so far
    PopsKeepsBase(stack, size);
    peek := l.indents[|l.indents| - 1];
    PopsCount(stack, size, 0);
    while size < peek
      invariant l.Valid() && n <= Pops(stack, size)
      invariant l.indents == stack[..|stack| - n] && peek == stack[|stack| - n - 1]
      invariant n < Pops(stack, size) <==> size < peek
      invariant l.tokens == old(l.tokens) + Dedents(text, n)
      invariant if n == 0 then l.start == old(l.start) else l.start == l.position
      decreases Pops(stack, size) - n
    {
      assert l.Current() == if n == 0 then text else "";
      l.Emit(DedentTok);
      n := n + 1;
      PopsCount(stack, size, n);
      peek, l.indents := l.indents[|l.indents| - 2], l.indents[..|l.indents| - 1];  // pop
    }
    assert n == Pops(stack, size);
  }

  method UpdateIndent(l: Lex) returns (next: State)
    requires l.Valid() && StackOk(l.indents)
    modifies l`tokens, l`start, l`indents
    ensures Step(l.Snap(), next) == ScanIndent(l.source, old(l.Snap()))
  {
    var text := l.Current();
    if !Blank(text) {
      return Panic;  // measure panics: "Bad rune found in indent"
    }
    var size := Measure(text);
    var peek := l.indents[|l.indents| - 1];
    if size == peek {
      l.Ignore();
    } else if size > peek {
      l.Emit(IndentTok);
      l.indents := l.indents + [size];  // push
    } else {
      next := Dedent(l, size);
      return;
    }
    return Outer;
  }

  /** The dedent branch of updateIndent. */
  method Dedent(l: Lex, size: nat) returns (next: State)
    requires l.Valid() && StackOk(l.indents) && size < l.indents[|l.indents| - 1]
    modifies l`tokens, l`start, l`indents
    ensures Step(l.Snap(), next) == ScanDedent(l.source, old(l.Snap()), size)
  {
    ghost var c := l.Snap();
    var peek := PopLevels(l, size);
    ghost var d := l.Snap();
    if peek < size {
      l.Errorf(DedentMessage(peek, size));
      assert l.Snap() == Errored(d, DedentMessage(peek, size));
      return Stop;
    }
    return Outer;
  }

  /** The EOFRune case of OuterState: the final dedents, then the end-of-input token. */
  method Finish(l: Lex) returns (next: State)
    requires l.Valid() && StackOk(l.indents)
    modifies l`tokens, l`start, l`indents
    ensures Step(l.Snap(), next) == ScanEnd(l.source, old(l.Snap()))
  {
    next := UpdateIndent(l);
    if next == Panic {
      return;
    }
    l.Emit(EofTok);
    return Stop;
  }

  /**
   * One pass of OuterState's loop: reads a rune and acts on it. `done` says whether the
   * state function returns `next` after it.
   */
  method OuterPass(l: Lex, tbl: Tables) returns (done: bool, next: State)
    requires l.Valid() && !l.atEOF && StackOk(l.indents)
    modifies l
    ensures done ==> OuterTurn(l.source, tbl, old(l.Snap())) == Return(Step(l.Snap(), next))
    ensures !done ==> OuterTurn(l.source, tbl, old(l.Snap())) == Continue(l.Snap())
  {
    done, next := true, Outer;
    var r := l.Next();
    match r
    case ' ' | '\t' =>
      l.Ignore();
      done := false;
    case '\n' =>
      next := Newline;
    case '=' =>
      l.Emit(EqualsTok);
      done := false;
    case '(' =>
      l.Emit(OpenTok);
      done := false;
    case ')' =>
      l.Emit(CloseTok);
      done := false;
    case ',' | '|' | '&' =>
      l.Emit(SeparatorTok);
      done := false;
    case '*' | '+' | '?' =>
      l.Emit(MultiplicityTok);
      done := false;
    case '"' =>
      next := DoubleQuote;
    case '\'' =>
      next := SingleQuote;
    case '.' =>
      next := Reference;
    case '#' =>
      r := l.Peek();
      next := if 'A' <= r <= 'Z' then Directive else Comment;
    case '\0' =>  // EOFRune
      next := Finish(l);
    case _ =>
      if tbl.isLetter(r) || r == '_' || r == ':' {
        next := Identifier;
      } else {
        l.Errorf(UnexpectedMessage(tbl, r));
        next := Stop;
      }
  }

  method OuterState(l: Lex, tbl: Tables) returns (next: State)
    requires l.Valid() && !l.atEOF && StackOk(l.indents)
    modifies l
    ensures Step(l.Snap(), next) == ScanOuter(l.source, tbl, old(l.Snap()))
  {
    while true
      invariant l.Valid() && !l.atEOF && l.indents == old(l.indents)
      invariant ScanOuter(l.source, tbl, l.Snap()) == ScanOuter(l.source, tbl, old(l.Snap()))
      decreases |l.source| - l.position
    {
      var done;
      done, next := OuterPass(l, tbl);
      if done {
        return;
      }
    }
  }

  method NewlineState(l: Lex) returns (next: State)
    requires l.Valid() && !l.atEOF && StackOk(l.indents)
    modifies l
    ensures Step(l.Snap(), next) == ScanNewline(l.source, old(l.Snap()))
  {
    l.Ignore();  // drop the newline, if any
    l.AcceptRun("\t ");
    if l.LookingAt("\n") {  // a blank line
      var newline := l.Next();
      return Newline;
    }
    next := UpdateIndent(l);
  }

  method QuoteHelper(l: Lex, quote: char) returns (next: State)
    requires l.Valid() && !l.atEOF
    modifies l
    ensures Step(l.Snap(), next) == ScanQuote(l.source, old(l.Snap()), quote)
  {
    l.Ignore();  // drop the opening quote
    l.AcceptTo([quote]);
    if l.LookingAt([quote]) {
      l.Emit(QuoteTok);
      var closing := l.Next();  // skip the closing quote
      return Outer;
    }
    l.Errorf("Runaway quote: " + l.Current());
    return Stop;
  }

  method DoubleQuoteState(l: Lex) returns (next: State)
    requires l.Valid() && !l.atEOF
    modifies l
    ensures Step(l.Snap(), next) == ScanQuote(l.source, old(l.Snap()), '"')
  {
    next := QuoteHelper(l, '"');
  }

  method SingleQuoteState(l: Lex) returns (next: State)
    requires l.Valid() && !l.atEOF
    modifies l
    ensures Step(l.Snap(), next) == ScanQuote(l.source, old(l.Snap()), '\'')
  {
    next := QuoteHelper(l, '\'');
  }

  method DirectiveState(l: Lex) returns (next: State)
    requires l.Valid() && !l.atEOF
    modifies l
    ensures Step(l.Snap(), next) == ScanDirective(l.source, old(l.Snap()))
  {
    l.AcceptRun(Uppercase);
    l.Emit(DirectiveTok);
    return Outer;
  }

  method CommentState(l: Lex) returns (next: State)
    requires l.Valid() && !l.atEOF
    modifies l
    ensures Step(l.Snap(), next) == ScanComment(l.source, old(l.Snap()))
  {
    l.AcceptTo("");  // newline or end of input
    l.Emit(CommentTok);
    return Outer;
  }

  method IdentifierState(l: Lex, tbl: Tables) returns (next: State)
    requires l.Valid() && !l.atEOF && tbl.Valid()
    modifies l
    ensures Step(l.Snap(), next) == ScanIdentifier(l.source, tbl, old(l.Snap()))
  {
    ghost var end := IdentEnd(l.source, l.position, tbl);
    while true
      invariant l.Valid() && !l.atEOF && l.start == old(l.start) && old(l.position) <= l.position <= end
      invariant IdentEnd(l.source, l.position, tbl) == end
      invariant l.tokens == old(l.tokens) && l.indents == old(l.indents)
      decreases |l.source| - l.position
    {
      var r := l.Next();
      if !IsAlphaNumeric(tbl, r) {
        l.Backup();
        break;
      }
    }
    l.Emit(IdentTok);
    return Outer;
  }

  method ReferenceState(l: Lex) returns (next: State)
    requires l.Valid() && !l.atEOF
    modifies l
    ensures Step(l.Snap(), next) == ScanReference(l.source, old(l.Snap()))
  {
    l.AcceptRun(".");
    if l.Current() == "..." {
      l.Emit(ReferenceTok);
      return Outer;
    }
    l.Errorf("Malformed reference ellipsis: " + l.Current());
    return Stop;
  }

  /** Calls the state function `st` names. */
  method RunState(l: Lex, tbl: Tables, st: State) returns (next: State)
    requires l.Valid() && !l.atEOF && StackOk(l.indents) && st.Running() && tbl.Valid()
    modifies l
    ensures Step(l.Snap(), next) == ScanStep(l.source, tbl, old(l.Snap()), st)
  {
    match st
    case Outer => next := OuterState(l, tbl);
    case Newline => next := NewlineState(l);
    case DoubleQuote => next := DoubleQuoteState(l);
    case SingleQuote => next := SingleQuoteState(l);
    case Directive => next := DirectiveState(l);
    case Comment => next := CommentState(l);
    case Identifier => next := IdentifierState(l, tbl);
    case Reference => next := ReferenceState(l);
  }

  /** Start, without the goroutine: calls the current state function until it hands back the nil state. */
  method Start(l: Lex, tbl: Tables, init: State) returns (last: State)
    requires l.Valid() && StackOk(l.indents) && tbl.Valid() && (init.Running() ==> !l.atEOF)
    modifies l
    ensures Step(l.Snap(), last) == ScanRun(l.source, tbl, old(l.Snap()), init)
    ensures last == Stop || last == Panic
  {
    var state := init;
    while state.Running()
      invariant l.Valid() && StackOk(l.indents) && (state.Running() ==> !l.atEOF)
      invariant ScanRun(l.source, tbl, l.Snap(), state) == ScanRun(l.source, tbl, old(l.Snap()), init)
      decreases |l.source| - l.position, state.Rank()
    {
      state := RunState(l, tbl, state);
    }
    last := state;
  }

  /** A whole session: New(src) and Start(init), returning every token delivered. */
  method Tokenize(src: string, tbl: Tables, init: State) returns (tokens: seq<Token>, last: State)
    requires tbl.Valid()
    ensures tokens == ScanRun(src, tbl, Initial(), init).snap.tokens
    ensures last == ScanRun(src, tbl, Initial(), init).next
  {
    var l := new Lex(src);
    last := Start(l, tbl, init);
    tokens := l.tokens;
  }
}
