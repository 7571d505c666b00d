/**
 * The generic lexing engine (internal/lexer/lexer.go): a cursor over an immutable
 * source text, rune primitives that move it, and token emission. The source is a
 * sequence of code points, so every rune has width 1; the bounded channel of the
 * original becomes the sequence `tokens`, appended to in emission order.
 */
module Lexer {
  import opened Tokens

  /** The token type that carries an error message (lexer.go:56). */
  const ErrorTok: TokenType := -1

  /** The pseudo-rune Next returns at the end of the source (lexer.go:80). */
  const EOFRune: char := '\0'

  /**
   * The engine's state as a value: the cursor, the tokens delivered so far and the
   * scanner's indentation stack (the per-session state slot of the engine).
   */
  datatype Snapshot = Snapshot(start: nat, position: nat, atEOF: bool, tokens: seq<Token>, indents: seq<int>)

  /** 0 <= start <= position <= |source|, and the end flag is only set at the end. */
  ghost predicate CursorOk(source: string, c: Snapshot) {
    c.start <= c.position <= |source| && (c.atEOF ==> c.position == |source|)
  }

  /** The text that has been read but not yet emitted or ignored. */
  function Pending(source: string, c: Snapshot): string
    requires c.start <= c.position <= |source|
  {
    source[c.start..c.position]
  }

  /** The rune Next would read at offset i. */
  function RuneAt(source: string, i: nat): (r: char)
    requires i <= |source|
    ensures i == |source| ==> r == EOFRune
  {
    if i < |source| then source[i] else EOFRune
  }

  /** End of the longest run of runes from `chars` that starts at offset i. */
  function RunEnd(s: string, i: nat, chars: string): (j: nat)
    requires i <= |s|
    ensures i <= j <= |s|
    ensures forall k :: i <= k < j ==> s[k] in chars
    ensures j < |s| ==> s[j] !in chars
    decreases |s| - i
  {
    if i < |s| && s[i] in chars then RunEnd(s, i + 1, chars) else i
  }

  /** Offset of the first rune from `stops` at or after offset i, or the end. */
  function StopAt(s: string, i: nat, stops: string): (j: nat)
    requires i <= |s|
    ensures i <= j <= |s|
    ensures forall k :: i <= k < j ==> s[k] !in stops
    ensures j < |s| ==> s[j] in stops
    decreases |s| - i
  {
    if i < |s| && s[i] !in stops then StopAt(s, i + 1, stops) else i
  }

  /** The state after Emit(t). */
  function Emitted(source: string, c: Snapshot, t: TokenType): (d: Snapshot)
    requires c.start <= c.position <= |source|
    ensures d.tokens == c.tokens + [Token(t, source[c.start..c.position])]
    ensures d.start == d.position == c.position && d.atEOF == c.atEOF && d.indents == c.indents
  {
    c.(tokens := c.tokens + [Token(t, source[c.start..c.position])], start := c.position)
  }

  /** The state after Ignore(). */
  function Ignored(c: Snapshot): (d: Snapshot)
    ensures d.start == d.position == c.position
    ensures d.tokens == c.tokens && d.atEOF == c.atEOF && d.indents == c.indents
  {
    c.(start := c.position)
  }

  /** The state after Errorf(msg): one error token; the cursor is left alone. */
  function Errored(c: Snapshot, msg: string): (d: Snapshot)
    ensures d.tokens == c.tokens + [Token(ErrorTok, msg)]
    ensures d.start == c.start && d.position == c.position && d.atEOF == c.atEOF && d.indents == c.indents
  {
    c.(tokens := c.tokens + [Token(ErrorTok, msg)])
  }

  /** The lexer: Lex in lexer.go, with `tokens` for the channel and `indents` for the state slot. */
  class Lex {
    const source: string
    var start: nat
    var position: nat
    var atEOF: bool
    var tokens: seq<Token>
    var indents: seq<int>

    ghost predicate Valid()
      reads this
    {
      CursorOk(source, Snap())
    }

    function Snap(): Snapshot
      reads this
    {
      Snapshot(start, position, atEOF, tokens, indents)
    }

    /** New: a lexer at the beginning of `src`; the indentation stack starts as [0]. */
    constructor (src: string)
      ensures Valid()
      ensures source == src && start == 0 && position == 0 && !atEOF
      ensures tokens == [] && indents == [0]
    {
      source := src;
      start, position, atEOF := 0, 0, false;
      tokens := [];
      indents := [0];
    }

    /** The text scanned since the last emit or ignore. */
    function Current(): (s: string)
      reads this
      requires Valid()
      ensures |s| == position - start
      ensures forall i :: 0 <= i < |s| ==> s[i] == source[start + i]
    {
      Pending(source, Snap())
    }

    /** Delivers one token holding the pending text, then drops that text. */
    method Emit(t: TokenType)
      requires Valid()
      modifies this`tokens, this`start
      ensures Valid() && start == position
      ensures tokens == old(tokens) + [Token(t, old(Current()))]
      ensures Snap() == Emitted(source, old(Snap()), t)
    {
      var tok := Token(t, Current());
      Ignore();
      tokens := tokens + [tok];
    }

    /** Delivers one error token carrying `msg`; the scan ends with it. */
    method Errorf(msg: string)
      requires Valid()
      modifies this`tokens
      ensures Valid()
      ensures tokens == old(tokens) + [Token(ErrorTok, msg)]
      ensures Snap() == Errored(old(Snap()), msg)
    {
      tokens := tokens + [Token(ErrorTok, msg)];
    }

    /** Drops the pending text without a token. */
    method Ignore()
      requires Valid()
      modifies this`start
      ensures Valid() && start == position
      ensures Snap() == Ignored(old(Snap()))
    {
      start := position;
    }

    /** The rune Next would return; nothing moves. */
    method Peek() returns (r: char)
      requires Valid() && !atEOF
      modifies this`position, this`atEOF
      ensures Valid()
      ensures position == old(position) && atEOF == old(atEOF)
      ensures r == RuneAt(source, position)
    {
      r := Next();
      Backup();
    }

    /**
     * Reads one rune and moves past it. At the end it returns EOFRune, sets atEOF and
     * does not move; reading again at the end is a contract violation.
     */
    method Next() returns (r: char)
      requires Valid() && !atEOF
      modifies this`position, this`atEOF
      ensures Valid()
      ensures old(position) == |source| ==> r == EOFRune && atEOF && position == old(position)
      ensures old(position) < |source| ==> r == source[old(position)] && !atEOF && position == old(position) + 1
    {
      if position == |source| {
        atEOF := true;
        r := EOFRune;
      } else {
        r := source[position];
        position := position + 1;
      }
    }

    /**
     * Undoes a Next: after the end-of-input rune it only clears atEOF; otherwise it steps
     * back one rune, but never before `start`.
     */
    method Backup()
      requires Valid()
      modifies this`position, this`atEOF
      ensures Valid() && !atEOF
      ensures old(atEOF) ==> position == old(position)
      ensures !old(atEOF) ==> position == if old(position) > start then old(position) - 1 else old(position)
    {
      if atEOF {
        atEOF := false;
      } else if position > start {
        position := position - 1;
      }
    }

    /** Consumes the next rune when it is one of `chars`. */
    method Accept(chars: string) returns (ok: bool)
      requires Valid() && !atEOF
      modifies this`position, this`atEOF
      ensures Valid()
      ensures ok == (RuneAt(source, old(position)) in chars)
      ensures old(position) < |source| ==> position == (if ok then old(position) + 1 else old(position)) && !atEOF
      ensures old(position) == |source| ==> position == old(position) && atEOF == ok
    {
      var r := Next();
      if r in chars {
        return true;
      }
      Backup();
      return false;
    }

    /**
     * Consumes the longest run of runes from `chars`. When EOFRune is one of `chars`
     * the run must stop before the end, since reading past the end is not allowed.
     */
    method AcceptRun(chars: string)
      requires Valid() && !atEOF
      requires EOFRune in chars ==> RunEnd(source, position, chars) < |source|
      modifies this`position, this`atEOF
      ensures Valid() && !atEOF
      ensures position == RunEnd(source, old(position), chars)
    {
      ghost var end := RunEnd(source, position, chars);
      ghost var k := position;  // offset of the rune just read
      var r := Next();
      while r in chars
        invariant Valid() && old(position) <= k <= end && start <= old(position)
        invariant RunEnd(source, k, chars) == end
        invariant r == RuneAt(source, k)
        invariant if atEOF then k == |source| == position else position == k + 1
        decreases |source| - k
      {
        k := k + 1;
        r := Next();
      }
      Backup();
    }

    /** Consumes runes up to, not including, the first one from `chars`, a newline or NUL. */
    method AcceptTo(chars: string)
      requires Valid() && !atEOF
      modifies this`position, this`atEOF
      ensures Valid() && !atEOF
      ensures position == StopAt(source, old(position), chars + "\n\0")
    {
      var stops := chars + "\n\0";
      ghost var end := StopAt(source, position, stops);
      ghost var k := position;
      var r := Next();
      while r !in stops
        invariant Valid() && old(position) <= k <= end && start <= old(position)
        invariant StopAt(source, k, stops) == end
        invariant r == RuneAt(source, k)
        invariant if atEOF then k == |source| == position else position == k + 1
        decreases |source| - k
      {
        k := k + 1;
        r := Next();
      }
      Backup();
    }

    /** Whether the unread source begins with `prefix`. */
    function LookingAt(prefix: string): (b: bool)
      reads this
      requires Valid()
      ensures b <==> position + |prefix| <= |source|
                     && forall i :: 0 <= i < |prefix| ==> source[position + i] == prefix[i]
    {
      prefix <= source[position..]
    }
  }

  /** Reading "123" rune by rune: the pending text grows, then stays put at the end. */
  method MovingThroughString() returns (seen: seq<(char, string)>)
    ensures seen == [('1', "1"), ('2', "12"), ('3', "123"), (EOFRune, "123")]
  {
    var l := new Lex("123");
    var r1 := l.Next();
    var s1 := l.Current();
    var r2 := l.Next();
    var s2 := l.Current();
    var r3 := l.Next();
    var s3 := l.Current();
    var r4 := l.Next();
    var s4 := l.Current();
    assert s1 == "1" && s2 == "12" && s3 == "123" && s4 == "123";
    seen := [(r1, s1), (r2, s2), (r3, s3), (r4, s4)];
  }

  /** Backing up after one rune leaves the pending text empty. */
  method Rewind() returns (before: string, after: string)
    ensures before == "1" && after == ""
  {
    var l := new Lex("1");
    var r := l.Next();
    before := l.Current();
    l.Backup();
    after := l.Current();
  }
}
