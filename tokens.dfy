/** Token values and their printable form (internal/lexer/token.go). */
module Tokens {

  /** A token category: a small integer, each grammar declares its own values. */
  type TokenType = int

  /** A lexeme: its category and the slice of the source text it covers. */
  datatype Token = Token(kind: TokenType, value: string)

  predicate IsDigitChar(ch: char) {
    '0' <= ch <= '9'
  }

  function DigitChar(d: nat): char
    requires d < 10
  {
    ('0' as int + d) as char
  }

  /** Text made of decimal digits only. */
  predicate AllDigits(s: string) {
    forall i :: 0 <= i < |s| ==> IsDigitChar(s[i])
  }

  /** Decimal digits of a natural number, most significant first. */
  function Digits(n: nat): (s: string)
    ensures |s| >= 1
  {
    if n < 10 then [DigitChar(n)] else Digits(n / 10) + [DigitChar(n % 10)]
  }

  /** The number a string of decimal digits denotes (the partner of Digits). */
  function DigitsValue(s: string): nat
    requires AllDigits(s)
  {
    if s == [] then 0
    else DigitsValue(s[..|s| - 1]) * 10 + DigitValue(s[|s| - 1])
  }

  function DigitValue(ch: char): (d: nat)
    requires IsDigitChar(ch)
    ensures d < 10
  {
    ch as int - '0' as int
  }

  /** Digits writes decimal digits with no leading zero, and they read back as n. */
  lemma {:induction false} DigitsRoundTrip(n: nat)
    ensures AllDigits(Digits(n)) && (Digits(n)[0] == '0' ==> n == 0)
    ensures DigitsValue(Digits(n)) == n
  {
    if n >= 10 {
      var s := Digits(n);
      DigitsRoundTrip(n / 10);
      assert s == Digits(n / 10) + [DigitChar(n % 10)];
      assert s[..|s| - 1] == Digits(n / 10);
    }
  }

  /** strconv.Itoa: decimal text of an integer, with a leading minus sign when negative. */
  function Itoa(i: int): (s: string)
    ensures |s| >= 1
  {
    if i < 0 then "-" + Digits(-i) else Digits(i)
  }

  /** Optional minus sign, then decimal digits. */
  predicate IsDecimal(s: string) {
    && |s| >= 1
    && (s[0] == '-' ==> AllDigits(s[1..]))
    && (s[0] != '-' ==> AllDigits(s))
  }

  /** Reads back the text Itoa writes. */
  function Atoi(s: string): int
    requires IsDecimal(s)
  {
    if s[0] == '-' then -(DigitsValue(s[1..]) as int) else DigitsValue(s)
  }

  /** Itoa loses nothing: its text is decimal, signed exactly when i is negative, and reads back as i. */
  lemma ItoaRoundTrip(i: int)
    ensures IsDecimal(Itoa(i)) && (Itoa(i)[0] == '-' <==> i < 0)
    ensures Atoi(Itoa(i)) == i
  {
    if i < 0 {
      assert Itoa(i)[1..] == Digits(-i);
      DigitsRoundTrip(-i);
    } else {
      DigitsRoundTrip(i);
      assert IsDigitChar(Itoa(i)[0]);
    }
  }

  /** Two different integers never print alike. */
  lemma ItoaInjective(i: int, j: int)
    requires Itoa(i) == Itoa(j)
    ensures i == j
  {
    ItoaRoundTrip(i);
    ItoaRoundTrip(j);
  }

  /**
   * TokenType.String: the name registered in `names` (the read-only TokenName registry),
   * otherwise "tok_" followed by the decimal value.
   */
  function TypeName(names: map<TokenType, string>, tt: TokenType): (s: string)
    ensures tt in names ==> s == names[tt]
    ensures tt !in names ==> |s| > 4 && s[..4] == "tok_" && IsDecimal(s[4..]) && Atoi(s[4..]) == tt
  {
    if tt in names then names[tt]
    else
      ItoaRoundTrip(tt);
      assert ("tok_" + Itoa(tt))[4..] == Itoa(tt);
      "tok_" + Itoa(tt)
  }

  /** Unregistered token types keep distinct names. */
  lemma UnregisteredNamesDistinct(names: map<TokenType, string>, a: TokenType, b: TokenType)
    requires a !in names && b !in names && TypeName(names, a) == TypeName(names, b)
    ensures a == b
  {
    var s := TypeName(names, a);
    assert Atoi(s[4..]) == a && Atoi(s[4..]) == b;
  }

  /** Token.String: `{type, "value"}`. */
  function TokenString(names: map<TokenType, string>, t: Token): (s: string)
    ensures |s| == |TypeName(names, t.kind)| + |t.value| + 6
    ensures s[0] == '{' && s[|s| - 2..] == "\"}"
  {
    "{" + TypeName(names, t.kind) + ", \"" + t.value + "\"}"
  }

  /** The value sits between the type's name plus `, "` and the closing `"}`. */
  lemma {:induction false} TokenStringValue(names: map<TokenType, string>, t: Token)
    ensures var s, n := TokenString(names, t), TypeName(names, t.kind);
      && s[1..1 + |n|] == n && s[1 + |n|..4 + |n|] == ", \"" && s[4 + |n|..|s| - 2] == t.value
  {
    var n := TypeName(names, t.kind);
    var s := TokenString(names, t);
    var head := "{" + n + ", \"";
    assert s == head + (t.value + "\"}");
    assert s[..|head|] == head;
    assert s[1..1 + |n|] == head[1..1 + |n|];
    assert s[1 + |n|..4 + |n|] == head[1 + |n|..];
    assert s[|head|..] == t.value + "\"}";
    assert s[4 + |n|..|s| - 2] == s[|head|..][..|t.value|];
  }

  /** The rendering of a token determines the token, given its type's name. */
  lemma {:induction false} TokenStringDeterminesValue(names: map<TokenType, string>, t: Token, u: Token)
    requires TokenString(names, t) == TokenString(names, u)
    requires TypeName(names, t.kind) == TypeName(names, u.kind)
    ensures t.value == u.value
  {
    TokenStringValue(names, t);
    TokenStringValue(names, u);
  }

  /** Renderings shown in the scanner's expected outputs. */
  lemma RenderingExamples()
    ensures TokenString(map[2 := "dedentTok"], Token(2, "")) == "{dedentTok, \"\"}"
    ensures TokenString(map[], Token(-1, "x")) == "{tok_-1, \"x\"}"
    ensures TypeName(map[], 13) == "tok_13"
  {
    assert Itoa(-1) == "-1" by {
      assert Digits(1) == "1";
    }
    assert Itoa(13) == "13" by {
      assert Digits(1) == "1" && Digits(13) == Digits(1) + "3";
    }
    assert TypeName(map[], -1) == "tok_-1";
    assert TypeName(map[2 := "dedentTok"], 2) == "dedentTok";
  }

  /** Text without the rune `mark`. */
  predicate Lacks(s: string, mark: char) {
    forall k :: 0 <= k < |s| ==> s[k] != mark
  }

  /** In a text without `mark` followed by one that starts with it, the first `mark` is at the join. */
  lemma FirstMark(a: string, x: string, mark: char)
    requires |x| >= 1 && x[0] == mark && Lacks(a, mark)
    ensures (a + x)[|a|] == mark && forall k :: 0 <= k < |a| ==> (a + x)[k] != mark
  {
  }

  /** Two texts without `mark`, each followed by a text that starts with it, split alike. */
  lemma SplitAtMark(a: string, x: string, b: string, y: string, mark: char)
    requires a + x == b + y
    requires |x| >= 1 && x[0] == mark && |y| >= 1 && y[0] == mark
    requires Lacks(a, mark) && Lacks(b, mark)
    ensures a == b && x == y
  {
    FirstMark(a, x, mark);
    FirstMark(b, y, mark);
    assert |a| == |b|;
    assert a == (a + x)[..|a|] && b == (b + y)[..|b|];
    assert x == (a + x)[|a|..] && y == (b + y)[|b|..];
  }

  /**
   * A registry whose renderings can be read back: no name holds a comma or looks like
   * the `tok_` fallback, and no two types share a name.
   */
  predicate Readable(names: map<TokenType, string>) {
    && (forall tt :: tt in names ==> Lacks(names[tt], ',') && !(|names[tt]| >= 4 && names[tt][..4] == "tok_"))
    && (forall a, b :: a in names && b in names && names[a] == names[b] ==> a == b)
  }

  /** The fallback name `tok_N` holds no comma. */
  lemma FallbackLacksComma(names: map<TokenType, string>, tt: TokenType)
    requires tt !in names
    ensures Lacks(TypeName(names, tt), ',')
  {
    var s := TypeName(names, tt);
    var d := s[4..];
    forall k | 0 <= k < |s|
      ensures s[k] != ','
    {
      if k < 4 {
        assert s[k] == s[..4][k];
      } else if d[0] == '-' && k > 4 {
        assert s[k] == d[1..][k - 5];
      } else {
        assert s[k] == d[k - 4];
      }
    }
  }

  /** Under a readable registry, no type's name holds a comma. */
  lemma NameLacksComma(names: map<TokenType, string>, tt: TokenType)
    requires Readable(names)
    ensures Lacks(TypeName(names, tt), ',')
  {
    if tt !in names {
      FallbackLacksComma(names, tt);
    }
  }

  /** Under a readable registry, different token types have different names. */
  lemma TypeNameInjective(names: map<TokenType, string>, a: TokenType, b: TokenType)
    requires Readable(names) && TypeName(names, a) == TypeName(names, b)
    ensures a == b
  {
    if a !in names && b !in names {
      UnregisteredNamesDistinct(names, a, b);
    }
  }

  /** After the opening brace, a rendering is the type's name followed by a text that starts with a comma. */
  lemma RenderingAfterBrace(names: map<TokenType, string>, t: Token)
    ensures TokenString(names, t)[1..] == TypeName(names, t.kind) + (", \"" + t.value + "\"}")
  {
  }

  /** Under a readable registry, Token.String loses nothing: the rendering determines the token. */
  lemma {:induction false} TokenStringReadsBack(names: map<TokenType, string>, t: Token, u: Token)
    requires Readable(names) && TokenString(names, t) == TokenString(names, u)
    ensures t == u
  {
    NameLacksComma(names, t.kind);
    NameLacksComma(names, u.kind);
    RenderingAfterBrace(names, t);
    RenderingAfterBrace(names, u);
    SplitAtMark(TypeName(names, t.kind), ", \"" + t.value + "\"}", TypeName(names, u.kind), ", \"" + u.value + "\"}", ',');
    TypeNameInjective(names, t.kind, u.kind);
    TokenStringDeterminesValue(names, t, u);
  }

  /** Without that condition a rendering can be ambiguous: a name holding `, "` absorbs part of a value. */
  lemma AmbiguousRegistry()
    ensures var names := map[1 := "x", 2 := "x, \"y\""];
      TokenString(names, Token(1, "y\", \"z")) == TokenString(names, Token(2, "z"))
  {
  }
}
