/**
 * The Lox scanner. The first half of this module states, as functions of the
 * source text, a cursor and a line counter, what one call of `NextToken`
 * computes; the class `Scanner` below holds the same three counters as fields
 * and advances them step by step, each method proved to agree with those
 * functions.
 */
module Scanning {
  import opened Tokens

  /** What reading at or past the end of the text yields. */
  const NUL: char := '\0'

  const UnterminatedString: string := "Unterminated string."
  const UnexpectedCharacter: string := "Unexpected character."

  const DigitChars: string := "0123456789"
  const LowerChars: string := "abcdefghijklmnopqrstuvwxyz"
  const UpperChars: string := "ABCDEFGHIJKLMNOPQRSTUVWXYZ"

  /** One of the ten decimal digits. */
  predicate IsDigit(c: char)
  {
    '0' <= c <= '9'
  }

  /** A letter of the English alphabet, either case, or the underscore; never a digit. */
  predicate IsAlpha(c: char): (b: bool)
    ensures b ==> !IsDigit(c)
  {
    ('a' <= c <= 'z') || ('A' <= c <= 'Z') || c == '_'
  }

  /** The character ranges of `IsDigit` and `IsAlpha` hold exactly the characters listed. */
  lemma CharacterClasses(c: char)
    ensures IsDigit(c) <==> c in DigitChars
    ensures IsAlpha(c) <==> c in LowerChars || c in UpperChars || c == '_'
  {
  }

  predicate IsIdentChar(c: char) { IsAlpha(c) || IsDigit(c) }

  /** The characters the scanner's `while` loops run over. */
  datatype Run = Digits | IdentChars | NotNewline | NotQuote

  predicate InRun(run: Run, c: char)
  {
    match run
    case Digits => IsDigit(c)
    case IdentChars => IsIdentChar(c)
    case NotNewline => c != '\n'
    case NotQuote => c != '"'
  }

  /** `Peek` at cursor `i`: the character there, or NUL at the end. */
  function CharAt(text: string, i: nat): (c: char)
    ensures i < |text| ==> c == text[i]
    ensures i >= |text| ==> c == NUL
  {
    if i < |text| then text[i] else NUL
  }

  /** `PeekNext` at cursor `i`: the character after it, NUL at or next to the end. */
  function CharAfter(text: string, i: nat): (c: char)
    ensures i + 1 < |text| ==> c == text[i + 1]
    ensures i + 1 >= |text| ==> c == NUL
  {
    if i == |text| then NUL else CharAt(text, i + 1)
  }

  /** The number of newline characters in `s`. */
  function Newlines(s: string): nat
  {
    if s == [] then 0 else (if s[0] == '\n' then 1 else 0) + Newlines(s[1..])
  }

  lemma {:induction false} NewlinesAppend(a: string, b: string)
    ensures Newlines(a + b) == Newlines(a) + Newlines(b)
  {
    if a != [] {
      assert (a + b)[0] == a[0];
      assert (a + b)[1..] == a[1..] + b;
      NewlinesAppend(a[1..], b);
    } else {
      assert a + b == b;
    }
  }

  /** Extending a slice by one character adds one newline count iff it is a newline. */
  lemma NewlinesExtend(text: string, i: nat, j: nat)
    requires i <= j < |text|
    ensures Newlines(text[i..j + 1]) == Newlines(text[i..j]) + (if text[j] == '\n' then 1 else 0)
  {
    assert text[i..j + 1] == text[i..j] + [text[j]];
    NewlinesAppend(text[i..j], [text[j]]);
  }

  lemma {:induction false} NoNewlines(s: string)
    requires forall j :: 0 <= j < |s| ==> s[j] != '\n'
    ensures Newlines(s) == 0
  {
    if s != [] {
      NoNewlines(s[1..]);
    }
  }

  /**
   * The end of the longest run of characters in `run` that starts
   * at `i`: the loops `while (P(Peek())) Advance();` and
   * `while (Peek() != x && !IsAtEnd()) Advance();` stop there.
   */
  function RunEnd(text: string, i: nat, run: Run): (e: nat)
    requires i <= |text|
    ensures i <= e <= |text|
    ensures forall j :: i <= j < e ==> InRun(run, text[j])
    ensures e == |text| || !InRun(run, text[e])
    decreases |text| - i
  {
    if i < |text| && InRun(run, text[i]) then RunEnd(text, i + 1, run) else i
  }

  /** A cursor position together with the line counter. */
  datatype Cursor = Cursor(pos: nat, line: nat)

  /** Whether whitespace skipping goes on at `i`: blank, newline or the start of a `//` comment. */
  predicate SkipsAt(text: string, i: nat)
  {
    var c := CharAt(text, i);
    c == ' ' || c == '\r' || c == '\t' || c == '\n' || (c == '/' && CharAfter(text, i) == '/')
  }

  /**
   * Where `SkipWhitespace` leaves the cursor and the line counter: blanks and
   * newlines are skipped, a newline counts one line, and a `//` comment is
   * skipped up to (not over) the next newline.
   */
  function SkipWhitespaceFrom(text: string, i: nat, line: nat): (r: Cursor)
    requires i <= |text|
    ensures i <= r.pos <= |text| && line <= r.line
    ensures !SkipsAt(text, r.pos)
    ensures !SkipsAt(text, i) ==> r == Cursor(i, line)
    decreases |text| - i
  {
    var c := CharAt(text, i);
    if c == ' ' || c == '\r' || c == '\t' then SkipWhitespaceFrom(text, i + 1, line)
    else if c == '\n' then SkipWhitespaceFrom(text, i + 1, line + 1)
    else if c == '/' && CharAfter(text, i) == '/' then SkipWhitespaceFrom(text, RunEnd(text, i, NotNewline), line)
    else Cursor(i, line)
  }

  /** `j` lies inside a `//` comment that starts at `k`: no newline from the slashes up to `j`. */
  predicate InComment(text: string, k: nat, j: nat)
    requires k <= j < |text|
  {
    k + 1 < |text| && text[k] == '/' && text[k + 1] == '/' && forall m :: k <= m <= j ==> text[m] != '\n'
  }

  /** What skipping may pass over at `j`: a blank, a newline, or a character of a comment begun at or after `i`. */
  predicate Skippable(text: string, i: nat, j: nat)
    requires i <= j < |text|
  {
    var c := text[j];
    c == ' ' || c == '\r' || c == '\t' || c == '\n' || exists k :: i <= k <= j && InComment(text, k, j)
  }

  /**
   * Skipping passes over blanks, newlines and comments only; with the
   * `ensures` of `SkipWhitespaceFrom` (it stops where none of these begins,
   * and at once when none begins at `i`) no other character is lost.
   */
  lemma {:induction false} SkipPassesOnlySkippable(text: string, i: nat, line: nat)
    requires i <= |text|
    ensures var r := SkipWhitespaceFrom(text, i, line);
      forall j :: i <= j < r.pos ==> Skippable(text, i, j)
    decreases |text| - i
  {
    var r := SkipWhitespaceFrom(text, i, line);
    var c := CharAt(text, i);
    if c == ' ' || c == '\r' || c == '\t' || c == '\n' {
      SkipPassesOnlySkippable(text, i + 1, if c == '\n' then line + 1 else line);
      forall j | i < j < r.pos
        ensures Skippable(text, i, j)
      {
        assert Skippable(text, i + 1, j);
      }
    } else if c == '/' && CharAfter(text, i) == '/' {
      var e := RunEnd(text, i, NotNewline);
      SkipPassesOnlySkippable(text, e, line);
      forall j | i <= j < r.pos
        ensures Skippable(text, i, j)
      {
        if j < e {
          assert InComment(text, i, j);
        } else {
          assert Skippable(text, e, j);
        }
      }
    }
  }

  /** Skipping adds to the line counter exactly the newlines it passes over. */
  lemma {:induction false} SkipCountsNewlines(text: string, i: nat, line: nat)
    requires i <= |text|
    ensures var r := SkipWhitespaceFrom(text, i, line);
      r.line == line + Newlines(text[i..r.pos])
    decreases |text| - i
  {
    var r := SkipWhitespaceFrom(text, i, line);
    var c := CharAt(text, i);
    if c == ' ' || c == '\r' || c == '\t' || c == '\n' {
      SkipCountsNewlines(text, i + 1, if c == '\n' then line + 1 else line);
      assert text[i..r.pos] == [text[i]] + text[i + 1..r.pos];
      NewlinesAppend([text[i]], text[i + 1..r.pos]);
    } else if c == '/' && CharAfter(text, i) == '/' {
      var e := RunEnd(text, i, NotNewline);
      SkipCountsNewlines(text, e, line);
      assert text[i..r.pos] == text[i..e] + text[e..r.pos];
      NewlinesAppend(text[i..e], text[e..r.pos]);
      NoNewlines(text[i..e]);
    }
  }

  /** Everything one `NextToken` call determines: the token and the new start, cursor and line. */
  datatype Scan = Scan(token: Token, start: nat, cursor: nat, line: nat)

  /** `MakeToken(k)` with the counters at `start`, `cur` and `line`. */
  function Made(text: string, start: nat, cur: nat, line: nat, k: TokenType): (r: Scan)
    requires start <= cur <= |text|
    ensures r.token.lexeme == text[start..cur] && r.token.kind == k && r.token.line == line
    ensures r.start == start && r.cursor == cur && r.line == line
  {
    Scan(Token(text[start..cur], k, line), start, cur, line)
  }

  /**
   * `CheckKeyword(s, rest, k)` for a token starting at `start`: compares the
   * `|rest|` characters at `start + s` (fewer if the text ends first) with
   * `rest`. The token's own length is not consulted.
   */
  function CheckKeywordAt(text: string, start: nat, s: nat, rest: string, k: TokenType): (r: TokenType)
    requires start + s <= |text|
    ensures r == k || r == Identifier
    ensures r == k <==> k == Identifier || (start + s + |rest| <= |text| && text[start + s..start + s + |rest|] == rest)
  {
    var stop := if start + s + |rest| <= |text| then start + s + |rest| else |text|;
    if text[start + s..stop] == rest then k else Identifier
  }

  /** `IdentifierType`: the keyword trie, for the identifier at `start` ending at `cur`. */
  function IdentifierTypeAt(text: string, start: nat, cur: nat): TokenType
    requires start < cur <= |text|
  {
    match text[start]
    case 'a' => CheckKeywordAt(text, start, 1, "nd", And)
    case 'c' => CheckKeywordAt(text, start, 1, "lass", Class)
    case 'e' => CheckKeywordAt(text, start, 1, "lse", Else)
    case 'f' =>
      if cur - start > 1 then
        match text[start + 1]
        case 'a' => CheckKeywordAt(text, start, 2, "lse", False)
        case 'o' => CheckKeywordAt(text, start, 2, "r", For)
        case 'u' => CheckKeywordAt(text, start, 2, "n", Fun)
        case _ => Identifier
      else Identifier
    case 'i' => CheckKeywordAt(text, start, 1, "f", If)
    case 'n' => CheckKeywordAt(text, start, 1, "il", Nil)
    case 'o' => CheckKeywordAt(text, start, 1, "r", Or)
    case 'p' => CheckKeywordAt(text, start, 1, "rint", Print)
    case 'r' => CheckKeywordAt(text, start, 1, "eturn", Return)
    case 's' => CheckKeywordAt(text, start, 1, "uper", Super)
    case 't' =>
      if cur - start > 1 then
        match text[start + 1]
        case 'h' => CheckKeywordAt(text, start, 2, "is", This)
        case 'r' => CheckKeywordAt(text, start, 2, "ue", True)
        case _ => Identifier
      else Identifier
    case 'v' => CheckKeywordAt(text, start, 1, "ar", Var)
    case 'w' => CheckKeywordAt(text, start, 1, "hile", While)
    case _ => Identifier
  }

  /** The trie answers `Identifier` or the kind of one of the sixteen keywords. */
  lemma IdentifierKinds(text: string, start: nat, cur: nat)
    requires start < cur <= |text|
    ensures IdentifierTypeAt(text, start, cur) in {Identifier, And, Class, Else, False, For, Fun, If, Nil, Or, Print, Return, Super, This, True, Var, While}
  {
  }

  /** `Identifier()`: the identifier whose first character is at `start`, `cur == start + 1`. */
  function ScanIdentifier(text: string, start: nat, cur: nat, line: nat): (r: Scan)
    requires start < cur <= |text|
    ensures cur <= r.cursor <= |text|
  {
    var e := RunEnd(text, cur, IdentChars);
    Made(text, start, e, line, IdentifierTypeAt(text, start, e))
  }

  /** `Number()`: a digit run, then `.` and a digit run only when a digit follows the `.`. */
  function ScanNumber(text: string, start: nat, cur: nat, line: nat): (r: Scan)
    requires start < cur <= |text|
    ensures cur <= r.cursor <= |text|
  {
    var d := RunEnd(text, cur, Digits);
    var e := if CharAt(text, d) == '.' && IsDigit(CharAfter(text, d)) then RunEnd(text, d + 1, Digits) else d;
    Made(text, start, e, line, Number)
  }

  /**
   * `String()`: up to and including the closing quote, counting the newlines
   * inside; an error token if the text ends first.
   */
  function ScanString(text: string, start: nat, cur: nat, line: nat): (r: Scan)
    requires start < cur <= |text|
    ensures cur <= r.cursor <= |text|
  {
    var e := RunEnd(text, cur, NotQuote);
    var l := line + Newlines(text[cur..e]);
    if e == |text| then Scan(Token(UnterminatedString, Error, l), start, e, l)
    else Made(text, start, e + 1, l, String)
  }

  /** What the `switch` of `ScanToken` makes of a punctuation character. */
  datatype Punctuation =
    | NotPunctuation
    | Single(kind: TokenType)
    /** An operator that becomes the longer token `withEqual` when `=` follows it. */
    | EqualFollows(alone: TokenType, withEqual: TokenType)

  /** The sixteen punctuation characters; the four of them that may take a following `=`. */
  const PunctuationChars: string := "(){};,.-+/*!=<>"
  const EqualFollowChars: string := "!=<>"

  /**
   * The punctuation case of the `switch`: a single-character token for each
   * punctuation character, and a choice of two kinds for the four that may
   * take a `=`; every other character falls through.
   */
  function PunctuationOf(c: char): (p: Punctuation)
    ensures !p.NotPunctuation? ==> c != '"' && !IsAlpha(c) && !IsDigit(c)
    ensures p.EqualFollows? ==> p.alone != p.withEqual
  {
    match c
    case '(' => Single(LeftParen)
    case ')' => Single(RightParen)
    case '{' => Single(LeftBrace)
    case '}' => Single(RightBrace)
    case ';' => Single(Semicolon)
    case ',' => Single(Comma)
    case '.' => Single(Dot)
    case '-' => Single(Minus)
    case '+' => Single(Plus)
    case '/' => Single(Slash)
    case '*' => Single(Star)
    case '!' => EqualFollows(Bang, BangEqual)
    case '=' => EqualFollows(Equal, EqualEqual)
    case '<' => EqualFollows(Less, LessEqual)
    case '>' => EqualFollows(Greater, GreaterEqual)
    case _ => NotPunctuation
  }

  /** Exactly the sixteen punctuation characters get a token of their own, four of them with a choice of two. */
  lemma PunctuationCharacters(c: char)
    ensures PunctuationOf(c).NotPunctuation? <==> c !in PunctuationChars
    ensures PunctuationOf(c).EqualFollows? <==> c in EqualFollowChars
  {
  }

  /** The token that begins at `start`, the character there being neither blank nor a comment. */
  function TokenAt(text: string, start: nat, line: nat): (r: Scan)
    requires start < |text|
    ensures r.start == start < r.cursor <= |text| && r.line >= line
    ensures r.token.kind != Eof
  {
    var c := text[start];
    var next := start + 1;
    if IsAlpha(c) then ScanIdentifier(text, start, next, line)
    else if IsDigit(c) then ScanNumber(text, start, next, line)
    else match PunctuationOf(c)
      case Single(k) => Made(text, start, next, line, k)
      case EqualFollows(alone, withEqual) =>
        var two := next < |text| && text[next] == '=';
        Made(text, start, if two then next + 1 else next, line, if two then withEqual else alone)
      case NotPunctuation =>
        if c == '"' then ScanString(text, start, next, line)
        else Scan(Token(UnexpectedCharacter, Error, line), start, next, line)
  }

  /** What `NextToken` computes from the cursor `cursor` and line counter `line`. */
  function ScanToken(text: string, cursor: nat, line: nat): (r: Scan)
    requires cursor <= |text|
    ensures cursor <= r.start <= r.cursor <= |text| && line <= r.line
    ensures cursor < |text| ==> cursor < r.cursor
    ensures r.token.kind == Eof <==> r.start == |text|
    ensures r.token.kind == Eof ==> r.cursor == |text| && r.token.lexeme == []
  {
    var ws := SkipWhitespaceFrom(text, cursor, line);
    if ws.pos == |text| then Made(text, ws.pos, ws.pos, ws.line, Eof)
    else TokenAt(text, ws.pos, ws.line)
  }

  /** A token as the parser receives it, with the scanner's cursor and line right after it. */
  datatype Lexed = Lexed(token: Token, cursor: nat, line: nat)

  /**
   * The tokens obtained by calling `NextToken` for as long as the scanner is
   * not at the end of the text (the parser's `Advance` stops there).
   */
  function Lex(text: string, cursor: nat, line: nat): (r: seq<Lexed>)
    requires cursor <= |text|
    ensures r == [] <==> cursor == |text|
    ensures forall i :: 0 <= i < |r| ==> cursor < r[i].cursor <= |text|
    decreases |text| - cursor
  {
    if cursor == |text| then []
    else
      var s := ScanToken(text, cursor, line);
      [Lexed(s.token, s.cursor, s.line)] + Lex(text, s.cursor, s.line)
  }

  /** Scanning resumed from the counters left after any token yields the tokens after it. */
  lemma {:induction false} LexResumes(text: string, cursor: nat, line: nat, i: nat)
    requires cursor <= |text| && i < |Lex(text, cursor, line)|
    ensures var r := Lex(text, cursor, line);
      r[i].cursor <= |text| && Lex(text, r[i].cursor, r[i].line) == r[i + 1..]
    decreases |text| - cursor
  {
    var s := ScanToken(text, cursor, line);
    var r := Lex(text, cursor, line);
    assert r == [Lexed(s.token, s.cursor, s.line)] + Lex(text, s.cursor, s.line);
    if i > 0 {
      LexResumes(text, s.cursor, s.line, i - 1);
      assert r[i + 1..] == Lex(text, s.cursor, s.line)[i..];
    } else {
      assert r[1..] == Lex(text, s.cursor, s.line);
    }
  }

  /** Later tokens of the stream end strictly further into the text. */
  lemma LexCursorsIncrease(text: string, cursor: nat, line: nat, i: nat, j: nat)
    requires cursor <= |text|
    requires i < j < |Lex(text, cursor, line)|
    ensures Lex(text, cursor, line)[i].cursor < Lex(text, cursor, line)[j].cursor
  {
    var r := Lex(text, cursor, line);
    LexResumes(text, cursor, line, i);
    assert r[j] == r[i + 1..][j - i - 1];
  }

  /** The scanner: a cursor-based tokenizer over a source text. */
  class Scanner {
    const text: string
    /** Start of the token being scanned. */
    var start: nat
    /** Index of the next character to read. */
    var current: nat
    /** Line counter; the first line of the text is line 0. */
    var line: nat
    /** The tokens `NextToken` returns from the start of the text until its end. */
    ghost const stream: seq<Lexed>
    /** How many tokens of `stream` have been returned so far. */
    ghost var produced: nat

    ghost predicate Valid()
      reads this
    {
      start <= current <= |text|
    }

    /** The cursor once the first `n` tokens of the stream have been returned. */
    ghost function CursorAfter(n: nat): nat
    {
      if 0 < n <= |stream| then stream[n - 1].cursor else 0
    }

    ghost function LineAfter(n: nat): nat
    {
      if 0 < n <= |stream| then stream[n - 1].line else 0
    }

    /** Scanning resumed after the first `n` tokens yields the rest of the stream. */
    ghost predicate ResumesAfter(n: nat)
    {
      n <= |stream| ==> CursorAfter(n) <= |text| && Lex(text, CursorAfter(n), LineAfter(n)) == stream[n..]
    }

    /** A later token of the stream ends further into the text than an earlier one. */
    ghost predicate Increasing(i: nat, j: nat)
    {
      i < j < |stream| ==> stream[i].cursor < stream[j].cursor
    }

    /** The tokens still to come. */
    ghost function Upcoming(): seq<Lexed>
      reads this
    {
      if produced <= |stream| then stream[produced..] else []
    }

    /**
     * The counters stand after the first `produced` tokens of `stream`. The
     * facts relating `stream` to `Lex` are only unfolded where
     * `ResumesAfter` or `Increasing` is mentioned.
     */
    ghost predicate Lexes()
      reads this
    {
      Valid() && produced <= |stream| &&
      current == CursorAfter(produced) && line == LineAfter(produced) &&
      (produced == |stream| <==> current == |text|) &&
      (forall n {:trigger ResumesAfter(n)} :: ResumesAfter(n)) &&
      (forall i, j {:trigger Increasing(i, j)} :: Increasing(i, j))
    }

    constructor (text: string)
      ensures Valid() && Lexes() && stream == Lex(text, 0, 0) && produced == 0
      ensures this.text == text && start == 0 && current == 0 && line == 0
    {
      this.text := text;
      start, current, line := 0, 0, 0;
      stream := Lex(text, 0, 0);
      produced := 0;
      new;
      forall n: nat
        ensures ResumesAfter(n)
      {
        if 0 < n <= |stream| {
          LexResumes(text, 0, 0, n - 1);
        }
      }
      forall i: nat, j: nat
        ensures Increasing(i, j)
      {
        if i < j < |stream| {
          LexCursorsIncrease(text, 0, 0, i, j);
        }
      }
    }

    /** The cursor is past the last character: nothing is left to read. */
    predicate IsAtEnd(): (b: bool)
      reads this
      requires Valid()
      ensures b <==> !(current < |text|)
      ensures !b ==> Peek() == text[current]
    {
      current == |text|
    }

    /** Consumes and returns the character under the cursor. */
    method Advance() returns (c: char)
      requires Valid() && current < |text|
      modifies this`current
      ensures Valid()
      ensures c == text[old(current)] && current == old(current) + 1
    {
      c := text[current];
      current := current + 1;
    }

    /** The character under the cursor, NUL once the text is used up. */
    function Peek(): (c: char)
      reads this
      requires Valid()
      ensures current < |text| ==> c == text[current]
      ensures current == |text| ==> c == NUL
    {
      CharAt(text, current)
    }

    /** The character after the cursor, NUL when there is none. */
    function PeekNext(): (c: char)
      reads this
      requires Valid()
      ensures current + 1 < |text| ==> c == text[current + 1]
      ensures current + 1 >= |text| ==> c == NUL
    {
      if IsAtEnd() then NUL else CharAt(text, current + 1)
    }

    /** Consumes the character under the cursor iff it is `expected`. */
    method Match(expected: char) returns (matched: bool)
      requires Valid()
      modifies this`current
      ensures Valid()
      ensures matched <==> old(current) < |text| && text[old(current)] == expected
      ensures current == if matched then old(current) + 1 else old(current)
    {
      if IsAtEnd() {
        return false;
      }
      if text[current] != expected {
        return false;
      }
      current := current + 1;
      return true;
    }

    /** `k` when `rest` follows the first `s` characters of the token, `Identifier` otherwise. */
    function CheckKeyword(s: nat, rest: string, k: TokenType): (r: TokenType)
      reads this
      requires Valid() && start + s <= |text|
      ensures r == k || r == TokenType.Identifier
      ensures r == k <==> k == TokenType.Identifier || (start + s + |rest| <= |text| && text[start + s..start + s + |rest|] == rest)
    {
      CheckKeywordAt(text, start, s, rest, k)
    }

    /** The kind of the word from `start` to the cursor: a keyword kind or `Identifier`. */
    function IdentifierType(): (r: TokenType)
      reads this
      requires Valid() && start < current
      ensures r in {TokenType.Identifier, And, Class, Else, False, For, Fun, If, Nil, Or, Print, Return, Super, This, True, Var, While}
    {
      IdentifierKinds(text, start, current);
      IdentifierTypeAt(text, start, current)
    }

    /** A token spelled by the characters from `start` up to the cursor. */
    function MakeToken(k: TokenType): (t: Token)
      reads this
      requires Valid()
      ensures t.lexeme == text[start..current] && t.kind == k && t.line == line
    {
      Token(text[start..current], k, line)
    }

    /** An error token: its spelling is the message itself. */
    function ErrorToken(message: string): (t: Token)
      reads this
      ensures t.lexeme == message && t.kind == Error && t.line == line
    {
      Token(message, Error, line)
    }

    method SkipWhitespace()
      requires Valid()
      modifies this`current, this`line
      ensures Valid()
      ensures Cursor(current, line) == SkipWhitespaceFrom(text, old(current), old(line))
    {
      while true
        invariant Valid()
        invariant SkipWhitespaceFrom(text, current, line) == SkipWhitespaceFrom(text, old(current), old(line))
        decreases |text| - current
      {
        var c := Peek();
        if c == ' ' || c == '\r' || c == '\t' {
          assert SkipWhitespaceFrom(text, current, line) == SkipWhitespaceFrom(text, current + 1, line);
          var _ := Advance();
        } else if c == '\n' {
          assert SkipWhitespaceFrom(text, current, line) == SkipWhitespaceFrom(text, current + 1, line + 1);
          line := line + 1;
          var _ := Advance();
        } else if c == '/' {
          if PeekNext() == '/' {
            SkipComment();
          } else {
            return;
          }
        } else {
          return;
        }
      }
    }

    /** The comment case of `SkipWhitespace`: consumes up to, not over, the next newline. */
    method SkipComment()
      requires Valid()
      modifies this`current
      ensures Valid() && current == RunEnd(text, old(current), NotNewline)
    {
      while Peek() != '\n' && !IsAtEnd()
        invariant Valid() && old(current) <= current
        invariant RunEnd(text, current, NotNewline) == RunEnd(text, old(current), NotNewline)
        decreases |text| - current
      {
        var _ := Advance();
      }
    }

    /** Scans the rest of an identifier whose first character was just consumed. */
    method Identifier() returns (t: Token)
      requires Valid() && start + 1 == current
      modifies this`current
      ensures Valid()
      ensures Scan(t, start, current, line) == ScanIdentifier(text, start, old(current), line)
    {
      while IsIdentChar(Peek())
        invariant Valid() && old(current) <= current
        invariant RunEnd(text, current, IdentChars) == RunEnd(text, old(current), IdentChars)
        decreases |text| - current
      {
        var _ := Advance();
      }
      t := MakeToken(IdentifierType());
    }

    /** Scans a string literal whose opening quote was just consumed. */
    method String() returns (t: Token)
      requires Valid() && start + 1 == current
      modifies this`current, this`line
      ensures Valid()
      ensures Scan(t, start, current, line) == ScanString(text, start, old(current), old(line))
    {
      StringBody();
      if IsAtEnd() {
        return ErrorToken(UnterminatedString);
      }
      // The closing quote.
      var _ := Advance();
      t := MakeToken(TokenType.String);
    }

    /** The loop of `String`: consumes up to the closing quote, counting newlines. */
    method StringBody()
      requires Valid()
      modifies this`current, this`line
      ensures Valid() && current == RunEnd(text, old(current), NotQuote)
      ensures line == old(line) + Newlines(text[old(current)..current])
    {
      while Peek() != '"' && !IsAtEnd()
        invariant Valid() && old(current) <= current
        invariant RunEnd(text, current, NotQuote) == RunEnd(text, old(current), NotQuote)
        invariant line == old(line) + Newlines(text[old(current)..current])
        decreases |text| - current
      {
        NewlinesExtend(text, old(current), current);
        if Peek() == '\n' {
          line := line + 1;
        }
        var _ := Advance();
      }
    }

    /** Scans a number literal whose first digit was just consumed. */
    method Number() returns (t: Token)
      requires Valid() && start + 1 == current
      modifies this`current
      ensures Valid()
      ensures Scan(t, start, current, line) == ScanNumber(text, start, old(current), line)
    {
      DigitRun();
      if Peek() == '.' && IsDigit(PeekNext()) {
        // The '.'.
        var _ := Advance();
        DigitRun();
      }
      t := MakeToken(TokenType.Number);
    }

    /** Each of the two `while (isDigit(peek()))` loops of `Number`. */
    method DigitRun()
      requires Valid()
      modifies this`current
      ensures Valid() && current == RunEnd(text, old(current), Digits)
    {
      while IsDigit(Peek())
        invariant Valid() && old(current) <= current
        invariant RunEnd(text, current, Digits) == RunEnd(text, old(current), Digits)
        decreases |text| - current
      {
        var _ := Advance();
      }
    }

    /** The part of `NextToken` after the blanks: the token that begins at the cursor. */
    method TokenAtStart() returns (t: Token)
      requires Valid() && start == current < |text|
      modifies this
      ensures Valid() && Scan(t, start, current, line) == TokenAt(text, old(current), old(line))
    {
      var c := Advance();
      if IsAlpha(c) {
        t := Identifier();
        return;
      }
      if IsDigit(c) {
        t := Number();
        return;
      }
      match PunctuationOf(c) {
        case Single(k) =>
          return MakeToken(k);
        case EqualFollows(alone, withEqual) =>
          var two := Match('=');
          return MakeToken(if two then withEqual else alone);
        case NotPunctuation =>
      }
      if c == '"' {
        t := String();
        return;
      }
      return ErrorToken(UnexpectedCharacter);
    }

    /**
     * Skips whitespace and comments, then scans one token: the next token of
     * the stream, or Eof once the stream is exhausted.
     */
    method NextToken() returns (t: Token)
      requires Valid()
      modifies this
      ensures Valid()
      ensures Scan(t, start, current, line) == ScanToken(text, old(current), old(line))
      ensures old(Lexes()) ==> Lexes()
      ensures old(Lexes()) && old(produced) < |stream| ==>
        produced == old(produced) + 1 && t == stream[old(produced)].token
      ensures old(Lexes()) && old(produced) == |stream| ==> produced == old(produced) && t.kind == Eof
    {
      ghost var lexes, n := Lexes(), produced;
      if lexes {
        assert ResumesAfter(n);
      }
      SkipWhitespace();
      start := current;
      if IsAtEnd() {
        t := MakeToken(Eof);
      } else {
        t := TokenAtStart();
      }
      if lexes && n < |stream| {
        assert stream[n..][0] == stream[n];
        produced := n + 1;
      }
    }
  }
}
