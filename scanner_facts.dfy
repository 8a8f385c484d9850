/** Properties of one `NextToken` call, stated over the scanner's specification functions. */
module ScanningFacts {
  import opened Tokens
  import opened Scanning

  /**
   * Once `NextToken` has produced Eof, calling it again produces the same Eof
   * token and leaves the cursor and the line where they were.
   */
  lemma EofIsSticky(text: string, cursor: nat, line: nat)
    requires cursor <= |text|
    requires ScanToken(text, cursor, line).token.kind == Eof
    ensures var r := ScanToken(text, cursor, line);
      r.cursor == |text| && r.token == Token([], Eof, r.line) &&
      ScanToken(text, r.cursor, r.line) == r
  {
    var r := ScanToken(text, cursor, line);
    assert SkipWhitespaceFrom(text, |text|, r.line) == Cursor(|text|, r.line);
  }

  /** A non-empty run of decimal digits. */
  predicate IsDigits(s: string)
  {
    |s| > 0 && forall j :: 0 <= j < |s| ==> IsDigit(s[j])
  }

  /** The spelling of a number: digits, optionally followed by `.` and digits. */
  predicate IsNumeral(w: string)
  {
    IsDigits(w) || exists k :: 0 < k < |w| && IsDigits(w[..k]) && w[k] == '.' && IsDigits(w[k + 1..])
  }

  /**
   * A number token is a numeral and the longest one available: no digit
   * follows it, and a `.` after an integer part is left alone unless a digit
   * follows the `.`.
   */
  lemma NumberIsLongestNumeral(text: string, start: nat, line: nat)
    requires start < |text| && IsDigit(text[start])
    ensures var r := ScanNumber(text, start, start + 1, line);
      var w := r.token.lexeme;
      r.token.kind == Number && w == text[start..r.cursor] && r.line == line &&
      IsNumeral(w) && !IsDigit(CharAt(text, r.cursor)) &&
      (IsDigits(w) ==> !(CharAt(text, r.cursor) == '.' && IsDigit(CharAfter(text, r.cursor))))
  {
    var r := ScanNumber(text, start, start + 1, line);
    var w := r.token.lexeme;
    var d := RunEnd(text, start + 1, Digits);
    assert IsDigits(text[start..d]);
    if CharAt(text, d) == '.' && IsDigit(CharAfter(text, d)) {
      FractionalNumeral(text, start, d, r.cursor);
    } else {
      assert w == text[start..d];
    }
  }

  /** Digits, a `.` and digits again spell a numeral that is not all digits. */
  lemma FractionalNumeral(text: string, start: nat, d: nat, e: nat)
    requires start < d < e <= |text| && text[d] == '.'
    requires IsDigits(text[start..d]) && IsDigits(text[d + 1..e])
    ensures IsNumeral(text[start..e]) && !IsDigits(text[start..e])
  {
    var w, k := text[start..e], d - start;
    assert w[..k] == text[start..d];
    assert w[k + 1..] == text[d + 1..e];
    assert IsDigits(w[..k]) && w[k] == '.' && IsDigits(w[k + 1..]);
    assert !IsDigits(w) by { assert !IsDigit(w[k]); }
  }

  /** Whether `p` is a prefix of `w`. */
  predicate IsPrefix(p: string, w: string)
  {
    |p| <= |w| && forall j :: 0 <= j < |p| ==> w[j] == p[j]
  }

  /** The spelling of each keyword kind; empty for every other kind. */
  function KeywordText(k: TokenType): string
  {
    match k
    case And => "and"
    case Class => "class"
    case Else => "else"
    case False => "false"
    case For => "for"
    case Fun => "fun"
    case If => "if"
    case Nil => "nil"
    case Or => "or"
    case Print => "print"
    case Return => "return"
    case Super => "super"
    case This => "this"
    case True => "true"
    case Var => "var"
    case While => "while"
    case _ => []
  }

  /** The identifier run that starts at `start` ends at `e` and cannot be extended. */
  predicate IdentifierRun(text: string, start: nat, e: nat)
  {
    start < e <= |text| &&
    (forall j :: start <= j < e ==> IsIdentChar(text[j])) &&
    (e == |text| || !IsIdentChar(text[e]))
  }

  /** How many characters of a keyword the trie dispatches on before calling `CheckKeyword`. */
  function TrieDepth(k: TokenType): nat
  {
    if k in {False, For, Fun, This, True} then 2 else 1
  }

  /**
   * The trie reads keyword `k` at `start`: it dispatches on the first one or
   * two characters and `CheckKeyword` finds the rest of the spelling.
   */
  predicate TrieReads(text: string, start: nat, k: TokenType)
  {
    var kw, s := KeywordText(k), TrieDepth(k);
    s < |kw| && start + |kw| <= |text| && text[start] == kw[0] && (s == 2 ==> text[start + 1] == kw[1]) &&
    text[start + s..start + |kw|] == kw[s..]
  }

  lemma KeywordsAreLetters(k: TokenType)
    ensures forall j :: 0 <= j < |KeywordText(k)| ==> IsAlpha(KeywordText(k)[j])
  {
  }

  /**
   * A keyword the trie reads inside a maximal identifier run lies inside
   * the run (a letter cannot follow its end), so it is a prefix of the run.
   */
  lemma ReadKeywordIsPrefix(text: string, start: nat, e: nat, k: TokenType)
    requires IdentifierRun(text, start, e) && TrieReads(text, start, k)
    ensures IsPrefix(KeywordText(k), text[start..e])
  {
    var kw, s := KeywordText(k), TrieDepth(k);
    var w := text[start..e];
    assert forall j :: 0 <= j < |kw| ==> text[start + j] == kw[j] by {
      forall j | 0 <= j < |kw|
        ensures text[start + j] == kw[j]
      {
        if s <= j {
          assert text[start + s..start + |kw|][j - s] == kw[s..][j - s];
        } else if j == 1 {
          assert s == 2;
        }
      }
    }
    assert start + |kw| <= e by {
      if e < start + |kw| {
        assert e < |text| && text[e] == kw[e - start];
        KeywordsAreLetters(k);
      }
    }
  }

  /**
   * The keyword trie only answers a keyword whose spelling begins the
   * identifier (not necessarily the whole identifier), and otherwise answers
   * Identifier.
   */
  lemma TrieAnswersPrefixKeyword(text: string, start: nat, e: nat)
    requires IdentifierRun(text, start, e)
    ensures var k := IdentifierTypeAt(text, start, e);
      (k == Identifier || KeywordText(k) != []) && IsPrefix(KeywordText(k), text[start..e])
  {
    var k := IdentifierTypeAt(text, start, e);
    if k != Identifier {
      var c := text[start];
      if c < 'd' {
        TrieAnswersAtoC(text, start, e);
      } else if c < 'f' {
        TrieAnswersDtoE(text, start, e);
      } else if c == 'f' {
        TrieAnswersF(text, start, e);
      } else if c <= 'p' {
        TrieAnswersGtoP(text, start, e);
      } else if c <= 's' {
        TrieAnswersQtoS(text, start, e);
      } else if c == 't' {
        TrieAnswersT(text, start, e);
      } else {
        TrieAnswersUtoZ(text, start, e);
      }
      ReadKeywordIsPrefix(text, start, e, k);
    }
  }

  lemma TrieAnswersAtoC(text: string, start: nat, e: nat)
    requires start < e <= |text| && text[start] < 'd'
    requires IdentifierTypeAt(text, start, e) != Identifier
    ensures var k := IdentifierTypeAt(text, start, e);
      KeywordText(k) != [] && TrieReads(text, start, k)
  {
  }

  lemma TrieAnswersDtoE(text: string, start: nat, e: nat)
    requires start < e <= |text| && 'd' <= text[start] < 'f'
    requires IdentifierTypeAt(text, start, e) != Identifier
    ensures var k := IdentifierTypeAt(text, start, e);
      KeywordText(k) != [] && TrieReads(text, start, k)
  {
  }

  lemma TrieAnswersF(text: string, start: nat, e: nat)
    requires start < e <= |text| && text[start] == 'f'
    requires IdentifierTypeAt(text, start, e) != Identifier
    ensures var k := IdentifierTypeAt(text, start, e);
      KeywordText(k) != [] && TrieReads(text, start, k)
  {
  }

  lemma TrieAnswersGtoP(text: string, start: nat, e: nat)
    requires start < e <= |text| && 'f' < text[start] <= 'p'
    requires IdentifierTypeAt(text, start, e) != Identifier
    ensures var k := IdentifierTypeAt(text, start, e);
      KeywordText(k) != [] && TrieReads(text, start, k)
  {
  }

  lemma TrieAnswersQtoS(text: string, start: nat, e: nat)
    requires start < e <= |text| && 'p' < text[start] <= 's'
    requires IdentifierTypeAt(text, start, e) != Identifier
    ensures var k := IdentifierTypeAt(text, start, e);
      KeywordText(k) != [] && TrieReads(text, start, k)
  {
  }

  lemma TrieAnswersT(text: string, start: nat, e: nat)
    requires start < e <= |text| && text[start] == 't'
    requires IdentifierTypeAt(text, start, e) != Identifier
    ensures var k := IdentifierTypeAt(text, start, e);
      KeywordText(k) != [] && TrieReads(text, start, k)
  {
  }

  lemma TrieAnswersUtoZ(text: string, start: nat, e: nat)
    requires start < e <= |text| && 't' < text[start]
    requires IdentifierTypeAt(text, start, e) != Identifier
    ensures var k := IdentifierTypeAt(text, start, e);
      KeywordText(k) != [] && TrieReads(text, start, k)
  {
  }

  /** A keyword that begins the run is read by the trie. */
  lemma PrefixIsRead(text: string, start: nat, e: nat, k: TokenType)
    requires IdentifierRun(text, start, e)
    requires KeywordText(k) != [] && IsPrefix(KeywordText(k), text[start..e])
    ensures TrieReads(text, start, k)
  {
    var kw, s := KeywordText(k), TrieDepth(k);
    var w := text[start..e];
    assert text[start + s..start + |kw|] == kw[s..] by {
      forall i | 0 <= i < |kw| - s
        ensures text[start + s..start + |kw|][i] == kw[s..][i]
      {
        assert w[s + i] == kw[s + i];
      }
    }
    assert text[start] == w[0];
    assert text[start + 1] == w[1];
  }

  /**
   * Every keyword whose spelling begins an identifier is recognised by the
   * trie: `orange` scans as Or and `classy` as Class.
   */
  lemma TrieFindsPrefixKeyword(text: string, start: nat, e: nat, k: TokenType)
    requires IdentifierRun(text, start, e)
    requires KeywordText(k) != [] && IsPrefix(KeywordText(k), text[start..e])
    ensures IdentifierTypeAt(text, start, e) == k
  {
    PrefixIsRead(text, start, e, k);
    if k in {And, Class, Else, False, For, Fun} {
      TrieFindsAtoF(text, start, e, k);
    } else if k in {If, Nil, Or, Print} {
      TrieFindsGtoP(text, start, e, k);
    } else if k in {Return, Super} {
      TrieFindsQtoS(text, start, e, k);
    } else {
      TrieFindsTtoZ(text, start, e, k);
    }
  }

  lemma TrieFindsAtoF(text: string, start: nat, e: nat, k: TokenType)
    requires k in {And, Class, Else, False, For, Fun}
    requires start < e <= |text| && TrieReads(text, start, k) && start + |KeywordText(k)| <= e
    ensures IdentifierTypeAt(text, start, e) == k
  {
  }

  lemma TrieFindsGtoP(text: string, start: nat, e: nat, k: TokenType)
    requires k in {If, Nil, Or, Print}
    requires start < e <= |text| && TrieReads(text, start, k)
    ensures IdentifierTypeAt(text, start, e) == k
  {
  }

  lemma TrieFindsQtoS(text: string, start: nat, e: nat, k: TokenType)
    requires k in {Return, Super}
    requires start < e <= |text| && TrieReads(text, start, k)
    ensures IdentifierTypeAt(text, start, e) == k
  {
  }

  lemma TrieFindsTtoZ(text: string, start: nat, e: nat, k: TokenType)
    requires k in {This, True, Var, While}
    requires start < e <= |text| && TrieReads(text, start, k) && start + |KeywordText(k)| <= e
    ensures IdentifierTypeAt(text, start, e) == k
  {
  }

  /**
   * An identifier token spans the longest run of letters, digits and `_`
   * from its first letter, and its kind is the keyword its spelling begins
   * with, or Identifier.
   */
  lemma IdentifierToken(text: string, start: nat, line: nat)
    requires start < |text| && IsAlpha(text[start])
    ensures var r := ScanIdentifier(text, start, start + 1, line);
      IdentifierRun(text, start, r.cursor) && r.token.lexeme == text[start..r.cursor] &&
      (r.token.kind == Identifier || KeywordText(r.token.kind) != []) &&
      IsPrefix(KeywordText(r.token.kind), r.token.lexeme) && r.line == line
  {
    var r := ScanIdentifier(text, start, start + 1, line);
    TrieAnswersPrefixKeyword(text, start, r.cursor);
  }

  /**
   * A string literal with a closing quote is one String token spelled with
   * both quotes and no quote between them.
   */
  lemma ClosedStringToken(text: string, start: nat, line: nat)
    requires start < |text| && text[start] == '"'
    requires exists j :: start < j < |text| && text[j] == '"'
    ensures var r := ScanString(text, start, start + 1, line);
      var w := r.token.lexeme;
      r.token.kind == String && w == text[start..r.cursor] &&
      |w| >= 2 && w[0] == '"' && w[|w| - 1] == '"' &&
      forall j :: 0 < j < |w| - 1 ==> w[j] != '"'
  {
    var e := RunEnd(text, start + 1, NotQuote);
    var w := text[start..e + 1];
    assert forall j :: 0 < j < |w| - 1 ==> w[j] == text[start + j];
  }

  /**
   * A closed string token carries the line of its closing quote: the line
   * counter advances by the newlines inside the literal.
   */
  lemma ClosedStringLine(text: string, start: nat, line: nat)
    requires start < |text| && text[start] == '"'
    requires exists j :: start < j < |text| && text[j] == '"'
    ensures var r := ScanString(text, start, start + 1, line);
      r.line == line + Newlines(r.token.lexeme) && r.token.line == r.line
  {
    var e := RunEnd(text, start + 1, NotQuote);
    var inner := text[start + 1..e];
    NewlinesExtend(text, start, e);
    assert text[start..e] == [text[start]] + inner;
    NewlinesAppend([text[start]], inner);
  }

  /**
   * Without a closing quote the scanner runs to the end of the text and
   * produces the error token "Unterminated string.", still counting the
   * newlines it passed.
   */
  lemma UnterminatedStringToken(text: string, start: nat, line: nat)
    requires start < |text| && text[start] == '"'
    requires forall j :: start < j < |text| ==> text[j] != '"'
    ensures var r := ScanString(text, start, start + 1, line);
      r.token == Token(UnterminatedString, Error, r.line) && r.cursor == |text| &&
      r.line == line + Newlines(text[start..])
  {
    var inner := text[start + 1..];
    assert RunEnd(text, start + 1, NotQuote) == |text|;
    assert text[start + 1..|text|] == inner;
    assert text[start..] == [text[start]] + inner;
    assert Newlines([text[start]]) == 0;
    NewlinesAppend([text[start]], inner);
  }

  /** Punctuation never starts an identifier, a number or a string. */
  lemma PunctuationIsDistinct(c: char)
    ensures !PunctuationOf(c).NotPunctuation? ==> !IsAlpha(c) && !IsDigit(c) && c != '"'
  {
  }

  /** `(`, `)`, `{`, `}`, `;`, `,`, `.`, `-`, `+`, `/` and `*` each make a one-character token. */
  lemma OneCharToken(text: string, cursor: nat, line: nat)
    requires cursor <= |text|
    ensures var r := ScanToken(text, cursor, line);
      r.start < |text| && PunctuationOf(text[r.start]).Single? ==>
        r.token.kind == PunctuationOf(text[r.start]).kind && r.token.lexeme == [text[r.start]] && r.cursor == r.start + 1
  {
    var ws := SkipWhitespaceFrom(text, cursor, line);
    if ws.pos < |text| {
      PunctuationIsDistinct(text[ws.pos]);
    }
  }

  /**
   * `!`, `=`, `<` and `>` followed by `=` make one two-character token (the
   * longer operator is preferred); otherwise they make a one-character token.
   */
  lemma TwoCharOperatorToken(text: string, cursor: nat, line: nat)
    requires cursor <= |text|
    ensures var r := ScanToken(text, cursor, line);
      r.start < |text| && PunctuationOf(text[r.start]).EqualFollows? ==>
        var c, two := text[r.start], r.start + 1 < |text| && text[r.start + 1] == '=';
        (two ==> r.token.kind == PunctuationOf(c).withEqual && r.token.lexeme == [c, '='] && r.cursor == r.start + 2) &&
        (!two ==> r.token.kind == PunctuationOf(c).alone && r.token.lexeme == [c] && r.cursor == r.start + 1)
  {
    var ws := SkipWhitespaceFrom(text, cursor, line);
    if ws.pos < |text| {
      PunctuationIsDistinct(text[ws.pos]);
    }
  }

  /**
   * A character that starts no token is consumed alone and reported as the
   * error "Unexpected character.".
   */
  lemma UnexpectedCharacterToken(text: string, cursor: nat, line: nat)
    requires cursor <= |text|
    ensures var r := ScanToken(text, cursor, line);
      r.start < |text| ==>
        var c := text[r.start];
        (!IsAlpha(c) && !IsDigit(c) && PunctuationOf(c).NotPunctuation? && c != '"') <==>
        (r.token.kind == Error && r.token.lexeme == UnexpectedCharacter && r.cursor == r.start + 1)
  {
    var r := ScanToken(text, cursor, line);
    if r.start < |text| {
      var c := text[r.start];
      if c == '"' && exists j :: r.start < j < |text| && text[j] == '"' {
        ClosedStringToken(text, r.start, r.line);
      }
    }
  }

  /** The whitespace and comments skipped before a token add exactly their newlines to the line. */
  lemma TokenLineCountsSkippedNewlines(text: string, cursor: nat, line: nat)
    requires cursor <= |text|
    ensures var r := ScanToken(text, cursor, line);
      SkipWhitespaceFrom(text, cursor, line) == Cursor(r.start, line + Newlines(text[cursor..r.start]))
  {
    SkipCountsNewlines(text, cursor, line);
  }

  /** A `//` comment runs up to the next newline or the end of the text, which it leaves in place. */
  lemma CommentStopsAtNewline(text: string, i: nat)
    requires i < |text| && text[i] == '/' && CharAfter(text, i) == '/'
    ensures var e := RunEnd(text, i, NotNewline);
      i + 2 <= e && (e == |text| || text[e] == '\n') &&
      forall j :: i <= j < e ==> text[j] != '\n'
  {
  }

  /**
   * A word of letters, digits and `_` that begins with a keyword's spelling
   * scans, as a whole, as one token of that keyword's kind.
   */
  lemma WordScansAsPrefixKeyword(w: string, k: TokenType)
    requires |w| > 0 && IsAlpha(w[0]) && forall j :: 0 <= j < |w| ==> IsIdentChar(w[j])
    requires KeywordText(k) != [] && IsPrefix(KeywordText(k), w)
    ensures ScanToken(w, 0, 0) == Scan(Token(w, k, 0), 0, |w|, 0)
  {
    assert SkipWhitespaceFrom(w, 0, 0) == Cursor(0, 0);
    TrieFindsPrefixKeyword(w, 0, |w|, k);
    assert w[0..|w|] == w;
  }

  /** Each keyword, spelled exactly, scans as its own kind. */
  lemma KeywordScansAsItself(k: TokenType)
    requires KeywordText(k) != []
    ensures ScanToken(KeywordText(k), 0, 0).token == Token(KeywordText(k), k, 0)
  {
    KeywordsAreLetters(k);
    WordScansAsPrefixKeyword(KeywordText(k), k);
  }

  /** `orange` scans as one Or token. */
  lemma OrangeScansAsOr()
    ensures ScanToken("orange", 0, 0).token == Token("orange", Or, 0)
  {
    WordScansAsPrefixKeyword("orange", Or);
  }

  /** `classy` scans as one Class token. */
  lemma ClassyScansAsClass()
    ensures ScanToken("classy", 0, 0).token == Token("classy", Class, 0)
  {
    WordScansAsPrefixKeyword("classy", Class);
  }
}
