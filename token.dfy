/** Lexical tokens of Lox: the token kinds and the immutable token value. */
module Tokens {

  /** The kinds of token, in declaration order. */
  datatype TokenType =
    // Single-character tokens.
    | LeftParen | RightParen
    | LeftBrace | RightBrace
    | Comma | Dot | Minus | Plus
    | Semicolon | Slash | Star
    // One or two character tokens.
    | Bang | BangEqual
    | Equal | EqualEqual
    | Greater | GreaterEqual
    | Less | LessEqual
    // Literals.
    | Identifier | String | Number
    // Keywords.
    | And | Class | Else | False
    | For | Fun | If | Nil | Or
    | Print | Return | Super | This
    | True | Var | While
    | Error | Eof

  /** Every kind, listed in the order of the declaration above. */
  const AllKinds: seq<TokenType> := [
    LeftParen, RightParen, LeftBrace, RightBrace,
    Comma, Dot, Minus, Plus, Semicolon, Slash, Star,
    Bang, BangEqual, Equal, EqualEqual,
    Greater, GreaterEqual, Less, LessEqual,
    Identifier, String, Number,
    And, Class, Else, False, For, Fun, If, Nil, Or,
    Print, Return, Super, This, True, Var, While,
    Error, Eof]

  /**
   * A token never changes once built: its spelling (a copy of the source
   * characters, or an error message), its kind and its line.
   */
  datatype Token = Token(lexeme: string, kind: TokenType, line: nat)

  /** `Token{}`: the default token. */
  function DefaultToken(): (t: Token)
    ensures t.kind == Error && t.lexeme == [] && t.line == 0
  {
    Token([], Error, 0)
  }

  /** `Token{kind}`: a token with only its kind set. */
  function KindToken(k: TokenType): (t: Token)
    ensures t.kind == k && t.lexeme == [] && t.line == 0
  {
    Token([], k, 0)
  }

  /** The ordinal of a kind: its position in the declaration. */
  function TypeInt(k: TokenType): (n: nat)
    ensures n < |AllKinds| && AllKinds[n] == k
  {
    match k
    case LeftParen => 0
    case RightParen => 1
    case LeftBrace => 2
    case RightBrace => 3
    case Comma => 4
    case Dot => 5
    case Minus => 6
    case Plus => 7
    case Semicolon => 8
    case Slash => 9
    case Star => 10
    case Bang => 11
    case BangEqual => 12
    case Equal => 13
    case EqualEqual => 14
    case Greater => 15
    case GreaterEqual => 16
    case Less => 17
    case LessEqual => 18
    case Identifier => 19
    case String => 20
    case Number => 21
    case And => 22
    case Class => 23
    case Else => 24
    case False => 25
    case For => 26
    case Fun => 27
    case If => 28
    case Nil => 29
    case Or => 30
    case Print => 31
    case Return => 32
    case Super => 33
    case This => 34
    case True => 35
    case Var => 36
    case While => 37
    case Error => 38
    case Eof => 39
  }

  /** Distinct kinds have distinct ordinals, and Error and Eof come last. */
  lemma TypeIntInjective(a: TokenType, b: TokenType)
    ensures TypeInt(a) == TypeInt(b) <==> a == b
    ensures TypeInt(Error) == |AllKinds| - 2 && TypeInt(Eof) == |AllKinds| - 1
  {
    var na, nb := TypeInt(a), TypeInt(b);
    assert AllKinds[na] == a && AllKinds[nb] == b;
  }
}
