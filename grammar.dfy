/**
 * What the recursive-descent parser computes, one function per production.
 * Each function reads the token stream `toks` from position `p` (the token in
 * `current`) and returns the node built, the position after it, the
 * diagnostics `ErrorAt` was asked to emit on the way (in order, including the
 * ones that panic mode silences) and whether parsing stalled.
 *
 * Parsing stalls where the parser would spin forever: a block or the whole
 * program repeats `Declaration()` for as long as the current token is not `}`
 * or Eof, and a declaration that consumes no token leaves everything as it
 * was, so the loop never ends. The model stops there and reports `stalled`;
 * nothing after a stall is ever parsed.
 */
module Grammar {
  import opened Tokens
  import opened Types
  import opened Ast

  /** Where a diagnostic points: at the end of input, at a lexer error token (no spelling), or at a lexeme. */
  datatype Where = AtEnd | Nowhere | AtLexeme(lexeme: string)

  /** One line `[line L] Error<where>: <message>` of the parser's output. */
  datatype Diag = Diag(line: nat, where: Where, message: string)

  /** The diagnostic `ErrorAt(t, message)` prints. */
  function DiagAt(t: Token, message: string): (d: Diag)
    ensures d.line == t.line && d.message == message
    ensures d.where.AtEnd? <==> t.kind == Eof
    ensures d.where.Nowhere? <==> t.kind == Error
    ensures d.where.AtLexeme? ==> d.where.lexeme == t.lexeme
  {
    Diag(t.line, if t.kind == Eof then AtEnd else if t.kind == Error then Nowhere else AtLexeme(t.lexeme), message)
  }

  /** The token `current` holds at position `p`: past the stream it is the synthetic Eof token. */
  function Cur(toks: seq<Token>, p: nat): (t: Token)
    ensures p < |toks| ==> t == toks[p]
    ensures p >= |toks| ==> t == KindToken(Eof)
  {
    if p < |toks| then toks[p] else KindToken(Eof)
  }

  /** The token `prev` holds at position `p`: before the first advance it is the default token. */
  function Prev(toks: seq<Token>, p: nat): (t: Token)
    ensures p == 0 ==> t == DefaultToken()
    ensures p > 0 ==> t == Cur(toks, p - 1)
  {
    if p == 0 then DefaultToken() else Cur(toks, p - 1)
  }

  /**
   * A production's outcome: the node built, the position after it, every
   * diagnostic asked for so far (the ones before the production first) and
   * whether parsing stalled.
   */
  datatype Parsed<T> = Parsed(node: T, pos: nat, errs: seq<Diag>, stalled: bool)

  /** What `Consume` does to the position and the diagnostics. */
  datatype Step = Step(pos: nat, errs: seq<Diag>)

  /**
   * The position never moves backwards or past the end of the stream and
   * diagnostics are only ever added; a production that consumed nothing, and
   * one that stalled, asked for a diagnostic of its own.
   */
  predicate Advanced<T>(toks: seq<Token>, p: nat, errs: seq<Diag>, r: Parsed<T>)
  {
    p <= r.pos <= |toks| && |errs| <= |r.errs| &&
    (r.pos == p ==> |errs| < |r.errs|) && (r.stalled ==> |errs| < |r.errs|)
  }

  /** As `Advanced`, for the loops, which may match nothing. */
  predicate Within<T>(toks: seq<Token>, p: nat, errs: seq<Diag>, r: Parsed<T>)
  {
    p <= r.pos <= |toks| && |errs| <= |r.errs| && (r.stalled ==> |errs| < |r.errs|)
  }

  /** `Consume(k, message)`: past a token of kind `k`, or a diagnostic at the current token. */
  function Expect(toks: seq<Token>, p: nat, k: TokenType, message: string, errs: seq<Diag>): (r: Step)
    requires p <= |toks| && k != Eof
    ensures Cur(toks, p).kind == k ==> r == Step(p + 1, errs) && p < |toks|
    ensures Cur(toks, p).kind != k ==> r == Step(p, errs + [DiagAt(Cur(toks, p), message)])
  {
    if Cur(toks, p).kind == k then Step(p + 1, errs) else Step(p, errs + [DiagAt(Cur(toks, p), message)])
  }

  /** A number spelling `from_chars` accepts: it starts with a digit. */
  predicate StartsWithDigit(s: string)
  {
    |s| > 0 && '0' <= s[0] <= '9'
  }

  const InvalidLiteral: string := "Invalid literal token."
  const BadNumber: string := "Error converting number to string."
  const InvalidTarget: string := "Invalid target assignment"

  // the messages of `Consume`
  const ExpectParenAfterFor: string := "Expect '(' after 'for'."
  const ExpectParenAfterIf: string := "Expect '(' after 'if'."
  const ExpectParenAfterWhile: string := "Expect '(' after 'while'"
  const ExpectParenAfterFunctionName: string := "Expect '(' after function name."
  const ExpectParenAfterForClauses: string := "Expect ')' after 'for' condition."
  const ExpectParenAfterIfCondition: string := "Expect ')' after 'if' condition."
  const ExpectParenAfterWhileCondition: string := "Expect ')' after 'while' condition"
  const ExpectParenAfterArguments: string := "Expect ')' after arguments."
  const ExpectParenAfterParameters: string := "Expect ')' after function parameters."
  const ExpectSemicolonAfterCondition: string := "Expect ';' after condition"
  const ExpectSemicolonAfterPrint: string := "Expect ';' after print."
  const ExpectSemicolonAfterReturn: string := "Expect ';' after return value."
  const ExpectSemicolonAfterStatement: string := "Expect ';' after statement."
  const ExpectSemicolonAfterVariable: string := "Expect a ';' after variable declaration."
  const ExpectBraceBeforeBody: string := "Expect '{' before function body."
  const ExpectBraceAfterBlock: string := "Expect '}' after block."
  const ExpectFunctionName: string := "Expect a function name."
  const ExpectVariableName: string := "Expect a variable name."
  const ExpectParameterName: string := "Expect parameter name."

  // ---------------------------------------------------------------- expressions

  /** `primary → "true" | "false" | NUMBER | STRING | IDENTIFIER`; anything else yields nil without consuming. */
  function Primary(toks: seq<Token>, p: nat, errs: seq<Diag>): (r: Parsed<Expr>)
    requires p <= |toks|
    ensures Advanced(toks, p, errs, r) && !r.stalled
    ensures r.pos == p <==> Cur(toks, p).kind !in {True, False, Number, TokenType.String, Identifier}
    decreases |toks| - p, 0
  {
    var t := Cur(toks, p);
    if t.kind == True then Parsed(LiteralExpr(LoxBool(true)), p + 1, errs, false)
    else if t.kind == False then Parsed(LiteralExpr(LoxBool(false)), p + 1, errs, false)
    else if t.kind == Number then
      var errs' := if StartsWithDigit(t.lexeme) then errs else errs + [DiagAt(Cur(toks, p + 1), BadNumber)];
      Parsed(LiteralExpr(LoxNumber(t.lexeme)), p + 1, errs', false)
    else if t.kind == TokenType.String then Parsed(LiteralExpr(LoxString(t.lexeme)), p + 1, errs, false)
    else if t.kind == Identifier then Parsed(VarExpr(t), p + 1, errs, false)
    else Parsed(NilLiteral(), p, errs + [DiagAt(t, InvalidLiteral)], false)
  }

  /** The `while (Match(LeftParen))` loop of `Call`: each `(args)` wraps the callee in a call node. */
  function CallSuffix(toks: seq<Token>, p: nat, errs: seq<Diag>, callee: Expr): (r: Parsed<Expr>)
    requires p <= |toks|
    ensures Within(toks, p, errs, r) && !r.stalled
    decreases |toks| - p, 1
  {
    if Cur(toks, p).kind == LeftParen then
      var call := FinishCall(toks, p + 1, errs, callee);
      CallSuffix(toks, call.pos, call.errs, call.node)
    else Parsed(callee, p, errs, false)
  }

  /** One turn of that loop, after the `(`: the arguments and the `)`, whose token the call node keeps. */
  function FinishCall(toks: seq<Token>, p: nat, errs: seq<Diag>, callee: Expr): (r: Parsed<Expr>)
    requires p <= |toks|
    ensures Within(toks, p, errs, r) && !r.stalled
    ensures r.node.CallExpr? && r.node.callee == callee
    decreases |toks| - p, 14
  {
    var args := ArgumentList(toks, p, errs);
    var close := Expect(toks, args.pos, RightParen, ExpectParenAfterArguments, args.errs);
    Parsed(CallExpr(Prev(toks, close.pos), callee, args.node), close.pos, close.errs, false)
  }

  /** The arguments between a call's parentheses: none when the next token is `)`. */
  function ArgumentList(toks: seq<Token>, p: nat, errs: seq<Diag>): (r: Parsed<seq<Expr>>)
    requires p <= |toks|
    ensures Within(toks, p, errs, r) && !r.stalled
    ensures r.node == [] <==> Cur(toks, p).kind == RightParen
    decreases |toks| - p, 13
  {
    if Cur(toks, p).kind == RightParen then Parsed([], p, errs, false) else Arguments(toks, p, errs, [])
  }

  /** The `do { … } while (Match(Comma))` loop of call arguments, appending to `acc`. */
  function Arguments(toks: seq<Token>, p: nat, errs: seq<Diag>, acc: seq<Expr>): (r: Parsed<seq<Expr>>)
    requires p <= |toks|
    ensures Advanced(toks, p, errs, r) && !r.stalled && |r.node| > |acc|
    decreases |toks| - p, 12
  {
    var e := Expression(toks, p, errs);
    if Cur(toks, e.pos).kind == Comma then Arguments(toks, e.pos + 1, e.errs, acc + [e.node])
    else Parsed(acc + [e.node], e.pos, e.errs, false)
  }

  /** `call → primary ( "(" arguments? ")" )*`. */
  function Call(toks: seq<Token>, p: nat, errs: seq<Diag>): (r: Parsed<Expr>)
    requires p <= |toks|
    ensures Advanced(toks, p, errs, r) && !r.stalled
    decreases |toks| - p, 2
  {
    var e := Primary(toks, p, errs);
    CallSuffix(toks, e.pos, e.errs, e.node)
  }

  /** `unary → ( "!" | "-" ) unary | call`. */
  function Unary(toks: seq<Token>, p: nat, errs: seq<Diag>): (r: Parsed<Expr>)
    requires p <= |toks|
    ensures Advanced(toks, p, errs, r) && !r.stalled
    decreases |toks| - p, 3
  {
    var t := Cur(toks, p);
    if t.kind == Bang || t.kind == Minus then
      var right := Unary(toks, p + 1, errs);
      Parsed(UnaryExpr(t, right.node), right.pos, right.errs, false)
    else Call(toks, p, errs)
  }

  /** The `while (Match({Slash, Star}))` loop of `Factor`, folding to the left. */
  function FactorRest(toks: seq<Token>, p: nat, errs: seq<Diag>, left: Expr): (r: Parsed<Expr>)
    requires p <= |toks|
    ensures Within(toks, p, errs, r) && !r.stalled
    decreases |toks| - p, 3
  {
    var op := Cur(toks, p);
    if op.kind == Slash || op.kind == Star then
      var right := Unary(toks, p + 1, errs);
      FactorRest(toks, right.pos, right.errs, BinaryExpr(op, left, right.node))
    else Parsed(left, p, errs, false)
  }

  /** `factor → unary ( ( "/" | "*" ) unary )*`. */
  function Factor(toks: seq<Token>, p: nat, errs: seq<Diag>): (r: Parsed<Expr>)
    requires p <= |toks|
    ensures Advanced(toks, p, errs, r) && !r.stalled
    decreases |toks| - p, 4
  {
    var left := Unary(toks, p, errs);
    FactorRest(toks, left.pos, left.errs, left.node)
  }

  /** The `while (Match({Minus, Plus}))` loop of `Term`, folding to the left. */
  function TermRest(toks: seq<Token>, p: nat, errs: seq<Diag>, left: Expr): (r: Parsed<Expr>)
    requires p <= |toks|
    ensures Within(toks, p, errs, r) && !r.stalled
    decreases |toks| - p, 4
  {
    var op := Cur(toks, p);
    if op.kind == Minus || op.kind == Plus then
      var right := Factor(toks, p + 1, errs);
      TermRest(toks, right.pos, right.errs, BinaryExpr(op, left, right.node))
    else Parsed(left, p, errs, false)
  }

  /** `term → factor ( ( "-" | "+" ) factor )*`. */
  function Term(toks: seq<Token>, p: nat, errs: seq<Diag>): (r: Parsed<Expr>)
    requires p <= |toks|
    ensures Advanced(toks, p, errs, r) && !r.stalled
    decreases |toks| - p, 5
  {
    var left := Factor(toks, p, errs);
    TermRest(toks, left.pos, left.errs, left.node)
  }

  /** `comparison → term ( ( ">" | ">=" | "<" | "<=" ) term )?`: one right operand, a Compare node. */
  function Comparison(toks: seq<Token>, p: nat, errs: seq<Diag>): (r: Parsed<Expr>)
    requires p <= |toks|
    ensures Advanced(toks, p, errs, r) && !r.stalled
    decreases |toks| - p, 6
  {
    var left := Term(toks, p, errs);
    var op := Cur(toks, left.pos);
    if op.kind in {Less, LessEqual, Greater, GreaterEqual} then
      var right := Term(toks, left.pos + 1, left.errs);
      Parsed(CompExpr(op, left.node, right.node), right.pos, right.errs, false)
    else left
  }

  /** `equality → comparison ( ( "!=" | "==" ) comparison )?`: one right operand, a Binary node. */
  function Equality(toks: seq<Token>, p: nat, errs: seq<Diag>): (r: Parsed<Expr>)
    requires p <= |toks|
    ensures Advanced(toks, p, errs, r) && !r.stalled
    decreases |toks| - p, 7
  {
    var left := Comparison(toks, p, errs);
    var op := Cur(toks, left.pos);
    if op.kind == BangEqual || op.kind == EqualEqual then
      var right := Comparison(toks, left.pos + 1, left.errs);
      Parsed(BinaryExpr(op, left.node, right.node), right.pos, right.errs, false)
    else left
  }

  /** `logic_and → equality ( "and" equality )?`. */
  function LogicAnd(toks: seq<Token>, p: nat, errs: seq<Diag>): (r: Parsed<Expr>)
    requires p <= |toks|
    ensures Advanced(toks, p, errs, r) && !r.stalled
    decreases |toks| - p, 8
  {
    var left := Equality(toks, p, errs);
    var op := Cur(toks, left.pos);
    if op.kind == And then
      var right := Equality(toks, left.pos + 1, left.errs);
      Parsed(LogicalExpr(op, left.node, right.node), right.pos, right.errs, false)
    else left
  }

  /** `logic_or → logic_and ( "or" logic_and )?`. */
  function LogicOr(toks: seq<Token>, p: nat, errs: seq<Diag>): (r: Parsed<Expr>)
    requires p <= |toks|
    ensures Advanced(toks, p, errs, r) && !r.stalled
    decreases |toks| - p, 9
  {
    var left := LogicAnd(toks, p, errs);
    var op := Cur(toks, left.pos);
    if op.kind == Or then
      var right := LogicAnd(toks, left.pos + 1, left.errs);
      Parsed(LogicalExpr(op, left.node, right.node), right.pos, right.errs, false)
    else left
  }

  /**
   * `assignment → logic_or ( "=" assignment )?`: the value is parsed first;
   * a variable target gives an Assign node, any other target keeps the left
   * operand and reports "Invalid target assignment" at the `=`.
   */
  function Assignment(toks: seq<Token>, p: nat, errs: seq<Diag>): (r: Parsed<Expr>)
    requires p <= |toks|
    ensures Advanced(toks, p, errs, r) && !r.stalled
    decreases |toks| - p, 10
  {
    var left := LogicOr(toks, p, errs);
    var equals := Cur(toks, left.pos);
    if equals.kind == Equal then
      var value := Assignment(toks, left.pos + 1, left.errs);
      if left.node.VarExpr? then Parsed(AssignExpr(left.node.name, value.node), value.pos, value.errs, false)
      else Parsed(left.node, value.pos, value.errs + [DiagAt(equals, InvalidTarget)], false)
    else left
  }

  /** `expression → assignment`. */
  function Expression(toks: seq<Token>, p: nat, errs: seq<Diag>): (r: Parsed<Expr>)
    requires p <= |toks|
    ensures Advanced(toks, p, errs, r) && !r.stalled
    decreases |toks| - p, 11
  {
    Assignment(toks, p, errs)
  }

  // ---------------------------------------------------------------- statements

  /** `exprStmt → expression ";"`. */
  function ExpressionStatement(toks: seq<Token>, p: nat, errs: seq<Diag>): (r: Parsed<Stmt>)
    requires p <= |toks|
    ensures Advanced(toks, p, errs, r) && !r.stalled && r.node.ExprStmt?
    decreases |toks| - p, 12
  {
    var e := Expression(toks, p, errs);
    var semi := Expect(toks, e.pos, Semicolon, ExpectSemicolonAfterStatement, e.errs);
    Parsed(ExprStmt(e.node), semi.pos, semi.errs, false)
  }

  /** `printStmt → "print" expression ";"`, after the keyword. */
  function PrintStatement(toks: seq<Token>, p: nat, errs: seq<Diag>): (r: Parsed<Stmt>)
    requires p <= |toks|
    ensures Advanced(toks, p, errs, r) && !r.stalled && r.node.PrintStmt?
    decreases |toks| - p, 12
  {
    var e := Expression(toks, p, errs);
    var semi := Expect(toks, e.pos, Semicolon, ExpectSemicolonAfterPrint, e.errs);
    Parsed(PrintStmt(e.node), semi.pos, semi.errs, false)
  }

  /** The optional value of a `return`: nil when the next token is `;`. */
  function ReturnValue(toks: seq<Token>, p: nat, errs: seq<Diag>): (r: Parsed<Expr>)
    requires p <= |toks|
    ensures Within(toks, p, errs, r) && !r.stalled
    ensures r.pos == p && r.errs == errs <== Cur(toks, p).kind == Semicolon
    decreases |toks| - p, 12
  {
    if Cur(toks, p).kind == Semicolon then Parsed(NilLiteral(), p, errs, false) else Expression(toks, p, errs)
  }

  /** `returnStmt → "return" expression? ";"`, after the keyword, which the node keeps. */
  function ReturnStatement(toks: seq<Token>, p: nat, errs: seq<Diag>): (r: Parsed<Stmt>)
    requires p <= |toks|
    ensures Advanced(toks, p, errs, r) && !r.stalled
    ensures r.node.ReturnStmt? && r.node.keyword == Prev(toks, p)
    decreases |toks| - p, 13
  {
    var value := ReturnValue(toks, p, errs);
    var semi := Expect(toks, value.pos, Semicolon, ExpectSemicolonAfterReturn, value.errs);
    Parsed(ReturnStmt(Prev(toks, p), value.node), semi.pos, semi.errs, false)
  }

  /** The optional `= expression` of a variable declaration: nil when absent. */
  function Initializer(toks: seq<Token>, p: nat, errs: seq<Diag>): (r: Parsed<Expr>)
    requires p <= |toks|
    ensures Within(toks, p, errs, r) && !r.stalled
    ensures r.pos == p <==> Cur(toks, p).kind != Equal
    decreases |toks| - p, 12
  {
    if Cur(toks, p).kind == Equal then Expression(toks, p + 1, errs) else Parsed(NilLiteral(), p, errs, false)
  }

  /** `varDecl → "var" IDENTIFIER ( "=" expression )? ";"`, after the keyword. */
  function VarDeclaration(toks: seq<Token>, p: nat, errs: seq<Diag>): (r: Parsed<Stmt>)
    requires p <= |toks|
    ensures Advanced(toks, p, errs, r) && !r.stalled && r.node.VarStmt?
    decreases |toks| - p, 13
  {
    var name := Expect(toks, p, Identifier, ExpectVariableName, errs);
    var init := Initializer(toks, name.pos, name.errs);
    var semi := Expect(toks, init.pos, Semicolon, ExpectSemicolonAfterVariable, init.errs);
    Parsed(VarStmt(Prev(toks, name.pos), init.node), semi.pos, semi.errs, false)
  }

  /**
   * `statement`: print, block, return, for, if and while are chosen by their
   * first token; anything else is an expression statement.
   */
  function Statement(toks: seq<Token>, p: nat, errs: seq<Diag>): (r: Parsed<Stmt>)
    requires p <= |toks|
    ensures Advanced(toks, p, errs, r)
    decreases |toks| - p, 14
  {
    var k := Cur(toks, p).kind;
    if k == Print then PrintStatement(toks, p + 1, errs)
    else if k == LeftBrace then
      var b := BlockStatement(toks, p + 1, errs);
      Parsed(BlockStmt(b.node), b.pos, b.errs, b.stalled)
    else if k == Return then ReturnStatement(toks, p + 1, errs)
    else if k == For then ForStatement(toks, p + 1, errs)
    else if k == If then IfStatement(toks, p + 1, errs)
    else if k == While then WhileStatement(toks, p + 1, errs)
    else ExpressionStatement(toks, p, errs)
  }

  /**
   * The `while` loop a `for` statement stands for: the increment runs after
   * the body, a missing condition is `true`, and an initializer wraps the
   * loop in a block.
   */
  function Desugar(init: Option<Stmt>, cond: Option<Expr>, incr: Option<Expr>, body: Stmt): (s: Stmt)
    ensures init.Some? ==> s.BlockStmt? && |s.statements| == 2 && s.statements[0] == init.value && s.statements[1].WhileStmt?
    ensures init.None? ==> s.WhileStmt?
    ensures var loop := if init.Some? then s.statements[1] else s;
      loop.WhileStmt? &&
      loop.condition == (if cond.Some? then cond.value else LiteralExpr(LoxBool(true))) &&
      loop.body == (if incr.Some? then BlockStmt([body, ExprStmt(incr.value)]) else body)
  {
    var loopBody := if incr.Some? then BlockStmt([body, ExprStmt(incr.value)]) else body;
    var condition := if cond.Some? then cond.value else LiteralExpr(LoxBool(true));
    var loop := WhileStmt(condition, loopBody);
    if init.Some? then BlockStmt([init.value, loop]) else loop
  }

  /** The initializer clause of a `for`: a variable declaration, nothing (a lone `;`) or an expression statement. */
  function ForInitializer(toks: seq<Token>, p: nat, errs: seq<Diag>): (r: Parsed<Option<Stmt>>)
    requires p <= |toks|
    ensures Advanced(toks, p, errs, r) && !r.stalled
    ensures r.node.None? <==> Cur(toks, p).kind == Semicolon
    ensures Cur(toks, p).kind == Var ==> r.node.Some? && r.node.value.VarStmt?
    ensures Cur(toks, p).kind !in {Var, Semicolon} ==> r.node.Some? && r.node.value.ExprStmt?
    decreases |toks| - p, 14
  {
    var k := Cur(toks, p).kind;
    if k == Var then
      var d := VarDeclaration(toks, p + 1, errs);
      Parsed(Some(d.node), d.pos, d.errs, false)
    else if k == Semicolon then Parsed(None, p + 1, errs, false)
    else
      var d := ExpressionStatement(toks, p, errs);
      Parsed(Some(d.node), d.pos, d.errs, false)
  }

  /** The condition clause of a `for`, absent when the next token is `;`, and the `;` after it. */
  function ForCondition(toks: seq<Token>, p: nat, errs: seq<Diag>): (r: Parsed<Option<Expr>>)
    requires p <= |toks|
    ensures Advanced(toks, p, errs, r) && !r.stalled
    ensures r.node.None? <==> Cur(toks, p).kind == Semicolon
  {
    var cond :=
      if Cur(toks, p).kind == Semicolon then Parsed(None, p, errs, false)
      else
        var e := Expression(toks, p, errs);
        Parsed(Some(e.node), e.pos, e.errs, false);
    var semi := Expect(toks, cond.pos, Semicolon, ExpectSemicolonAfterCondition, cond.errs);
    Parsed(cond.node, semi.pos, semi.errs, false)
  }

  /** The increment clause of a `for`, absent when the next token is `)`, and the `)` after it. */
  function ForIncrement(toks: seq<Token>, p: nat, errs: seq<Diag>): (r: Parsed<Option<Expr>>)
    requires p <= |toks|
    ensures Advanced(toks, p, errs, r) && !r.stalled
    ensures r.node.None? <==> Cur(toks, p).kind == RightParen
  {
    var incr :=
      if Cur(toks, p).kind == RightParen then Parsed(None, p, errs, false)
      else
        var e := Expression(toks, p, errs);
        Parsed(Some(e.node), e.pos, e.errs, false);
    var close := Expect(toks, incr.pos, RightParen, ExpectParenAfterForClauses, incr.errs);
    Parsed(incr.node, close.pos, close.errs, false)
  }

  /** The three clauses of a `for`, each possibly absent. */
  datatype ForClauses = ForClauses(initializer: Option<Stmt>, condition: Option<Expr>, increment: Option<Expr>)

  /** `"(" ( varDecl | exprStmt | ";" ) expression? ";" expression? ")"`: everything of a `for` before its body. */
  function ForHeader(toks: seq<Token>, p: nat, errs: seq<Diag>): (r: Parsed<ForClauses>)
    requires p <= |toks|
    ensures Advanced(toks, p, errs, r) && !r.stalled
  {
    var open := Expect(toks, p, LeftParen, ExpectParenAfterFor, errs);
    var init := ForInitializer(toks, open.pos, open.errs);
    var cond := ForCondition(toks, init.pos, init.errs);
    var incr := ForIncrement(toks, cond.pos, cond.errs);
    Parsed(ForClauses(init.node, cond.node, incr.node), incr.pos, incr.errs, false)
  }

  /**
   * `forStmt → "for" "(" ( varDecl | exprStmt | ";" ) expression? ";" expression? ")" statement`,
   * after the keyword, returned in its `while` form.
   */
  function ForStatement(toks: seq<Token>, p: nat, errs: seq<Diag>): (r: Parsed<Stmt>)
    requires p <= |toks|
    ensures Advanced(toks, p, errs, r)
    decreases |toks| - p, 15
  {
    var header := ForHeader(toks, p, errs);
    var body := Statement(toks, header.pos, header.errs);
    var clauses := header.node;
    Parsed(Desugar(clauses.initializer, clauses.condition, clauses.increment, body.node), body.pos, body.errs, body.stalled)
  }

  /** The optional `else` branch of an `if`, looked for only when the `then` branch did not stall. */
  function ElseBranch(toks: seq<Token>, p: nat, errs: seq<Diag>, stalled: bool): (r: Parsed<Option<Stmt>>)
    requires p <= |toks|
    ensures p <= r.pos <= |toks| && |errs| <= |r.errs| && (r.stalled ==> stalled || |errs| < |r.errs|)
    ensures r.node.Some? <==> !stalled && Cur(toks, p).kind == Else
    decreases |toks| - p, 15
  {
    if !stalled && Cur(toks, p).kind == Else then
      var e := Statement(toks, p + 1, errs);
      Parsed(Some(e.node), e.pos, e.errs, e.stalled)
    else Parsed(None, p, errs, stalled)
  }

  /** `ifStmt → "if" "(" expression ")" statement ( "else" statement )?`, after the keyword. */
  function IfStatement(toks: seq<Token>, p: nat, errs: seq<Diag>): (r: Parsed<Stmt>)
    requires p <= |toks|
    ensures Advanced(toks, p, errs, r) && r.node.IfStmt?
    decreases |toks| - p, 16
  {
    var open := Expect(toks, p, LeftParen, ExpectParenAfterIf, errs);
    var cond := Expression(toks, open.pos, open.errs);
    var close := Expect(toks, cond.pos, RightParen, ExpectParenAfterIfCondition, cond.errs);
    var thenPart := Statement(toks, close.pos, close.errs);
    var elsePart := ElseBranch(toks, thenPart.pos, thenPart.errs, thenPart.stalled);
    Parsed(IfStmt(cond.node, thenPart.node, elsePart.node), elsePart.pos, elsePart.errs, elsePart.stalled)
  }

  /** `whileStmt → "while" "(" expression ")" statement`, after the keyword. */
  function WhileStatement(toks: seq<Token>, p: nat, errs: seq<Diag>): (r: Parsed<Stmt>)
    requires p <= |toks|
    ensures Advanced(toks, p, errs, r) && r.node.WhileStmt?
    decreases |toks| - p, 15
  {
    var open := Expect(toks, p, LeftParen, ExpectParenAfterWhile, errs);
    var cond := Expression(toks, open.pos, open.errs);
    var close := Expect(toks, cond.pos, RightParen, ExpectParenAfterWhileCondition, cond.errs);
    var body := Statement(toks, close.pos, close.errs);
    Parsed(WhileStmt(cond.node, body.node), body.pos, body.errs, body.stalled)
  }

  /** `declaration → funDecl | varDecl | statement`. */
  function Declaration(toks: seq<Token>, p: nat, errs: seq<Diag>): (r: Parsed<Stmt>)
    requires p <= |toks|
    ensures Advanced(toks, p, errs, r)
    decreases |toks| - p, 17
  {
    var k := Cur(toks, p).kind;
    if k == Var then VarDeclaration(toks, p + 1, errs)
    else if k == Fun then FunDeclaration(toks, p + 1, errs)
    else Statement(toks, p, errs)
  }

  /**
   * One turn of a declaration loop: a declaration, marked stalled when it
   * stalled or consumed no token, since the loop would then repeat it forever.
   */
  function DeclarationStep(toks: seq<Token>, p: nat, errs: seq<Diag>): (r: Parsed<Stmt>)
    requires p <= |toks|
    ensures Within(toks, p, errs, r) && (r.pos == p ==> r.stalled)
    decreases |toks| - p, 18
  {
    var d := Declaration(toks, p, errs);
    Parsed(d.node, d.pos, d.errs, d.stalled || d.pos == p)
  }

  /**
   * The loop of a block, appending to `acc`: declarations in order until `}`
   * or Eof. A declaration that consumes nothing would be repeated forever,
   * so the loop stalls there.
   */
  function BlockDeclarations(toks: seq<Token>, p: nat, errs: seq<Diag>, acc: seq<Stmt>): (r: Parsed<seq<Stmt>>)
    requires p <= |toks|
    ensures Within(toks, p, errs, r) && |acc| <= |r.node|
    ensures !r.stalled ==> Cur(toks, r.pos).kind in {Eof, RightBrace}
    decreases |toks| - p, 19
  {
    var k := Cur(toks, p).kind;
    if k == Eof || k == RightBrace then Parsed(acc, p, errs, false)
    else
      var d := DeclarationStep(toks, p, errs);
      if d.stalled then Parsed(acc + [d.node], d.pos, d.errs, true)
      else BlockDeclarations(toks, d.pos, d.errs, acc + [d.node])
  }

  /** `block → "{" declaration* "}"`, after the `{`. */
  function BlockStatement(toks: seq<Token>, p: nat, errs: seq<Diag>): (r: Parsed<seq<Stmt>>)
    requires p <= |toks|
    ensures Advanced(toks, p, errs, r)
    decreases |toks| - p, 20
  {
    var body := BlockDeclarations(toks, p, errs, []);
    if body.stalled then body
    else
      var close := Expect(toks, body.pos, RightBrace, ExpectBraceAfterBlock, body.errs);
      Parsed(body.node, close.pos, close.errs, false)
  }

  /** The `do { … } while (Match(Comma))` loop of function parameters, appending to `acc`; a missing name records `prev`. */
  function Parameters(toks: seq<Token>, p: nat, errs: seq<Diag>, acc: seq<Token>): (r: Parsed<seq<Token>>)
    requires p <= |toks|
    ensures Advanced(toks, p, errs, r) && !r.stalled && |r.node| > |acc|
    decreases |toks| - p
  {
    var param := Parameter(toks, p, errs);
    if Cur(toks, param.pos).kind == Comma then Parameters(toks, param.pos + 1, param.errs, acc + [param.node])
    else Parsed(acc + [param.node], param.pos, param.errs, false)
  }

  /** One parameter name; when it is missing, whatever token `prev` holds stands in for it. */
  function Parameter(toks: seq<Token>, p: nat, errs: seq<Diag>): (r: Parsed<Token>)
    requires p <= |toks|
    ensures Advanced(toks, p, errs, r) && !r.stalled
    ensures r.pos > p <==> Cur(toks, p).kind == Identifier
    ensures r.pos > p ==> r.node == Cur(toks, p) && r.errs == errs
  {
    var name := Expect(toks, p, Identifier, ExpectParameterName, errs);
    Parsed(Prev(toks, name.pos), name.pos, name.errs, false)
  }

  /** `"(" parameters? ")"`: no parameters when the token after the `(` is `)`. */
  function ParameterList(toks: seq<Token>, p: nat, errs: seq<Diag>): (r: Parsed<seq<Token>>)
    requires p <= |toks|
    ensures Advanced(toks, p, errs, r) && !r.stalled
  {
    var open := Expect(toks, p, LeftParen, ExpectParenAfterFunctionName, errs);
    var params :=
      if Cur(toks, open.pos).kind == RightParen then Parsed([], open.pos, open.errs, false)
      else Parameters(toks, open.pos, open.errs, []);
    var close := Expect(toks, params.pos, RightParen, ExpectParenAfterParameters, params.errs);
    Parsed(params.node, close.pos, close.errs, false)
  }

  /** A function's name and parameters. */
  datatype Signature = Signature(name: Token, params: seq<Token>)

  /** `IDENTIFIER "(" parameters? ")" "{"`: everything of a function declaration before its body. */
  function FunHeader(toks: seq<Token>, p: nat, errs: seq<Diag>): (r: Parsed<Signature>)
    requires p <= |toks|
    ensures Advanced(toks, p, errs, r) && !r.stalled
  {
    var name := Expect(toks, p, Identifier, ExpectFunctionName, errs);
    var params := ParameterList(toks, name.pos, name.errs);
    var brace := Expect(toks, params.pos, LeftBrace, ExpectBraceBeforeBody, params.errs);
    Parsed(Signature(Prev(toks, name.pos), params.node), brace.pos, brace.errs, false)
  }

  /** `funDecl → "fun" IDENTIFIER "(" parameters? ")" block`, after the keyword. */
  function FunDeclaration(toks: seq<Token>, p: nat, errs: seq<Diag>): (r: Parsed<Stmt>)
    requires p <= |toks|
    ensures Advanced(toks, p, errs, r) && r.node.FunStmt?
    decreases |toks| - p, 21
  {
    var header := FunHeader(toks, p, errs);
    var body := BlockStatement(toks, header.pos, header.errs);
    Parsed(FunStmt(header.node.name, header.node.params, body.node), body.pos, body.errs, body.stalled)
  }

  // ---------------------------------------------------------------- program

  /** The loop of `Parse`, appending to `acc`: declarations in order until Eof, stalling like a block's loop. */
  function ParseFrom(toks: seq<Token>, p: nat, errs: seq<Diag>, acc: seq<Stmt>): (r: Parsed<seq<Stmt>>)
    requires p <= |toks|
    ensures Within(toks, p, errs, r) && |acc| <= |r.node|
    ensures !r.stalled ==> Cur(toks, r.pos).kind == Eof
    decreases |toks| - p
  {
    if Cur(toks, p).kind == Eof then Parsed(acc, p, errs, false)
    else
      var d := DeclarationStep(toks, p, errs);
      if d.stalled then Parsed(acc + [d.node], d.pos, d.errs, true)
      else ParseFrom(toks, d.pos, d.errs, acc + [d.node])
  }

  /** `program → declaration* EOF`. */
  function Parse(toks: seq<Token>): (r: Parsed<seq<Stmt>>)
    ensures r.pos <= |toks| && (r.stalled ==> r.errs != [])
    ensures !r.stalled ==> Cur(toks, r.pos).kind == Eof
  {
    ParseFrom(toks, 0, [], [])
  }

  /** What the parser prints: the first diagnostic asked for, and none after it (panic mode is never left). */
  function FirstOnly(errs: seq<Diag>): (r: seq<Diag>)
    ensures r <= errs && |r| <= 1
    ensures r == [] <==> errs == []
  {
    if |errs| == 0 then [] else [errs[0]]
  }
}
