/**
 * The parser never builds a grouping node. `primary` has no case for `(`,
 * so a parenthesised expression is reported as an invalid literal instead
 * of being wrapped in a Grouping node, and no other production makes one.
 * Each lemma follows one production and uses the lemmas of the productions
 * it calls.
 */
module GroupingFacts {
  import opened Tokens
  import opened Types
  import opened Ast
  import opened Grammar

  /** No grouping node occurs anywhere in the expression. */
  predicate GroupingFree(e: Expr)
  {
    match e
    case BinaryExpr(_, l, r) => GroupingFree(l) && GroupingFree(r)
    case UnaryExpr(_, r) => GroupingFree(r)
    case LiteralExpr(_) => true
    case GroupingExpr(_) => false
    case AssignExpr(_, v) => GroupingFree(v)
    case VarExpr(_) => true
    case LogicalExpr(_, l, r) => GroupingFree(l) && GroupingFree(r)
    case CallExpr(_, callee, args) => GroupingFree(callee) && ArgsGroupingFree(args)
    case CompExpr(_, l, r) => GroupingFree(l) && GroupingFree(r)
  }

  /** No grouping node occurs in any argument of a call. */
  predicate ArgsGroupingFree(args: seq<Expr>)
    decreases args
  {
    args == [] || (ArgsGroupingFree(args[..|args| - 1]) && GroupingFree(args[|args| - 1]))
  }

  /** No grouping node occurs in any expression of the statement, nested statements included. */
  predicate StmtGroupingFree(s: Stmt)
  {
    match s
    case ExprStmt(e) => GroupingFree(e)
    case PrintStmt(e) => GroupingFree(e)
    case VarStmt(_, init) => GroupingFree(init)
    case BlockStmt(ss) => forall t <- ss :: StmtGroupingFree(t)
    case FunStmt(_, _, body) => forall t <- body :: StmtGroupingFree(t)
    case ReturnStmt(_, v) => GroupingFree(v)
    case IfStmt(c, t, e) => GroupingFree(c) && StmtGroupingFree(t) && (e.Some? ==> StmtGroupingFree(e.value))
    case WhileStmt(c, b) => GroupingFree(c) && StmtGroupingFree(b)
  }

  // ---------------------------------------------------------------- expressions

  /** `primary` builds only literal and variable nodes: an opening parenthesis is an invalid literal. */
  lemma ParenthesisIsInvalidLiteral(toks: seq<Token>, p: nat, errs: seq<Diag>)
    requires p <= |toks| && Cur(toks, p).kind == LeftParen
    ensures Primary(toks, p, errs).node == NilLiteral()
    ensures Primary(toks, p, errs).errs == errs + [DiagAt(Cur(toks, p), InvalidLiteral)]
  {
  }

  lemma {:induction false} CallSuffixNoGrouping(toks: seq<Token>, p: nat, errs: seq<Diag>, callee: Expr)
    requires p <= |toks| && GroupingFree(callee)
    ensures GroupingFree(CallSuffix(toks, p, errs, callee).node)
    decreases |toks| - p, 1
  {
    if Cur(toks, p).kind == LeftParen {
      var call := FinishCall(toks, p + 1, errs, callee);
      FinishCallNoGrouping(toks, p + 1, errs, callee);
      CallSuffixNoGrouping(toks, call.pos, call.errs, call.node);
    }
  }

  lemma {:induction false} FinishCallNoGrouping(toks: seq<Token>, p: nat, errs: seq<Diag>, callee: Expr)
    requires p <= |toks| && GroupingFree(callee)
    ensures GroupingFree(FinishCall(toks, p, errs, callee).node)
    decreases |toks| - p, 14
  {
    ArgumentListNoGrouping(toks, p, errs);
  }

  lemma {:induction false} ArgumentListNoGrouping(toks: seq<Token>, p: nat, errs: seq<Diag>)
    requires p <= |toks|
    ensures ArgsGroupingFree(ArgumentList(toks, p, errs).node)
    decreases |toks| - p, 13
  {
    if Cur(toks, p).kind != RightParen {
      ArgumentsNoGrouping(toks, p, errs, []);
    }
  }

  lemma {:induction false} ArgumentsNoGrouping(toks: seq<Token>, p: nat, errs: seq<Diag>, acc: seq<Expr>)
    requires p <= |toks| && ArgsGroupingFree(acc)
    ensures ArgsGroupingFree(Arguments(toks, p, errs, acc).node)
    decreases |toks| - p, 12
  {
    var e := Expression(toks, p, errs);
    ExpressionNoGrouping(toks, p, errs);
    assert (acc + [e.node])[..|acc|] == acc;
    if Cur(toks, e.pos).kind == Comma {
      ArgumentsNoGrouping(toks, e.pos + 1, e.errs, acc + [e.node]);
    }
  }

  lemma {:induction false} CallNoGrouping(toks: seq<Token>, p: nat, errs: seq<Diag>)
    requires p <= |toks|
    ensures GroupingFree(Call(toks, p, errs).node)
    decreases |toks| - p, 2
  {
    var e := Primary(toks, p, errs);
    CallSuffixNoGrouping(toks, e.pos, e.errs, e.node);
  }

  lemma {:induction false} UnaryNoGrouping(toks: seq<Token>, p: nat, errs: seq<Diag>)
    requires p <= |toks|
    ensures GroupingFree(Unary(toks, p, errs).node)
    decreases |toks| - p, 3
  {
    var k := Cur(toks, p).kind;
    if k == Bang || k == Minus {
      UnaryNoGrouping(toks, p + 1, errs);
    } else {
      CallNoGrouping(toks, p, errs);
    }
  }

  lemma {:induction false} FactorRestNoGrouping(toks: seq<Token>, p: nat, errs: seq<Diag>, left: Expr)
    requires p <= |toks| && GroupingFree(left)
    ensures GroupingFree(FactorRest(toks, p, errs, left).node)
    decreases |toks| - p, 3
  {
    var op := Cur(toks, p);
    if op.kind == Slash || op.kind == Star {
      var right := Unary(toks, p + 1, errs);
      UnaryNoGrouping(toks, p + 1, errs);
      FactorRestNoGrouping(toks, right.pos, right.errs, BinaryExpr(op, left, right.node));
    }
  }

  lemma {:induction false} FactorNoGrouping(toks: seq<Token>, p: nat, errs: seq<Diag>)
    requires p <= |toks|
    ensures GroupingFree(Factor(toks, p, errs).node)
    decreases |toks| - p, 4
  {
    var left := Unary(toks, p, errs);
    UnaryNoGrouping(toks, p, errs);
    FactorRestNoGrouping(toks, left.pos, left.errs, left.node);
  }

  lemma {:induction false} TermRestNoGrouping(toks: seq<Token>, p: nat, errs: seq<Diag>, left: Expr)
    requires p <= |toks| && GroupingFree(left)
    ensures GroupingFree(TermRest(toks, p, errs, left).node)
    decreases |toks| - p, 4
  {
    var op := Cur(toks, p);
    if op.kind == Minus || op.kind == Plus {
      var right := Factor(toks, p + 1, errs);
      FactorNoGrouping(toks, p + 1, errs);
      TermRestNoGrouping(toks, right.pos, right.errs, BinaryExpr(op, left, right.node));
    }
  }

  lemma {:induction false} TermNoGrouping(toks: seq<Token>, p: nat, errs: seq<Diag>)
    requires p <= |toks|
    ensures GroupingFree(Term(toks, p, errs).node)
    decreases |toks| - p, 5
  {
    var left := Factor(toks, p, errs);
    FactorNoGrouping(toks, p, errs);
    TermRestNoGrouping(toks, left.pos, left.errs, left.node);
  }

  lemma {:induction false} ComparisonNoGrouping(toks: seq<Token>, p: nat, errs: seq<Diag>)
    requires p <= |toks|
    ensures GroupingFree(Comparison(toks, p, errs).node)
    decreases |toks| - p, 6
  {
    var left := Term(toks, p, errs);
    TermNoGrouping(toks, p, errs);
    if Cur(toks, left.pos).kind in {Less, LessEqual, Greater, GreaterEqual} {
      TermNoGrouping(toks, left.pos + 1, left.errs);
    }
  }

  lemma {:induction false} EqualityNoGrouping(toks: seq<Token>, p: nat, errs: seq<Diag>)
    requires p <= |toks|
    ensures GroupingFree(Equality(toks, p, errs).node)
    decreases |toks| - p, 7
  {
    var left := Comparison(toks, p, errs);
    ComparisonNoGrouping(toks, p, errs);
    var k := Cur(toks, left.pos).kind;
    if k == BangEqual || k == EqualEqual {
      ComparisonNoGrouping(toks, left.pos + 1, left.errs);
    }
  }

  lemma {:induction false} LogicAndNoGrouping(toks: seq<Token>, p: nat, errs: seq<Diag>)
    requires p <= |toks|
    ensures GroupingFree(LogicAnd(toks, p, errs).node)
    decreases |toks| - p, 8
  {
    var left := Equality(toks, p, errs);
    EqualityNoGrouping(toks, p, errs);
    if Cur(toks, left.pos).kind == And {
      ConjunctionNoGrouping(toks, p, errs);
    }
  }

  /** The `and` branch of `logic_and`. */
  lemma {:induction false} ConjunctionNoGrouping(toks: seq<Token>, p: nat, errs: seq<Diag>)
    requires p <= |toks|
    requires var left := Equality(toks, p, errs); GroupingFree(left.node) && Cur(toks, left.pos).kind == And
    ensures GroupingFree(LogicAnd(toks, p, errs).node)
    decreases |toks| - p, 7, 1
  {
    var left := Equality(toks, p, errs);
    EqualityNoGrouping(toks, left.pos + 1, left.errs);
  }

  lemma {:induction false} LogicOrNoGrouping(toks: seq<Token>, p: nat, errs: seq<Diag>)
    requires p <= |toks|
    ensures GroupingFree(LogicOr(toks, p, errs).node)
    decreases |toks| - p, 9
  {
    var left := LogicAnd(toks, p, errs);
    LogicAndNoGrouping(toks, p, errs);
    if Cur(toks, left.pos).kind == Or {
      LogicAndNoGrouping(toks, left.pos + 1, left.errs);
    }
  }

  /** The node `assignment` builds once it has seen `=`: an Assign node for a variable target, the target otherwise. */
  lemma AssignmentNode(toks: seq<Token>, p: nat, errs: seq<Diag>)
    requires p <= |toks|
    ensures var left := LogicOr(toks, p, errs);
      Cur(toks, left.pos).kind == Equal ==>
        var value := Assignment(toks, left.pos + 1, left.errs).node;
        Assignment(toks, p, errs).node == if left.node.VarExpr? then AssignExpr(left.node.name, value) else left.node
  {
  }

  lemma {:induction false} AssignmentNoGrouping(toks: seq<Token>, p: nat, errs: seq<Diag>)
    requires p <= |toks|
    ensures GroupingFree(Assignment(toks, p, errs).node)
    decreases |toks| - p, 10
  {
    var left := LogicOr(toks, p, errs);
    LogicOrNoGrouping(toks, p, errs);
    if Cur(toks, left.pos).kind == Equal {
      AssignedNoGrouping(toks, p, errs);
    }
  }

  /** The `=` branch of `assignment`. */
  lemma {:induction false} AssignedNoGrouping(toks: seq<Token>, p: nat, errs: seq<Diag>)
    requires p <= |toks|
    requires var left := LogicOr(toks, p, errs); GroupingFree(left.node) && Cur(toks, left.pos).kind == Equal
    ensures GroupingFree(Assignment(toks, p, errs).node)
    decreases |toks| - p, 9
  {
    var left := LogicOr(toks, p, errs);
    AssignmentNoGrouping(toks, left.pos + 1, left.errs);
    AssignmentNode(toks, p, errs);
  }

  /** No expression the parser builds contains a grouping node. */
  lemma {:induction false} ExpressionNoGrouping(toks: seq<Token>, p: nat, errs: seq<Diag>)
    requires p <= |toks|
    ensures GroupingFree(Expression(toks, p, errs).node)
    decreases |toks| - p, 11
  {
    AssignmentNoGrouping(toks, p, errs);
  }

  // ---------------------------------------------------------------- statements

  lemma ExpressionStatementNoGrouping(toks: seq<Token>, p: nat, errs: seq<Diag>)
    requires p <= |toks|
    ensures StmtGroupingFree(ExpressionStatement(toks, p, errs).node)
  {
    ExpressionNoGrouping(toks, p, errs);
  }

  lemma PrintStatementNoGrouping(toks: seq<Token>, p: nat, errs: seq<Diag>)
    requires p <= |toks|
    ensures StmtGroupingFree(PrintStatement(toks, p, errs).node)
  {
    ExpressionNoGrouping(toks, p, errs);
  }

  lemma ReturnStatementNoGrouping(toks: seq<Token>, p: nat, errs: seq<Diag>)
    requires p <= |toks|
    ensures StmtGroupingFree(ReturnStatement(toks, p, errs).node)
  {
    if Cur(toks, p).kind != Semicolon {
      ExpressionNoGrouping(toks, p, errs);
    }
  }

  lemma VarDeclarationNoGrouping(toks: seq<Token>, p: nat, errs: seq<Diag>)
    requires p <= |toks|
    ensures StmtGroupingFree(VarDeclaration(toks, p, errs).node)
  {
    var name := Expect(toks, p, Identifier, ExpectVariableName, errs);
    if Cur(toks, name.pos).kind == Equal {
      ExpressionNoGrouping(toks, name.pos + 1, name.errs);
    }
  }

  lemma ForInitializerNoGrouping(toks: seq<Token>, p: nat, errs: seq<Diag>)
    requires p <= |toks|
    ensures var r := ForInitializer(toks, p, errs); r.node.Some? ==> StmtGroupingFree(r.node.value)
  {
    var k := Cur(toks, p).kind;
    if k == Var {
      VarDeclarationNoGrouping(toks, p + 1, errs);
      assert ForInitializer(toks, p, errs).node == Some(VarDeclaration(toks, p + 1, errs).node);
    } else if k != Semicolon {
      ExpressionStatementNoGrouping(toks, p, errs);
      assert ForInitializer(toks, p, errs).node == Some(ExpressionStatement(toks, p, errs).node);
    }
  }

  lemma ForConditionNoGrouping(toks: seq<Token>, p: nat, errs: seq<Diag>)
    requires p <= |toks|
    ensures var r := ForCondition(toks, p, errs); r.node.Some? ==> GroupingFree(r.node.value)
  {
    if Cur(toks, p).kind != Semicolon {
      ExpressionNoGrouping(toks, p, errs);
    }
  }

  lemma ForIncrementNoGrouping(toks: seq<Token>, p: nat, errs: seq<Diag>)
    requires p <= |toks|
    ensures var r := ForIncrement(toks, p, errs); r.node.Some? ==> GroupingFree(r.node.value)
  {
    if Cur(toks, p).kind != RightParen {
      ExpressionNoGrouping(toks, p, errs);
    }
  }

  lemma ForHeaderNoGrouping(toks: seq<Token>, p: nat, errs: seq<Diag>)
    requires p <= |toks|
    ensures var c := ForHeader(toks, p, errs).node;
      && (c.initializer.Some? ==> StmtGroupingFree(c.initializer.value))
      && (c.condition.Some? ==> GroupingFree(c.condition.value))
      && (c.increment.Some? ==> GroupingFree(c.increment.value))
  {
    var open := Expect(toks, p, LeftParen, ExpectParenAfterFor, errs);
    var init := ForInitializer(toks, open.pos, open.errs);
    ForInitializerNoGrouping(toks, open.pos, open.errs);
    var cond := ForCondition(toks, init.pos, init.errs);
    ForConditionNoGrouping(toks, init.pos, init.errs);
    ForIncrementNoGrouping(toks, cond.pos, cond.errs);
  }

  /** The `while` form of a `for` adds only a `true` literal, an expression statement and blocks. */
  lemma DesugarNoGrouping(init: Option<Stmt>, cond: Option<Expr>, incr: Option<Expr>, body: Stmt)
    requires init.Some? ==> StmtGroupingFree(init.value)
    requires cond.Some? ==> GroupingFree(cond.value)
    requires incr.Some? ==> GroupingFree(incr.value)
    requires StmtGroupingFree(body)
    ensures StmtGroupingFree(Desugar(init, cond, incr, body))
  {
    var s := Desugar(init, cond, incr, body);
    var loop := if init.Some? then s.statements[1] else s;
    assert GroupingFree(loop.condition);
    if incr.Some? {
      assert forall t <- loop.body.statements :: t == body || t == ExprStmt(incr.value);
    }
    assert StmtGroupingFree(loop);
    if init.Some? {
      assert forall t <- s.statements :: t == init.value || t == loop;
    }
  }

  /** Which production `statement` hands its first token to. */
  lemma StatementDispatch(toks: seq<Token>, p: nat, errs: seq<Diag>)
    requires p <= |toks|
    ensures var k := Cur(toks, p).kind; var r := Statement(toks, p, errs);
      && (k == Print ==> r == PrintStatement(toks, p + 1, errs))
      && (k == LeftBrace ==> r.node == BlockStmt(BlockStatement(toks, p + 1, errs).node))
      && (k == Return ==> r == ReturnStatement(toks, p + 1, errs))
      && (k == For ==> r == ForStatement(toks, p + 1, errs))
      && (k == If ==> r == IfStatement(toks, p + 1, errs))
      && (k == While ==> r == WhileStatement(toks, p + 1, errs))
      && (k !in {Print, LeftBrace, Return, For, If, While} ==> r == ExpressionStatement(toks, p, errs))
  {
  }

  lemma {:induction false} StatementNoGrouping(toks: seq<Token>, p: nat, errs: seq<Diag>)
    requires p <= |toks|
    ensures StmtGroupingFree(Statement(toks, p, errs).node)
    decreases |toks| - p, 14
  {
    var k := Cur(toks, p).kind;
    if k == Print {
      PrintBranchNoGrouping(toks, p, errs);
    } else if k == LeftBrace {
      BlockBranchNoGrouping(toks, p, errs);
    } else if k == Return {
      ReturnBranchNoGrouping(toks, p, errs);
    } else if k == For {
      ForBranchNoGrouping(toks, p, errs);
    } else if k == If {
      IfBranchNoGrouping(toks, p, errs);
    } else if k == While {
      WhileBranchNoGrouping(toks, p, errs);
    } else {
      ExpressionStatementNoGrouping(toks, p, errs);
      StatementDispatch(toks, p, errs);
    }
  }

  // One lemma per keyword branch of `statement`, each seeing only the production it picks.

  lemma {:induction false} PrintBranchNoGrouping(toks: seq<Token>, p: nat, errs: seq<Diag>)
    requires p <= |toks| && Cur(toks, p).kind == Print
    ensures StmtGroupingFree(Statement(toks, p, errs).node)
    decreases |toks| - p, 13
  {
    PrintStatementNoGrouping(toks, p + 1, errs);
    StatementDispatch(toks, p, errs);
  }

  lemma {:induction false} BlockBranchNoGrouping(toks: seq<Token>, p: nat, errs: seq<Diag>)
    requires p <= |toks| && Cur(toks, p).kind == LeftBrace
    ensures StmtGroupingFree(Statement(toks, p, errs).node)
    decreases |toks| - p, 13
  {
    BlockStatementNoGrouping(toks, p + 1, errs);
    StatementDispatch(toks, p, errs);
  }

  lemma {:induction false} ReturnBranchNoGrouping(toks: seq<Token>, p: nat, errs: seq<Diag>)
    requires p <= |toks| && Cur(toks, p).kind == Return
    ensures StmtGroupingFree(Statement(toks, p, errs).node)
    decreases |toks| - p, 13
  {
    ReturnStatementNoGrouping(toks, p + 1, errs);
    StatementDispatch(toks, p, errs);
  }

  lemma {:induction false} ForBranchNoGrouping(toks: seq<Token>, p: nat, errs: seq<Diag>)
    requires p <= |toks| && Cur(toks, p).kind == For
    ensures StmtGroupingFree(Statement(toks, p, errs).node)
    decreases |toks| - p, 13
  {
    ForStatementNoGrouping(toks, p + 1, errs);
    StatementDispatch(toks, p, errs);
  }

  lemma {:induction false} IfBranchNoGrouping(toks: seq<Token>, p: nat, errs: seq<Diag>)
    requires p <= |toks| && Cur(toks, p).kind == If
    ensures StmtGroupingFree(Statement(toks, p, errs).node)
    decreases |toks| - p, 13
  {
    IfStatementNoGrouping(toks, p + 1, errs);
    StatementDispatch(toks, p, errs);
  }

  lemma {:induction false} WhileBranchNoGrouping(toks: seq<Token>, p: nat, errs: seq<Diag>)
    requires p <= |toks| && Cur(toks, p).kind == While
    ensures StmtGroupingFree(Statement(toks, p, errs).node)
    decreases |toks| - p, 13
  {
    WhileStatementNoGrouping(toks, p + 1, errs);
    StatementDispatch(toks, p, errs);
  }

  lemma {:induction false} ForStatementNoGrouping(toks: seq<Token>, p: nat, errs: seq<Diag>)
    requires p <= |toks|
    ensures StmtGroupingFree(ForStatement(toks, p, errs).node)
    decreases |toks| - p, 15
  {
    var header := ForHeader(toks, p, errs);
    ForHeaderNoGrouping(toks, p, errs);
    var body := Statement(toks, header.pos, header.errs);
    StatementNoGrouping(toks, header.pos, header.errs);
    var c := header.node;
    DesugarNoGrouping(c.initializer, c.condition, c.increment, body.node);
  }

  lemma {:induction false} ElseBranchNoGrouping(toks: seq<Token>, p: nat, errs: seq<Diag>, stalled: bool)
    requires p <= |toks|
    ensures var r := ElseBranch(toks, p, errs, stalled); r.node.Some? ==> StmtGroupingFree(r.node.value)
    decreases |toks| - p, 15
  {
    if !stalled && Cur(toks, p).kind == Else {
      StatementNoGrouping(toks, p + 1, errs);
    }
  }

  lemma {:induction false} IfStatementNoGrouping(toks: seq<Token>, p: nat, errs: seq<Diag>)
    requires p <= |toks|
    ensures StmtGroupingFree(IfStatement(toks, p, errs).node)
    decreases |toks| - p, 16
  {
    var open := Expect(toks, p, LeftParen, ExpectParenAfterIf, errs);
    var cond := Expression(toks, open.pos, open.errs);
    ExpressionNoGrouping(toks, open.pos, open.errs);
    var close := Expect(toks, cond.pos, RightParen, ExpectParenAfterIfCondition, cond.errs);
    var thenPart := Statement(toks, close.pos, close.errs);
    StatementNoGrouping(toks, close.pos, close.errs);
    ElseBranchNoGrouping(toks, thenPart.pos, thenPart.errs, thenPart.stalled);
  }

  lemma {:induction false} WhileStatementNoGrouping(toks: seq<Token>, p: nat, errs: seq<Diag>)
    requires p <= |toks|
    ensures StmtGroupingFree(WhileStatement(toks, p, errs).node)
    decreases |toks| - p, 15
  {
    var open := Expect(toks, p, LeftParen, ExpectParenAfterWhile, errs);
    var cond := Expression(toks, open.pos, open.errs);
    ExpressionNoGrouping(toks, open.pos, open.errs);
    var close := Expect(toks, cond.pos, RightParen, ExpectParenAfterWhileCondition, cond.errs);
    StatementNoGrouping(toks, close.pos, close.errs);
  }

  /** Which production `declaration` hands its first token to. */
  lemma DeclarationDispatch(toks: seq<Token>, p: nat, errs: seq<Diag>)
    requires p <= |toks|
    ensures var k := Cur(toks, p).kind; var r := Declaration(toks, p, errs);
      && (k == Var ==> r == VarDeclaration(toks, p + 1, errs))
      && (k == Fun ==> r == FunDeclaration(toks, p + 1, errs))
      && (k != Var && k != Fun ==> r == Statement(toks, p, errs))
  {
  }

  lemma {:induction false} DeclarationNoGrouping(toks: seq<Token>, p: nat, errs: seq<Diag>)
    requires p <= |toks|
    ensures StmtGroupingFree(Declaration(toks, p, errs).node)
    decreases |toks| - p, 17
  {
    var k := Cur(toks, p).kind;
    if k == Var {
      VarBranchNoGrouping(toks, p, errs);
    } else if k == Fun {
      FunBranchNoGrouping(toks, p, errs);
    } else {
      StatementBranchNoGrouping(toks, p, errs);
    }
  }

  // One lemma per branch of `declaration`.

  lemma VarBranchNoGrouping(toks: seq<Token>, p: nat, errs: seq<Diag>)
    requires p <= |toks| && Cur(toks, p).kind == Var
    ensures StmtGroupingFree(Declaration(toks, p, errs).node)
  {
    VarDeclarationNoGrouping(toks, p + 1, errs);
    DeclarationDispatch(toks, p, errs);
  }

  lemma {:induction false} FunBranchNoGrouping(toks: seq<Token>, p: nat, errs: seq<Diag>)
    requires p <= |toks| && Cur(toks, p).kind == Fun
    ensures StmtGroupingFree(Declaration(toks, p, errs).node)
    decreases |toks| - p, 16
  {
    FunDeclarationNoGrouping(toks, p + 1, errs);
    DeclarationDispatch(toks, p, errs);
  }

  lemma {:induction false} StatementBranchNoGrouping(toks: seq<Token>, p: nat, errs: seq<Diag>)
    requires p <= |toks| && Cur(toks, p).kind != Var && Cur(toks, p).kind != Fun
    ensures StmtGroupingFree(Declaration(toks, p, errs).node)
    decreases |toks| - p, 16
  {
    StatementNoGrouping(toks, p, errs);
    DeclarationDispatch(toks, p, errs);
  }

  lemma {:induction false} BlockDeclarationsNoGrouping(toks: seq<Token>, p: nat, errs: seq<Diag>, acc: seq<Stmt>)
    requires p <= |toks| && forall t <- acc :: StmtGroupingFree(t)
    ensures forall t <- BlockDeclarations(toks, p, errs, acc).node :: StmtGroupingFree(t)
    decreases |toks| - p, 19
  {
    var k := Cur(toks, p).kind;
    if k != Eof && k != RightBrace {
      var d := DeclarationStep(toks, p, errs);
      DeclarationNoGrouping(toks, p, errs);
      assert forall t <- acc + [d.node] :: t in acc || t == d.node;
      if !d.stalled {
        BlockDeclarationsNoGrouping(toks, d.pos, d.errs, acc + [d.node]);
      }
    }
  }

  lemma {:induction false} BlockStatementNoGrouping(toks: seq<Token>, p: nat, errs: seq<Diag>)
    requires p <= |toks|
    ensures forall t <- BlockStatement(toks, p, errs).node :: StmtGroupingFree(t)
    decreases |toks| - p, 20
  {
    BlockDeclarationsNoGrouping(toks, p, errs, []);
  }

  lemma {:induction false} FunDeclarationNoGrouping(toks: seq<Token>, p: nat, errs: seq<Diag>)
    requires p <= |toks|
    ensures StmtGroupingFree(FunDeclaration(toks, p, errs).node)
    decreases |toks| - p, 21
  {
    var header := FunHeader(toks, p, errs);
    BlockStatementNoGrouping(toks, header.pos, header.errs);
  }

  // ---------------------------------------------------------------- program

  lemma {:induction false} ParseFromNoGrouping(toks: seq<Token>, p: nat, errs: seq<Diag>, acc: seq<Stmt>)
    requires p <= |toks| && forall t <- acc :: StmtGroupingFree(t)
    ensures forall t <- ParseFrom(toks, p, errs, acc).node :: StmtGroupingFree(t)
    decreases |toks| - p
  {
    if Cur(toks, p).kind != Eof {
      var d := DeclarationStep(toks, p, errs);
      DeclarationNoGrouping(toks, p, errs);
      assert forall t <- acc + [d.node] :: t in acc || t == d.node;
      if !d.stalled {
        ParseFromNoGrouping(toks, d.pos, d.errs, acc + [d.node]);
      }
    }
  }

  /** No statement of a parsed program holds a grouping node, however the tokens are arranged. */
  lemma ParseNoGrouping(toks: seq<Token>)
    ensures forall t <- Parse(toks).node :: StmtGroupingFree(t)
  {
    ParseFromNoGrouping(toks, 0, [], []);
  }
}
