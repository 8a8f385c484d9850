/**
 * Properties of the grammar: the shape of the tree each level of the
 * precedence ladder builds, when each kind of operator node appears, the
 * defaults of the optional parts of statements, and where parsing stalls.
 */
module GrammarFacts {
  import opened Tokens
  import opened Types
  import opened Ast
  import opened Grammar
  import Scanning

  // ---------------------------------------------------------------- tree shapes

  /** What `unary` builds: a unary, call, literal or variable node, never a binary operator. */
  predicate IsOperand(e: Expr)
  {
    e.UnaryExpr? || e.CallExpr? || e.LiteralExpr? || e.VarExpr?
  }

  /** What `factor` builds: operands joined by `*` and `/`, nested to the left. */
  predicate IsProduct(e: Expr)
  {
    IsOperand(e) ||
    (e.BinaryExpr? && (e.op.kind == Slash || e.op.kind == Star) && IsProduct(e.left) && IsOperand(e.right))
  }

  /** What `term` builds: products joined by `-` and `+`, nested to the left. */
  predicate IsSum(e: Expr)
  {
    IsProduct(e) ||
    (e.BinaryExpr? && (e.op.kind == Minus || e.op.kind == Plus) && IsSum(e.left) && IsProduct(e.right))
  }

  /** What `comparison` builds: a sum, or a single Compare node between two sums. */
  predicate IsComparison(e: Expr)
  {
    IsSum(e) || (e.CompExpr? && IsSum(e.left) && IsSum(e.right))
  }

  /** What `equality` builds: a comparison, or a single `==`/`!=` Binary node between two comparisons. */
  predicate IsEquality(e: Expr)
  {
    IsComparison(e) ||
    (e.BinaryExpr? && (e.op.kind == BangEqual || e.op.kind == EqualEqual) && IsComparison(e.left) && IsComparison(e.right))
  }

  /** What `logic_and` builds: an equality, or a single `and` node between two equalities. */
  predicate IsConjunction(e: Expr)
  {
    IsEquality(e) || (e.LogicalExpr? && e.op.kind == And && IsEquality(e.left) && IsEquality(e.right))
  }

  /** What `logic_or` builds: a conjunction, or a single `or` node between two conjunctions. */
  predicate IsDisjunction(e: Expr)
  {
    IsConjunction(e) || (e.LogicalExpr? && e.op.kind == Or && IsConjunction(e.left) && IsConjunction(e.right))
  }

  /** No level below `assignment` builds an assignment node. */
  lemma DisjunctionIsNoAssignment(e: Expr)
    requires IsDisjunction(e)
    ensures !e.AssignExpr?
  {
  }

  /** What `assignment` builds: a disjunction, or assignments nested to the right down to one. */
  predicate IsAssignment(e: Expr)
  {
    IsDisjunction(e) || (e.AssignExpr? && IsAssignment(e.value))
  }

  /** `primary` builds a variable node for an identifier, holding its token, and a literal node otherwise. */
  lemma PrimaryShape(toks: seq<Token>, p: nat, errs: seq<Diag>)
    requires p <= |toks|
    ensures var r := Primary(toks, p, errs);
      (r.node.VarExpr? <==> Cur(toks, p).kind == Identifier) &&
      (r.node.VarExpr? ==> r.node.name == Cur(toks, p)) &&
      (!r.node.VarExpr? ==> r.node.LiteralExpr?)
  {
  }

  /** `e` is `callee` inside zero or more call nodes, each the callee of the next. */
  predicate WrapsCallee(e: Expr, callee: Expr)
  {
    e == callee || (e.CallExpr? && WrapsCallee(e.callee, callee))
  }

  /**
   * The calls of `Call`'s loop wrap the callee: the result is the callee
   * itself exactly when no `(` follows, and otherwise call nodes stacked
   * on it, one per `(`.
   */
  lemma {:induction false} CallSuffixShape(toks: seq<Token>, p: nat, errs: seq<Diag>, callee: Expr)
    requires p <= |toks|
    ensures var r := CallSuffix(toks, p, errs, callee);
      WrapsCallee(r.node, callee) &&
      (Cur(toks, p).kind != LeftParen ==> r.node == callee && r.pos == p) &&
      (Cur(toks, p).kind == LeftParen ==> r.node.CallExpr? && r.pos > p)
    decreases |toks| - p
  {
    if Cur(toks, p).kind == LeftParen {
      var call := FinishCall(toks, p + 1, errs, callee);
      CallSuffixShape(toks, call.pos, call.errs, call.node);
      WrapsCalleeTransitive(CallSuffix(toks, call.pos, call.errs, call.node).node, call.node, callee);
    }
  }

  lemma {:induction false} WrapsCalleeTransitive(a: Expr, b: Expr, c: Expr)
    requires WrapsCallee(a, b) && WrapsCallee(b, c)
    ensures WrapsCallee(a, c)
  {
    if a != b {
      WrapsCalleeTransitive(a.callee, b, c);
    }
  }

  /**
   * The argument loop keeps the arguments parsed before, in order, and puts
   * the expression at `p` right after them; each turn after a comma does the
   * same, so the arguments come out in source order.
   */
  lemma {:induction false} ArgumentsKeepOrder(toks: seq<Token>, p: nat, errs: seq<Diag>, acc: seq<Expr>)
    requires p <= |toks|
    ensures var r := Arguments(toks, p, errs, acc);
      |acc| < |r.node| && r.node[..|acc|] == acc && r.node[|acc|] == Expression(toks, p, errs).node
    decreases |toks| - p
  {
    var e := Expression(toks, p, errs);
    var acc' := acc + [e.node];
    if Cur(toks, e.pos).kind == Comma {
      ArgumentsKeepOrder(toks, e.pos + 1, e.errs, acc');
      var r := Arguments(toks, e.pos + 1, e.errs, acc');
      assert r.node[..|acc|] == r.node[..|acc'|][..|acc|];
    }
  }

  /**
   * The parameter loop keeps the names read before, in order, and puts the
   * name at `p` right after them; each turn after a comma does the same, so
   * the names come out in source order.
   */
  lemma {:induction false} ParametersKeepOrder(toks: seq<Token>, p: nat, errs: seq<Diag>, acc: seq<Token>)
    requires p <= |toks|
    ensures var r := Parameters(toks, p, errs, acc);
      |acc| < |r.node| && r.node[..|acc|] == acc && r.node[|acc|] == Parameter(toks, p, errs).node
    decreases |toks| - p
  {
    var n := Parameter(toks, p, errs);
    var acc' := acc + [n.node];
    if Cur(toks, n.pos).kind == Comma {
      ParametersKeepOrder(toks, n.pos + 1, n.errs, acc');
      var r := Parameters(toks, n.pos + 1, n.errs, acc');
      assert r.node[..|acc|] == r.node[..|acc'|][..|acc|];
    }
  }

  /** `unary` builds an operand: a unary, call, literal or variable node. */
  lemma UnaryShape(toks: seq<Token>, p: nat, errs: seq<Diag>)
    requires p <= |toks|
    ensures IsOperand(Unary(toks, p, errs).node)
  {
    var k := Cur(toks, p).kind;
    if k != Bang && k != Minus {
      var e := Primary(toks, p, errs);
      PrimaryShape(toks, p, errs);
      CallSuffixShape(toks, e.pos, e.errs, e.node);
      assert Unary(toks, p, errs) == CallSuffix(toks, e.pos, e.errs, e.node);
    }
  }

  /**
   * `unary` builds a unary node exactly when `!` or `-` comes first, and
   * that node holds the operator and the unary parsed after it.
   */
  lemma UnaryWrapsOperand(toks: seq<Token>, p: nat, errs: seq<Diag>)
    requires p <= |toks|
    ensures var r := Unary(toks, p, errs);
      (r.node.UnaryExpr? <==> Cur(toks, p).kind in {Bang, Minus}) &&
      (r.node.UnaryExpr? ==> r.node.op == Cur(toks, p) && r.node.right == Unary(toks, p + 1, errs).node)
  {
    var k := Cur(toks, p).kind;
    if k != Bang && k != Minus {
      var e := Primary(toks, p, errs);
      PrimaryShape(toks, p, errs);
      CallSuffixShape(toks, e.pos, e.errs, e.node);
      assert Unary(toks, p, errs) == CallSuffix(toks, e.pos, e.errs, e.node);
    }
  }

  lemma {:induction false} FactorRestShape(toks: seq<Token>, p: nat, errs: seq<Diag>, left: Expr)
    requires p <= |toks| && IsProduct(left)
    ensures IsProduct(FactorRest(toks, p, errs, left).node)
    decreases |toks| - p
  {
    var op := Cur(toks, p);
    if op.kind == Slash || op.kind == Star {
      var right := Unary(toks, p + 1, errs);
      UnaryShape(toks, p + 1, errs);
      FactorRestShape(toks, right.pos, right.errs, BinaryExpr(op, left, right.node));
    }
  }

  /** `*` and `/` bind tighter than anything else binary and nest to the left. */
  lemma FactorShape(toks: seq<Token>, p: nat, errs: seq<Diag>)
    requires p <= |toks|
    ensures IsProduct(Factor(toks, p, errs).node)
  {
    var left := Unary(toks, p, errs);
    UnaryShape(toks, p, errs);
    FactorRestShape(toks, left.pos, left.errs, left.node);
  }

  lemma {:induction false} TermRestShape(toks: seq<Token>, p: nat, errs: seq<Diag>, left: Expr)
    requires p <= |toks| && IsSum(left)
    ensures IsSum(TermRest(toks, p, errs, left).node)
    decreases |toks| - p
  {
    var op := Cur(toks, p);
    if op.kind == Minus || op.kind == Plus {
      var right := Factor(toks, p + 1, errs);
      FactorShape(toks, p + 1, errs);
      TermRestShape(toks, right.pos, right.errs, BinaryExpr(op, left, right.node));
    }
  }

  /** `-` and `+` take products as operands and nest to the left: `a - b - c` is `(a - b) - c`. */
  lemma TermShape(toks: seq<Token>, p: nat, errs: seq<Diag>)
    requires p <= |toks|
    ensures IsSum(Term(toks, p, errs).node)
  {
    var left := Factor(toks, p, errs);
    FactorShape(toks, p, errs);
    TermRestShape(toks, left.pos, left.errs, left.node);
  }

  lemma ComparisonShape(toks: seq<Token>, p: nat, errs: seq<Diag>)
    requires p <= |toks|
    ensures IsComparison(Comparison(toks, p, errs).node)
  {
    var left := Term(toks, p, errs);
    TermShape(toks, p, errs);
    if Cur(toks, left.pos).kind in {Less, LessEqual, Greater, GreaterEqual} {
      TermShape(toks, left.pos + 1, left.errs);
    }
  }

  lemma EqualityShape(toks: seq<Token>, p: nat, errs: seq<Diag>)
    requires p <= |toks|
    ensures IsEquality(Equality(toks, p, errs).node)
  {
    var left := Comparison(toks, p, errs);
    ComparisonShape(toks, p, errs);
    var k := Cur(toks, left.pos).kind;
    if k == BangEqual || k == EqualEqual {
      ComparisonShape(toks, left.pos + 1, left.errs);
    }
  }

  lemma LogicAndShape(toks: seq<Token>, p: nat, errs: seq<Diag>)
    requires p <= |toks|
    ensures IsConjunction(LogicAnd(toks, p, errs).node)
  {
    var left := Equality(toks, p, errs);
    if Cur(toks, left.pos).kind == And {
      ConjunctionJoinShape(toks, p, errs);
    } else {
      EqualityShape(toks, p, errs);
      assert LogicAnd(toks, p, errs) == left;
    }
  }

  /** The `and` branch of `LogicAndShape`. */
  lemma ConjunctionJoinShape(toks: seq<Token>, p: nat, errs: seq<Diag>)
    requires p <= |toks| && Cur(toks, Equality(toks, p, errs).pos).kind == And
    ensures IsConjunction(LogicAnd(toks, p, errs).node)
  {
    LogicAndJoinNode(toks, p, errs);
    EqualitiesConjoin(toks, p, errs);
  }

  /** Two equalities joined by an `and` form a conjunction. */
  lemma EqualitiesConjoin(toks: seq<Token>, p: nat, errs: seq<Diag>)
    requires p <= |toks| && Cur(toks, Equality(toks, p, errs).pos).kind == And
    ensures var left := Equality(toks, p, errs);
      left.pos < |toks| &&
      IsConjunction(LogicalExpr(Cur(toks, left.pos), left.node, Equality(toks, left.pos + 1, left.errs).node))
  {
    var left := Equality(toks, p, errs);
    EqualityShape(toks, p, errs);
    EqualityShape(toks, left.pos + 1, left.errs);
  }

  /** After an `and`, `logic_and` joins the two equalities on either side of it. */
  lemma LogicAndJoinNode(toks: seq<Token>, p: nat, errs: seq<Diag>)
    requires p <= |toks| && Cur(toks, Equality(toks, p, errs).pos).kind == And
    ensures var left := Equality(toks, p, errs);
      left.pos < |toks| &&
      LogicAnd(toks, p, errs).node == LogicalExpr(Cur(toks, left.pos), left.node, Equality(toks, left.pos + 1, left.errs).node)
  {
  }

  lemma LogicOrShape(toks: seq<Token>, p: nat, errs: seq<Diag>)
    requires p <= |toks|
    ensures IsDisjunction(LogicOr(toks, p, errs).node)
  {
    var left := LogicAnd(toks, p, errs);
    LogicAndShape(toks, p, errs);
    if Cur(toks, left.pos).kind == Or {
      LogicAndShape(toks, left.pos + 1, left.errs);
    }
  }

  /** Every expression the parser builds has the shape of the precedence ladder. */
  lemma {:induction false} ExpressionShape(toks: seq<Token>, p: nat, errs: seq<Diag>)
    requires p <= |toks|
    ensures IsAssignment(Expression(toks, p, errs).node)
    decreases |toks| - p
  {
    var left := LogicOr(toks, p, errs);
    LogicOrShape(toks, p, errs);
    if Cur(toks, left.pos).kind == Equal {
      ExpressionShape(toks, left.pos + 1, left.errs);
    }
  }

  // ---------------------------------------------------------------- which node is built

  /** A Compare node is built exactly when a relational operator follows the first operand. */
  lemma ComparisonBuildsCompare(toks: seq<Token>, p: nat, errs: seq<Diag>)
    requires p <= |toks|
    ensures var left := Term(toks, p, errs);
      Comparison(toks, p, errs).node.CompExpr? <==> Cur(toks, left.pos).kind in {Less, LessEqual, Greater, GreaterEqual}
  {
    TermShape(toks, p, errs);
  }

  /** `==` and `!=` build a Binary node, exactly when one follows the first operand. */
  lemma EqualityBuildsBinary(toks: seq<Token>, p: nat, errs: seq<Diag>)
    requires p <= |toks|
    ensures var left := Comparison(toks, p, errs);
      var e := Equality(toks, p, errs).node;
      (e.BinaryExpr? && (e.op.kind == BangEqual || e.op.kind == EqualEqual)) <==>
      (Cur(toks, left.pos).kind == BangEqual || Cur(toks, left.pos).kind == EqualEqual)
  {
    ComparisonShape(toks, p, errs);
  }

  /** An `and` node is built exactly when `and` follows the first operand. */
  lemma LogicAndBuildsLogical(toks: seq<Token>, p: nat, errs: seq<Diag>)
    requires p <= |toks|
    ensures var left := Equality(toks, p, errs);
      LogicAnd(toks, p, errs).node.LogicalExpr? <==> Cur(toks, left.pos).kind == And
  {
    EqualityShape(toks, p, errs);
  }

  /** An `or` node is built exactly when `or` follows the first operand. */
  lemma LogicOrBuildsLogical(toks: seq<Token>, p: nat, errs: seq<Diag>)
    requires p <= |toks|
    ensures var left := LogicAnd(toks, p, errs);
      var e := LogicOr(toks, p, errs).node;
      (e.LogicalExpr? && e.op.kind == Or) <==> Cur(toks, left.pos).kind == Or
  {
    LogicAndShape(toks, p, errs);
  }

  /** An Assign node is built exactly when `=` follows a variable. */
  lemma AssignmentBuildsAssign(toks: seq<Token>, p: nat, errs: seq<Diag>)
    requires p <= |toks|
    ensures var left := LogicOr(toks, p, errs);
      Assignment(toks, p, errs).node.AssignExpr? <==> Cur(toks, left.pos).kind == Equal && left.node.VarExpr?
  {
    var left := LogicOr(toks, p, errs);
    LogicOrShape(toks, p, errs);
    DisjunctionIsNoAssignment(left.node);
  }

  /**
   * After any other target than a variable, the value is parsed and dropped,
   * the target is kept and one "Invalid target assignment" diagnostic points
   * at the `=`.
   */
  lemma AssignmentRejectsTarget(toks: seq<Token>, p: nat, errs: seq<Diag>)
    requires p <= |toks|
    ensures var left := LogicOr(toks, p, errs);
      Cur(toks, left.pos).kind == Equal && !left.node.VarExpr? ==>
        var value := Assignment(toks, left.pos + 1, left.errs);
        Assignment(toks, p, errs) ==
          Parsed(left.node, value.pos, value.errs + [DiagAt(Cur(toks, left.pos), InvalidTarget)], false)
  {
  }

  // ---------------------------------------------------------------- tokens no expression starts with

  /**
   * Kinds that neither start an expression nor continue one: `primary` has
   * no case for them (not even `nil`) and no operator loop or `=` matches
   * them.
   */
  predicate Stray(k: TokenType)
  {
    k in {RightParen, RightBrace, Comma, Dot, Nil, Error, Class, Else, Super, This}
  }

  /** The nil literal an expression is on a stray token at `p`, with the diagnostic `primary` asks for. */
  function Rejected(toks: seq<Token>, p: nat, errs: seq<Diag>): (r: Parsed<Expr>)
    ensures r.node == NilLiteral() && r.pos == p && !r.stalled
  {
    Parsed(NilLiteral(), p, errs + [DiagAt(Cur(toks, p), InvalidLiteral)], false)
  }

  /** On a stray token `unary` and `factor` consume nothing and yield nil. */
  lemma FactorRejectsStray(toks: seq<Token>, p: nat, errs: seq<Diag>)
    requires p <= |toks| && Stray(Cur(toks, p).kind)
    ensures Factor(toks, p, errs) == Rejected(toks, p, errs)
  {
    var nil := Rejected(toks, p, errs);
    assert Primary(toks, p, errs) == nil;
    assert CallSuffix(toks, p, nil.errs, nil.node) == nil;
    assert Unary(toks, p, errs) == nil;
    assert FactorRest(toks, p, nil.errs, nil.node) == nil;
  }

  /** On a stray token `term` and `comparison` consume nothing and yield nil. */
  lemma ComparisonRejectsStray(toks: seq<Token>, p: nat, errs: seq<Diag>)
    requires p <= |toks| && Stray(Cur(toks, p).kind)
    ensures Comparison(toks, p, errs) == Rejected(toks, p, errs)
  {
    var nil := Rejected(toks, p, errs);
    FactorRejectsStray(toks, p, errs);
    assert TermRest(toks, p, nil.errs, nil.node) == nil;
    assert Term(toks, p, errs) == nil;
  }

  /**
   * On a stray token an expression consumes nothing: it is a nil literal,
   * with one "Invalid literal token." diagnostic at that token.
   */
  lemma ExpressionRejectsStray(toks: seq<Token>, p: nat, errs: seq<Diag>)
    requires p <= |toks| && Stray(Cur(toks, p).kind)
    ensures Expression(toks, p, errs) == Rejected(toks, p, errs)
  {
    var nil := Rejected(toks, p, errs);
    ComparisonRejectsStray(toks, p, errs);
    assert Equality(toks, p, errs) == nil;
    assert LogicAnd(toks, p, errs) == nil;
    assert LogicOr(toks, p, errs) == nil;
  }

  /**
   * A declaration that starts with a stray token consumes nothing: it is an
   * expression statement on nil with two diagnostics, and the declaration
   * loop of a block or of the program would repeat it forever, so it stalls.
   */
  lemma DeclarationStallsOnStray(toks: seq<Token>, p: nat, errs: seq<Diag>)
    requires p <= |toks| && Stray(Cur(toks, p).kind)
    ensures var t := Cur(toks, p);
      DeclarationStep(toks, p, errs) ==
      Parsed(ExprStmt(NilLiteral()), p, errs + [DiagAt(t, InvalidLiteral), DiagAt(t, ExpectSemicolonAfterStatement)], true)
  {
    ExpressionRejectsStray(toks, p, errs);
    assert Statement(toks, p, errs) == ExpressionStatement(toks, p, errs);
  }

  /**
   * A program that starts with a stray token, such as `nil;` or `)`, stalls
   * at once: the source's `Parse` never returns on it.
   */
  lemma ParseStallsOnStray(toks: seq<Token>)
    requires Stray(Cur(toks, 0).kind)
    ensures var t := Cur(toks, 0);
      Parse(toks) ==
      Parsed([ExprStmt(NilLiteral())], 0, [DiagAt(t, InvalidLiteral), DiagAt(t, ExpectSemicolonAfterStatement)], true)
  {
    DeclarationStallsOnStray(toks, 0, []);
    assert [] + [ExprStmt(NilLiteral())] == [ExprStmt(NilLiteral())];
  }

  /** The spellings the conversion accepts are those whose first character is one of the ten digits. */
  lemma DigitSpellings(s: string)
    ensures StartsWithDigit(s) <==> |s| > 0 && s[0] in "0123456789"
  {
  }

  /**
   * Every number token the scanner makes starts with a digit, so the
   * conversion in `primary` never fails on scanned input.
   */
  lemma ScannedNumbersConvert(text: string, start: nat, line: nat)
    requires start < |text| && Scanning.IsDigit(text[start])
    ensures var t := Scanning.TokenAt(text, start, line).token;
      t.kind == Number && StartsWithDigit(t.lexeme)
  {
    var t := Scanning.TokenAt(text, start, line).token;
    assert t.lexeme[0] == text[start];
  }

  // ---------------------------------------------------------------- statements

  /** `var x;` declares `x` with a nil initializer. */
  lemma VarWithoutInitializer(toks: seq<Token>, p: nat, errs: seq<Diag>)
    requires p + 1 < |toks| && toks[p].kind == Identifier && toks[p + 1].kind == Semicolon
    ensures VarDeclaration(toks, p, errs) == Parsed(VarStmt(toks[p], NilLiteral()), p + 2, errs, false)
  {
  }

  /** `return;` returns nil and keeps its `return` keyword. */
  lemma ReturnWithoutValue(toks: seq<Token>, p: nat, errs: seq<Diag>)
    requires p < |toks| && toks[p].kind == Semicolon
    ensures ReturnStatement(toks, p, errs) == Parsed(ReturnStmt(Prev(toks, p), NilLiteral()), p + 1, errs, false)
  {
  }

  /** `for (;;) body` is `while (true) body`: no block around it and nothing after the body. */
  lemma ForWithoutClauses(toks: seq<Token>, p: nat, errs: seq<Diag>)
    requires p + 3 < |toks|
    requires toks[p].kind == LeftParen && toks[p + 1].kind == Semicolon
    requires toks[p + 2].kind == Semicolon && toks[p + 3].kind == RightParen
    ensures var body := Statement(toks, p + 4, errs);
      ForStatement(toks, p, errs) ==
      Parsed(WhileStmt(LiteralExpr(LoxBool(true)), body.node), body.pos, body.errs, body.stalled)
  {
    assert ForHeader(toks, p, errs) == Parsed(ForClauses(None, None, None), p + 4, errs, false);
  }

  /**
   * `for (init; cond; incr) body` is `{ init; while (cond) { body; incr; } }`:
   * the three clauses keep their order and the increment runs after the body.
   */
  lemma ForWithAllClauses(toks: seq<Token>, p: nat, errs: seq<Diag>)
    requires p < |toks| && toks[p].kind == LeftParen
    requires var init := ForInitializer(toks, p + 1, errs);
      Cur(toks, p + 1).kind != Semicolon && Cur(toks, init.pos).kind != Semicolon &&
      var cond := ForCondition(toks, init.pos, init.errs);
      Cur(toks, cond.pos).kind != RightParen
    ensures var init := ForInitializer(toks, p + 1, errs);
      var cond := ForCondition(toks, init.pos, init.errs);
      var incr := ForIncrement(toks, cond.pos, cond.errs);
      var body := Statement(toks, incr.pos, incr.errs);
      var r := ForStatement(toks, p, errs);
      r.node == BlockStmt([init.node.value, WhileStmt(cond.node.value, BlockStmt([body.node, ExprStmt(incr.node.value)]))]) &&
      r.pos == body.pos && r.errs == body.errs && r.stalled == body.stalled
  {
  }

  // ---------------------------------------------------------------- the declaration loops

  /**
   * The program's loop keeps the declarations parsed before, in order, and
   * puts the one at `p` right after them.
   */
  lemma {:induction false} ParseFromKeepsOrder(toks: seq<Token>, p: nat, errs: seq<Diag>, acc: seq<Stmt>)
    requires p <= |toks|
    ensures var r := ParseFrom(toks, p, errs, acc);
      |acc| <= |r.node| && r.node[..|acc|] == acc &&
      (Cur(toks, p).kind != Eof ==> |acc| < |r.node| && r.node[|acc|] == DeclarationStep(toks, p, errs).node)
    decreases |toks| - p
  {
    if Cur(toks, p).kind != Eof {
      var d := DeclarationStep(toks, p, errs);
      var acc' := acc + [d.node];
      if !d.stalled {
        ParseFromKeepsOrder(toks, d.pos, d.errs, acc');
        var r := ParseFrom(toks, d.pos, d.errs, acc');
        assert r.node[..|acc|] == r.node[..|acc'|][..|acc|];
      }
    }
  }

  /**
   * A block's loop keeps the declarations parsed before, in order, and puts
   * the one at `p` right after them unless `p` holds `}` or Eof.
   */
  lemma {:induction false} BlockDeclarationsKeepOrder(toks: seq<Token>, p: nat, errs: seq<Diag>, acc: seq<Stmt>)
    requires p <= |toks|
    ensures var r := BlockDeclarations(toks, p, errs, acc);
      |acc| <= |r.node| && r.node[..|acc|] == acc &&
      (Cur(toks, p).kind !in {Eof, RightBrace} ==> |acc| < |r.node| && r.node[|acc|] == DeclarationStep(toks, p, errs).node)
    decreases |toks| - p
  {
    var k := Cur(toks, p).kind;
    if k != Eof && k != RightBrace {
      var d := DeclarationStep(toks, p, errs);
      var acc' := acc + [d.node];
      if !d.stalled {
        var r := BlockDeclarations(toks, d.pos, d.errs, acc');
        assert BlockDeclarations(toks, p, errs, acc) == r;
        BlockDeclarationsKeepOrder(toks, d.pos, d.errs, acc');
        assert r.node[..|acc|] == r.node[..|acc'|][..|acc|];
      } else {
        assert BlockDeclarations(toks, p, errs, acc).node == acc';
      }
    }
  }

  /**
   * A block that does not stall ends just after its `}`, or at Eof with an
   * "Expect '}' after block." diagnostic.
   */
  lemma BlockEndsAtBrace(toks: seq<Token>, p: nat, errs: seq<Diag>)
    requires p <= |toks|
    ensures var body := BlockDeclarations(toks, p, errs, []);
      var r := BlockStatement(toks, p, errs);
      !r.stalled ==>
        r.node == body.node &&
        ((Cur(toks, body.pos).kind == RightBrace && r.pos == body.pos + 1 && r.errs == body.errs) ||
         (Cur(toks, body.pos).kind == Eof && r.pos == body.pos &&
          r.errs == body.errs + [DiagAt(Cur(toks, body.pos), ExpectBraceAfterBlock)]))
  {
  }

  /**
   * Every declaration the loop of `Parse` reaches from `p` consumes at least
   * one token and does not stall: follow the declarations from `p`, each one
   * starting where the previous one ended, until Eof.
   */
  predicate ReachedDeclarationsProgress(toks: seq<Token>, p: nat, errs: seq<Diag>)
    requires p <= |toks|
    decreases |toks| - p
  {
    Cur(toks, p).kind == Eof ||
    (var d := Declaration(toks, p, errs);
     p < d.pos && !d.stalled && ReachedDeclarationsProgress(toks, d.pos, d.errs))
  }

  /**
   * The loop of `Parse` stalls exactly when one of the declarations it
   * reaches consumes nothing or stalls; otherwise it runs to Eof.
   */
  lemma {:induction false} ParseFromCompletes(toks: seq<Token>, p: nat, errs: seq<Diag>, acc: seq<Stmt>)
    requires p <= |toks|
    ensures var r := ParseFrom(toks, p, errs, acc);
      (!r.stalled <==> ReachedDeclarationsProgress(toks, p, errs)) &&
      (!r.stalled ==> Cur(toks, r.pos).kind == Eof)
    decreases |toks| - p
  {
    if Cur(toks, p).kind != Eof {
      var d := DeclarationStep(toks, p, errs);
      if !d.stalled {
        ParseFromCompletes(toks, d.pos, d.errs, acc + [d.node]);
      }
    }
  }

  /**
   * A whole parse stalls exactly when some declaration it reaches consumes
   * nothing: when none does, the loop of the source's `Parse` ends at Eof.
   */
  lemma ParseCompletes(toks: seq<Token>)
    ensures !Parse(toks).stalled <==> ReachedDeclarationsProgress(toks, 0, [])
    ensures !Parse(toks).stalled ==> Cur(toks, Parse(toks).pos).kind == Eof
  {
    ParseFromCompletes(toks, 0, [], []);
  }

  /** The tokens `f ( )` followed by `;` form one call of `f` with no arguments, ending before the `;`. */
  lemma CallWithoutArguments(toks: seq<Token>)
    requires |toks| >= 4 && toks[0].kind == Identifier && toks[1].kind == LeftParen
    requires toks[2].kind == RightParen && toks[3].kind == Semicolon
    ensures Expression(toks, 0, []) == Parsed(CallExpr(toks[2], VarExpr(toks[0]), []), 3, [], false)
  {
    var call := Parsed(CallExpr(toks[2], VarExpr(toks[0]), []), 3, [], false);
    assert Primary(toks, 0, []) == Parsed(VarExpr(toks[0]), 1, [], false);
    assert ArgumentList(toks, 2, []) == Parsed([], 2, [], false);
    assert FinishCall(toks, 2, [], VarExpr(toks[0])) == call;
    assert CallSuffix(toks, 3, [], call.node) == call;
    assert Call(toks, 0, []) == call;
    assert Unary(toks, 0, []) == call;
    assert Factor(toks, 0, []) == call;
    assert Term(toks, 0, []) == call;
    assert Comparison(toks, 0, []) == call;
    assert Equality(toks, 0, []) == call;
    assert LogicAnd(toks, 0, []) == call;
    assert LogicOr(toks, 0, []) == call;
  }

  /**
   * `f();` parses completely: one expression statement holding a call of
   * `f` with no arguments, and no diagnostic.
   */
  lemma CallStatementParses(f: Token, open: Token, close: Token, semi: Token, eof: Token)
    requires f.kind == Identifier && open.kind == LeftParen && close.kind == RightParen
    requires semi.kind == Semicolon && eof.kind == Eof
    ensures var toks := [f, open, close, semi, eof];
      ReachedDeclarationsProgress(toks, 0, []) &&
      Parse(toks) == Parsed([ExprStmt(CallExpr(close, VarExpr(f), []))], 4, [], false)
  {
    var toks := [f, open, close, semi, eof];
    CallWithoutArguments(toks);
    var stmt := Parsed(ExprStmt(CallExpr(close, VarExpr(f), [])), 4, [], false);
    assert Declaration(toks, 0, []) == stmt;
    assert DeclarationStep(toks, 0, []) == stmt;
    assert [] + [stmt.node] == [stmt.node];
    assert ParseFrom(toks, 4, [], [stmt.node]) == Parsed([stmt.node], 4, [], false);
    ParseCompletes(toks);
  }
}
