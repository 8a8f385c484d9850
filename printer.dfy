/**
 * The AST printer: a tree-to-text rendering of expressions and statements.
 *
 * The cases that are a single expression are the functions `ShowExpr`,
 * `ShowStmt` and `ShowBlock`; the cases that fill a string stream step by
 * step (a block, a function declaration, an if statement) are the methods
 * `VisitBlock`, `VisitFun` and `VisitIf`, each proved to produce what the
 * functions say. Rendering a call expression is not part of this model, so
 * the functions ask for call-free trees.
 */
module Printing {
  import opened Tokens
  import opened Types
  import opened Ast

  // ---------------------------------------------------------------- fixed texts

  const Open: string := "("
  const Close: string := ")"
  const Space: string := " "
  const TwoSpaces: string := "  "
  const Newline: string := "\n"
  const Assigns: string := " = "
  const VarKeyword: string := "var "
  const GroupName: string := "group"
  const PrintName: string := "Print"
  const ReturnName: string := "Return"
  const TrueText: string := "true"
  const FalseText: string := "false"
  const Separator: string := ", "
  const BodyHeader: string := ")\nBody:\n"
  const IfOpen: string := "if ("
  const ThenOpen: string := ") then {\n"
  const ElseOpen: string := "else {\n"
  const BraceClose: string := "}\n"
  const WhileOpen: string := "while ("
  const LoopOpen: string := ") {\n"

  // ---------------------------------------------------------------- call-free trees

  /** The expression holds no call node. */
  predicate CallFree(e: Expr)
  {
    match e
    case BinaryExpr(_, l, r) => CallFree(l) && CallFree(r)
    case UnaryExpr(_, r) => CallFree(r)
    case LiteralExpr(_) => true
    case GroupingExpr(inner) => CallFree(inner)
    case AssignExpr(_, v) => CallFree(v)
    case VarExpr(_) => true
    case LogicalExpr(_, l, r) => CallFree(l) && CallFree(r)
    case CallExpr(_, _, _) => false
    case CompExpr(_, l, r) => CallFree(l) && CallFree(r)
  }

  /** No expression inside the statement holds a call node. */
  predicate StmtCallFree(s: Stmt)
  {
    match s
    case ExprStmt(e) => CallFree(e)
    case PrintStmt(e) => CallFree(e)
    case VarStmt(_, init) => CallFree(init)
    case BlockStmt(ss) => forall t <- ss :: StmtCallFree(t)
    case FunStmt(_, _, body) => forall t <- body :: StmtCallFree(t)
    case ReturnStmt(_, v) => CallFree(v)
    case IfStmt(c, t, e) => CallFree(c) && StmtCallFree(t) && (e.Some? ==> StmtCallFree(e.value))
    case WhileStmt(c, b) => CallFree(c) && StmtCallFree(b)
  }

  // ---------------------------------------------------------------- the renderings

  /** A literal: nil as "nil", a string verbatim, a number as its spelling, a boolean as its name. */
  function LiteralText(l: Literal): (s: string)
    ensures l.LoxNil? ==> s == NilText
    ensures l.LoxBool? ==> (s == TrueText <==> l.value)
  {
    match l
    case LoxNil => NilText
    case LoxString(text) => text
    case LoxNumber(spelling) => spelling
    case LoxBool(b) => if b then TrueText else FalseText
  }

  /** `Parenthesize(name, n)`: the name and one operand inside one pair of parentheses. */
  function Parenthesize(name: string, inner: string): (s: string)
    ensures |s| == |name| + |inner| + 3 && s[0] == '(' && s[|s| - 1] == ')'
    ensures s[1..1 + |name|] == name && s[2 + |name|..|s| - 1] == inner
  {
    Open + name + Space + inner + Close
  }

  /** `Parenthesize(name, n1, n2)`: two operands, separated by two spaces. */
  function Parenthesize2(name: string, left: string, right: string): (s: string)
    ensures |s| == |name| + |left| + |right| + 5 && s[0] == '(' && s[|s| - 1] == ')'
    ensures s[1..1 + |name|] == name && s[2 + |name|..2 + |name| + |left|] == left
    ensures s[4 + |name| + |left|..|s| - 1] == right
  {
    Open + name + Space + left + TwoSpaces + right + Close
  }

  /**
   * `Visit(ExprNode)`: the rendering of an expression. Operators and
   * groupings are wrapped in one pair of parentheses; an assignment starts
   * with the target's name and ends with a newline.
   */
  function ShowExpr(e: Expr): (s: string)
    requires CallFree(e)
    ensures (e.BinaryExpr? || e.UnaryExpr? || e.GroupingExpr? || e.LogicalExpr? || e.CompExpr?) ==>
      |s| >= 2 && s[0] == '(' && s[|s| - 1] == ')'
    ensures e.AssignExpr? ==> e.name.lexeme <= s && |s| > 0 && s[|s| - 1] == '\n'
    ensures e.VarExpr? ==> s == e.name.lexeme
  {
    match e
    case BinaryExpr(op, l, r) => Parenthesize2(op.lexeme, ShowExpr(l), ShowExpr(r))
    case UnaryExpr(op, r) => Parenthesize(op.lexeme, ShowExpr(r))
    case LiteralExpr(l) => LiteralText(l)
    case GroupingExpr(inner) => Parenthesize(GroupName, ShowExpr(inner))
    case AssignExpr(name, v) => name.lexeme + Assigns + ShowExpr(v) + Newline
    case VarExpr(name) => name.lexeme
    case LogicalExpr(op, l, r) => Parenthesize2(op.lexeme, ShowExpr(l), ShowExpr(r))
    case CompExpr(op, l, r) => Parenthesize2(op.lexeme, ShowExpr(l), ShowExpr(r))
  }

  /** The parameter names separated by ", ", with nothing after the last one. */
  function ParamList(ps: seq<Token>): (s: string)
    ensures |ps| > 0 ==> ps[0].lexeme <= s
    ensures |ps| > 0 ==> |ps[|ps| - 1].lexeme| <= |s| && s[|s| - |ps[|ps| - 1].lexeme|..] == ps[|ps| - 1].lexeme
  {
    if |ps| == 0 then []
    else if |ps| == 1 then ps[0].lexeme
    else ParamList(ps[..|ps| - 1]) + Separator + ps[|ps| - 1].lexeme
  }

  /**
   * `Visit(StmtNode)`: the rendering of a statement. Print and return are
   * parenthesised; a variable declaration starts with "var "; a function
   * starts with its name and "("; an if or a while ends with "}" and a newline.
   */
  function ShowStmt(s: Stmt): (r: string)
    requires StmtCallFree(s)
    ensures (s.PrintStmt? || s.ReturnStmt?) ==> |r| >= 2 && r[0] == '(' && r[|r| - 1] == ')'
    ensures s.VarStmt? ==> VarKeyword + s.name.lexeme <= r
    ensures s.FunStmt? ==> s.name.lexeme + Open <= r
    ensures (s.IfStmt? || s.WhileStmt?) ==> |r| >= 2 && r[|r| - 2..] == BraceClose
    decreases s, 1
  {
    match s
    case ExprStmt(e) => ShowExpr(e)
    case PrintStmt(e) => Parenthesize(PrintName, ShowExpr(e))
    case VarStmt(name, init) => VarKeyword + name.lexeme + Assigns + ShowExpr(init) + Newline
    case BlockStmt(ss) => ShowBlock(ss)
    case FunStmt(name, ps, body) => name.lexeme + Open + ParamList(ps) + BodyHeader + ShowBlock(body)
    case ReturnStmt(_, v) => Parenthesize(ReturnName, ShowExpr(v))
    case IfStmt(c, t, e) =>
      var head := IfOpen + ShowExpr(c) + ThenOpen + ShowStmt(t) + BraceClose;
      if e.Some? then head + ElseOpen + ShowStmt(e.value) + BraceClose else head
    case WhileStmt(c, b) => WhileOpen + ShowExpr(c) + LoopOpen + ShowStmt(b) + BraceClose
  }

  /** The block case: each statement's rendering followed by a newline, in order. */
  function ShowBlock(ss: seq<Stmt>): (r: string)
    requires forall t <- ss :: StmtCallFree(t)
    ensures r == [] <==> ss == []
    ensures |ss| <= |r|
    decreases ss, 0
  {
    if |ss| == 0 then [] else ShowStmt(ss[0]) + Newline + ShowBlock(ss[1..])
  }

  // ---------------------------------------------------------------- the string stream

  /**
   * A `std::stringstream` used for output. Its buffer is split at the put
   * position: `written` lies before it and `ahead` after it. Writing
   * overwrites `ahead` from its start and grows the buffer once `ahead` is
   * used up; `str()` is the whole buffer.
   */
  class StringStream {
    var written: string
    var ahead: string

    constructor()
      ensures written == [] && ahead == []
    {
      written := [];
      ahead := [];
    }

    /** `ss.str()`. */
    function Str(): (s: string)
      reads this
      ensures |s| == |written| + |ahead| && s[..|written|] == written
    {
      written + ahead
    }

    /** `ss << s`: the put position moves past `s`, which replaces as many characters as it covers. */
    method Write(s: string)
      modifies this
      ensures written == old(written) + s
      ensures ahead == if |s| < |old(ahead)| then old(ahead)[|s|..] else []
    {
      written := written + s;
      ahead := if |s| < |ahead| then ahead[|s|..] else [];
    }

    /** `ss.seekp(-n, ss.cur)`: moves the put position back `n` characters; the buffer is unchanged. */
    method SeekBack(n: nat)
      requires n <= |written|
      modifies this
      ensures Str() == old(Str())
      ensures written == old(written)[..|old(written)| - n]
    {
      ahead := written[|written| - n..] + ahead;
      written := written[..|written| - n];
    }
  }

  // ---------------------------------------------------------------- the stream cases

  /** The block case: writes each statement and a newline, in order. */
  method VisitBlock(stmts: seq<Stmt>) returns (out: string)
    requires forall t <- stmts :: StmtCallFree(t)
    ensures out == ShowBlock(stmts)
  {
    var ss := new StringStream();
    for i := 0 to |stmts|
      invariant ss.ahead == [] && ss.written == ShowBlock(stmts[..i])
    {
      ShowBlockAppend(stmts[..i], [stmts[i]]);
      assert stmts[..i + 1] == stmts[..i] + [stmts[i]];
      ss.Write(ShowStmt(stmts[i]));
      ss.Write(Newline);
    }
    assert stmts[..|stmts|] == stmts;
    out := ss.Str();
  }

  /** The parameter names each followed by ", ": what the function case's loop writes. */
  function TrailingCommas(ps: seq<Token>): string
  {
    if |ps| == 0 then [] else TrailingCommas(ps[..|ps| - 1]) + ps[|ps| - 1].lexeme + Separator
  }

  /**
   * The function case: writes every parameter followed by ", ", then, when
   * there was at least one, moves back over the last ", " so that the
   * closing text overwrites it.
   */
  method VisitFun(name: Token, parameters: seq<Token>, body: seq<Stmt>) returns (out: string)
    requires forall t <- body :: StmtCallFree(t)
    ensures out == ShowStmt(FunStmt(name, parameters, body))
  {
    ghost var head := name.lexeme + Open;
    var ss := new StringStream();
    ss.Write(name.lexeme);
    ss.Write(Open);
    WriteParameters(ss, parameters);
    if |parameters| != 0 {
      TrailingCommasJoin(parameters);
      ss.SeekBack(2);
    }
    assert ss.written == head + ParamList(parameters) && |ss.ahead| <= 2;
    ss.Write(BodyHeader);
    assert ss.written == head + ParamList(parameters) + BodyHeader && ss.ahead == [];
    var shown := VisitBlock(body);
    ss.Write(shown);
    out := ss.written;
  }

  /** The loop of the function case: each parameter name followed by ", ". */
  method WriteParameters(ss: StringStream, parameters: seq<Token>)
    requires ss.ahead == []
    modifies ss
    ensures ss.ahead == [] && ss.written == old(ss.written) + TrailingCommas(parameters)
  {
    ghost var head := ss.written;
    for i := 0 to |parameters|
      invariant ss.ahead == [] && ss.written == head + TrailingCommas(parameters[..i])
    {
      assert parameters[..i + 1][..i] == parameters[..i];
      ss.Write(parameters[i].lexeme);
      ss.Write(Separator);
    }
    assert parameters[..|parameters|] == parameters;
  }

  /** The if case: the else part is written only when there is an else branch. */
  method VisitIf(condition: Expr, thenBranch: Stmt, elseBranch: Option<Stmt>) returns (out: string)
    requires StmtCallFree(IfStmt(condition, thenBranch, elseBranch))
    ensures out == ShowStmt(IfStmt(condition, thenBranch, elseBranch))
  {
    var c := ShowExpr(condition);
    var t := ShowStmt(thenBranch);
    var ss := new StringStream();
    ss.Write(IfOpen);
    ss.Write(c);
    ss.Write(ThenOpen);
    ss.Write(t);
    ss.Write(BraceClose);
    ghost var head := IfOpen + c + ThenOpen + t + BraceClose;
    assert ss.written == head && ss.ahead == [];
    if elseBranch.Some? {
      var other := ShowStmt(elseBranch.value);
      ss.Write(ElseOpen);
      ss.Write(other);
      ss.Write(BraceClose);
      assert ss.written == head + ElseOpen + other + BraceClose;
    }
    out := ss.written;
  }

  // ---------------------------------------------------------------- properties

  /** Rendering a block is rendering its two halves one after the other. */
  lemma {:induction false} ShowBlockAppend(a: seq<Stmt>, b: seq<Stmt>)
    requires forall t <- a :: StmtCallFree(t)
    requires forall t <- b :: StmtCallFree(t)
    ensures ShowBlock(a + b) == ShowBlock(a) + ShowBlock(b)
    decreases |a|
  {
    if |a| == 0 {
      assert a + b == b;
    } else {
      assert (a + b)[0] == a[0];
      assert (a + b)[1..] == a[1..] + b;
      ShowBlockAppend(a[1..], b);
      AppendAssociates(ShowStmt(a[0]) + Newline, ShowBlock(a[1..]), ShowBlock(b));
    }
  }

  lemma AppendAssociates(x: string, y: string, z: string)
    ensures x + (y + z) == (x + y) + z
  {
  }

  /** After at least one parameter, the trailing-comma text is the list and one ", " more. */
  lemma {:induction false} TrailingCommasJoin(ps: seq<Token>)
    requires |ps| != 0
    ensures TrailingCommas(ps) == ParamList(ps) + Separator
    decreases |ps|
  {
    if |ps| > 1 {
      TrailingCommasJoin(ps[..|ps| - 1]);
    }
  }

  /**
   * With names that hold no comma, the list of `n` parameters holds exactly
   * `n - 1` commas: there is no trailing separator, and none for zero
   * parameters.
   */
  lemma {:induction false} ParamListCommas(ps: seq<Token>)
    requires forall p <- ps :: ',' !in p.lexeme
    ensures multiset(ParamList(ps))[','] == if |ps| == 0 then 0 else |ps| - 1
    decreases |ps|
  {
    if |ps| > 1 {
      ParamListCommas(ps[..|ps| - 1]);
    }
  }

  /** A function with no parameters renders as its name followed by "()". */
  lemma NoParameters(name: Token, body: seq<Stmt>)
    requires forall t <- body :: StmtCallFree(t)
    ensures ShowStmt(FunStmt(name, [], body)) == name.lexeme + "()\nBody:\n" + ShowBlock(body)
  {
  }

  /** The else part appears exactly when there is an else branch, after the then part. */
  lemma ElseOnlyWhenPresent(c: Expr, t: Stmt, e: Stmt)
    requires CallFree(c) && StmtCallFree(t) && StmtCallFree(e)
    ensures ShowStmt(IfStmt(c, t, Some(e))) == ShowStmt(IfStmt(c, t, None)) + ElseOpen + ShowStmt(e) + BraceClose
    ensures |ShowStmt(IfStmt(c, t, None))| < |ShowStmt(IfStmt(c, t, Some(e)))|
  {
  }

  /** Neither parenthesis occurs in `s`. */
  predicate Plain(s: string)
  {
    multiset(s)['('] == 0 && multiset(s)[')'] == 0
  }

  /** Every operator, literal and name in the expression is free of parentheses. */
  predicate ParenFree(e: Expr)
  {
    match e
    case BinaryExpr(op, l, r) => Plain(op.lexeme) && ParenFree(l) && ParenFree(r)
    case UnaryExpr(op, r) => Plain(op.lexeme) && ParenFree(r)
    case LiteralExpr(l) => Plain(LiteralText(l))
    case GroupingExpr(inner) => ParenFree(inner)
    case AssignExpr(name, v) => Plain(name.lexeme) && ParenFree(v)
    case VarExpr(name) => Plain(name.lexeme)
    case LogicalExpr(op, l, r) => Plain(op.lexeme) && ParenFree(l) && ParenFree(r)
    case CallExpr(_, _, _) => false
    case CompExpr(op, l, r) => Plain(op.lexeme) && ParenFree(l) && ParenFree(r)
  }

  /** The number of nodes rendered through `Parenthesize`. */
  function Operators(e: Expr): nat
  {
    match e
    case BinaryExpr(_, l, r) => 1 + Operators(l) + Operators(r)
    case UnaryExpr(_, r) => 1 + Operators(r)
    case LiteralExpr(_) => 0
    case GroupingExpr(inner) => 1 + Operators(inner)
    case AssignExpr(_, v) => Operators(v)
    case VarExpr(_) => 0
    case LogicalExpr(_, l, r) => 1 + Operators(l) + Operators(r)
    case CallExpr(_, _, _) => 0
    case CompExpr(_, l, r) => 1 + Operators(l) + Operators(r)
  }

  /** The count of `c` in a parenthesized operand, when `c` is a parenthesis and the name is plain. */
  lemma ParenthesizeCount(name: string, inner: string, c: char)
    requires Plain(name) && (c == '(' || c == ')')
    ensures multiset(Parenthesize(name, inner))[c] == 1 + multiset(inner)[c]
  {
    assert multiset(Parenthesize(name, inner)) == multiset(Open) + multiset(name) + multiset(Space) + multiset(inner) + multiset(Close);
  }

  /** The same for two operands. */
  lemma Parenthesize2Count(name: string, left: string, right: string, c: char)
    requires Plain(name) && (c == '(' || c == ')')
    ensures multiset(Parenthesize2(name, left, right))[c] == 1 + multiset(left)[c] + multiset(right)[c]
  {
    assert multiset(Parenthesize2(name, left, right)) ==
      multiset(Open) + multiset(name) + multiset(Space) + multiset(left) + multiset(TwoSpaces) + multiset(right) + multiset(Close);
  }

  /** The name of the grouping node holds no parenthesis. */
  lemma GroupNamePlain()
    ensures Plain(GroupName)
  {
  }

  /** The same for an assignment, which adds no parenthesis of its own. */
  lemma AssignCount(name: string, value: string, c: char)
    requires Plain(name) && (c == '(' || c == ')')
    ensures multiset(name + Assigns + value + Newline)[c] == multiset(value)[c]
  {
    assert multiset(name + Assigns + value + Newline) == multiset(name) + multiset(Assigns) + multiset(value) + multiset(Newline);
  }

  /** A node with two operands adds one pair to its operands' counts. */
  lemma PairCount(e: Expr, c: char)
    requires (e.BinaryExpr? || e.LogicalExpr? || e.CompExpr?) && CallFree(e) && ParenFree(e) && (c == '(' || c == ')')
    requires multiset(ShowExpr(e.left))[c] == Operators(e.left) && multiset(ShowExpr(e.right))[c] == Operators(e.right)
    ensures multiset(ShowExpr(e))[c] == Operators(e)
  {
    Parenthesize2Count(e.op.lexeme, ShowExpr(e.left), ShowExpr(e.right), c);
  }

  /** A grouping node adds one pair to its operand's count. */
  lemma GroupingCount(inner: Expr, c: char)
    requires CallFree(inner) && ParenFree(inner) && (c == '(' || c == ')')
    requires multiset(ShowExpr(inner))[c] == Operators(inner)
    ensures multiset(ShowExpr(GroupingExpr(inner)))[c] == Operators(GroupingExpr(inner))
  {
    GroupNamePlain();
    ParenthesizeCount(GroupName, ShowExpr(inner), c);
  }

  /**
   * When no name or literal holds a parenthesis, the rendering holds exactly
   * one "(" and one ")" per operator or grouping node.
   */
  lemma {:induction false} ParenthesesCountOperators(e: Expr, c: char)
    requires CallFree(e) && ParenFree(e) && (c == '(' || c == ')')
    ensures multiset(ShowExpr(e))[c] == Operators(e)
  {
    match e
    case BinaryExpr(_, l, r) =>
      ParenthesesCountOperators(l, c);
      ParenthesesCountOperators(r, c);
      PairCount(e, c);
    case UnaryExpr(op, r) =>
      ParenthesesCountOperators(r, c);
      ParenthesizeCount(op.lexeme, ShowExpr(r), c);
    case LiteralExpr(_) =>
    case GroupingExpr(inner) =>
      ParenthesesCountOperators(inner, c);
      GroupingCount(inner, c);
    case AssignExpr(name, v) =>
      ParenthesesCountOperators(v, c);
      AssignCount(name.lexeme, ShowExpr(v), c);
    case VarExpr(_) =>
    case LogicalExpr(_, l, r) =>
      ParenthesesCountOperators(l, c);
      ParenthesesCountOperators(r, c);
      PairCount(e, c);
    case CompExpr(_, l, r) =>
      ParenthesesCountOperators(l, c);
      ParenthesesCountOperators(r, c);
      PairCount(e, c);
  }
}
