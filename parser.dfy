/**
 * The parser as the source writes it: an object holding the scanner, the
 * current and previous tokens and two error flags, whose methods advance
 * through the token stream one token at a time. Every production method is
 * proved to compute exactly what its namesake in `Grammar` specifies, over
 * the token stream the scanner produces.
 */
module Parsing {
  import opened Tokens
  import opened Types
  import opened Ast
  import opened Scanning
  import opened Grammar

  /** The tokens of a lexed stream. */
  function TokensOf(lexed: seq<Lexed>): (toks: seq<Token>)
    ensures |toks| == |lexed|
    ensures forall i :: 0 <= i < |lexed| ==> toks[i] == lexed[i].token
  {
    seq(|lexed|, i requires 0 <= i < |lexed| => lexed[i].token)
  }

  class Parser {
    /** The scanner tokens are pulled from, one at a time. */
    const scanner: Scanner
    /** How many tokens the scanner had returned when the parser was built. */
    ghost const offset: nat
    /** The tokens the scanner returns from then on. */
    ghost const toks: seq<Token>

    var current: Token
    var prev: Token
    var hadError: bool
    var panicMode: bool
    /** The diagnostics printed so far. */
    var reported: seq<Diag>
    /** Set when a declaration loop would repeat forever. */
    var stalled: bool

    /** Index in `toks` of the token `current` holds. */
    ghost var pos: nat
    /** Every diagnostic `ErrorAt` was asked for, printed or not. */
    ghost var errs: seq<Diag>

    /** Facts about the token stream alone, which no method changes. */
    ghost predicate Stream()
    {
      offset + |toks| == |scanner.stream| &&
      forall i :: 0 <= i < |toks| ==> toks[i] == scanner.stream[offset + i].token
    }

    /** How many tokens the scanner has returned once `current` holds the token at `p`. */
    ghost function ProducedAt(p: nat): nat
    {
      offset + if p < |toks| then p + 1 else p
    }

    /** Where the scanner stands once `current` holds the token at `p`. */
    ghost function CursorAt(p: nat): nat
    {
      scanner.CursorAfter(ProducedAt(p))
    }

    /** The parser's fields agree with the stream when `current` holds the token at `p`. */
    ghost predicate SyncedAt(p: nat)
      reads this, scanner
    {
      scanner.Lexes() && Stream() &&
      p <= |toks| && current == Cur(toks, p) && prev == Prev(toks, p) &&
      scanner.produced == ProducedAt(p) &&
      hadError == panicMode == (|errs| > 0) && reported == FirstOnly(errs) &&
      (stalled ==> |errs| > 0)
    }

    ghost predicate Valid()
      reads this, scanner
    {
      pos <= |toks| && forall p {:trigger SyncedAt(p)} :: p == pos ==> SyncedAt(p)
    }

    /** Ready to run a production: nothing stalled and `current` within the stream. */
    ghost predicate Ready()
      reads this, scanner
    {
      Valid() && !stalled
    }

    /** The state a production leaves: the node, position, diagnostics and stall `r` describes. */
    ghost predicate Yields<T>(r: Parsed<T>, node: T)
      reads this
    {
      node == r.node && pos == r.pos && errs == r.errs && stalled == r.stalled
    }

    /** Builds a parser on a scanner and advances to its first token. */
    constructor (scanner: Scanner)
      requires scanner.Lexes()
      modifies scanner
      ensures Valid() && this.scanner == scanner
      ensures toks == TokensOf(old(scanner.Upcoming()))
      ensures pos == 0 && errs == [] && reported == [] && !stalled
    {
      this.scanner := scanner;
      offset := scanner.produced;
      toks := TokensOf(scanner.Upcoming());
      current, prev := DefaultToken(), DefaultToken();
      hadError, panicMode, reported, stalled := false, false, [], false;
      pos, errs := 0, [];
      new;
      // the body of Advance, on the default-initialised `current`
      prev := current;
      current := NextFromScanner();
    }

    predicate IsAtEnd(): (b: bool)
      reads this, scanner
      requires Valid()
      ensures b <==> Cur(toks, pos).kind == Eof
    {
      assert SyncedAt(pos);
      current.kind == Eof
    }

    predicate Check(k: TokenType): (b: bool)
      reads this, scanner
      requires Valid()
      ensures b <==> Cur(toks, pos).kind == k
    {
      assert SyncedAt(pos);
      current.kind == k
    }

    /** Moves to the next token; once the scanner is exhausted `current` is the Eof token. */
    method Advance()
      requires Valid() && current.kind != Eof
      modifies this`current, this`prev, this`pos, scanner
      ensures Valid() && pos == old(pos) + 1 && prev == Cur(toks, old(pos))
    {
      assert SyncedAt(pos);
      prev := current;
      current := NextFromScanner();
      pos := pos + 1;
    }

    /**
     * The next token from the scanner: the next one of its stream, or an Eof
     * token without asking once the scanner is at the end of the text.
     */
    method NextFromScanner() returns (t: Token)
      requires scanner.Lexes()
      modifies scanner
      ensures scanner.Lexes()
      ensures old(scanner.produced) < |scanner.stream| ==>
        scanner.produced == old(scanner.produced) + 1 && t == scanner.stream[old(scanner.produced)].token
      ensures old(scanner.produced) == |scanner.stream| ==> scanner.produced == old(scanner.produced) && t == KindToken(Eof)
    {
      if scanner.IsAtEnd() {
        t := KindToken(Eof);
      } else {
        t := scanner.NextToken();
      }
    }

    method Match(k: TokenType) returns (b: bool)
      requires Valid() && k != Eof
      modifies this`current, this`prev, this`pos, scanner
      ensures Valid()
      ensures b <==> Cur(toks, old(pos)).kind == k
      ensures pos == if b then old(pos) + 1 else old(pos)
      ensures b ==> prev == Cur(toks, old(pos))
    {
      if Check(k) {
        Advance();
        return true;
      }
      return false;
    }

    /** `Match` over a list of kinds: the first one the current token has. */
    method MatchAny(kinds: seq<TokenType>) returns (b: bool)
      requires Valid() && Eof !in kinds
      modifies this`current, this`prev, this`pos, scanner
      ensures Valid()
      ensures b <==> Cur(toks, old(pos)).kind in kinds
      ensures pos == if b then old(pos) + 1 else old(pos)
      ensures b ==> prev == Cur(toks, old(pos))
    {
      for i := 0 to |kinds|
        invariant Valid() && pos == old(pos)
        invariant forall j :: 0 <= j < i ==> kinds[j] != Cur(toks, pos).kind
      {
        if Check(kinds[i]) {
          Advance();
          return true;
        }
      }
      return false;
    }

    /**
     * Reports `message` at token `t`, unless a diagnostic was already
     * printed: the first one sets panic mode, which is never cleared.
     */
    method ErrorAt(t: Token, message: string)
      requires Valid()
      modifies this`panicMode, this`hadError, this`reported, this`errs
      ensures Valid() && errs == old(errs) + [DiagAt(t, message)]
      ensures reported == if old(panicMode) then old(reported) else old(reported) + [DiagAt(t, message)]
    {
      assert SyncedAt(pos);
      errs := errs + [DiagAt(t, message)];
      if panicMode {
        return;
      }
      panicMode := true;
      reported := reported + [DiagAt(t, message)];
      hadError := true;
    }

    method ErrorAtCurrent(message: string)
      requires Valid()
      modifies this`panicMode, this`hadError, this`reported, this`errs
      ensures Valid() && errs == old(errs) + [DiagAt(Cur(toks, pos), message)]
    {
      assert SyncedAt(pos);
      ErrorAt(current, message);
    }

    method Consume(k: TokenType, message: string)
      requires Valid() && k != Eof && pos <= |toks|
      modifies this, scanner
      ensures Valid() && stalled == old(stalled) && prev == Prev(toks, pos)
      ensures Expect(toks, old(pos), k, message, old(errs)) == Step(pos, errs)
    {
      assert SyncedAt(pos);
      if Check(k) {
        Advance();
        return;
      }
      ErrorAtCurrent(message);
    }

    // ---------------------------------------------------------------- expressions

    method Expression() returns (e: Expr)
      requires Ready()
      modifies this, scanner
      ensures Valid() && Yields(Grammar.Expression(toks, old(pos), old(errs)), e)
      decreases |toks| - pos, 11, 0
    {
      e := Assignment();
    }

    method Assignment() returns (e: Expr)
      requires Ready()
      modifies this, scanner
      ensures Valid() && Yields(Grammar.Assignment(toks, old(pos), old(errs)), e)
      decreases |toks| - pos, 10
    {
      e := LogicOr();
      var isAssign := Match(Equal);
      if isAssign {
        var equals := prev;
        var value := Assignment();
        if e.VarExpr? {
          return AssignExpr(e.name, value);
        }
        ErrorAt(equals, InvalidTarget);
      }
    }

    method LogicOr() returns (e: Expr)
      requires Ready()
      modifies this, scanner
      ensures Valid() && Yields(Grammar.LogicOr(toks, old(pos), old(errs)), e)
      decreases |toks| - pos, 9
    {
      e := LogicAnd();
      var found := Match(Or);
      if found {
        var op := prev;
        var right := LogicAnd();
        e := LogicalExpr(op, e, right);
      }
    }

    method LogicAnd() returns (e: Expr)
      requires Ready()
      modifies this, scanner
      ensures Valid() && Yields(Grammar.LogicAnd(toks, old(pos), old(errs)), e)
      decreases |toks| - pos, 8
    {
      e := Equality();
      var found := Match(And);
      if found {
        var op := prev;
        var right := Equality();
        e := LogicalExpr(op, e, right);
      }
    }

    method Equality() returns (e: Expr)
      requires Ready()
      modifies this, scanner
      ensures Valid() && Yields(Grammar.Equality(toks, old(pos), old(errs)), e)
      decreases |toks| - pos, 7
    {
      e := Comparison();
      var found := MatchAny([BangEqual, EqualEqual]);
      if found {
        var op := prev;
        var right := Comparison();
        e := BinaryExpr(op, e, right);
      }
    }

    method Comparison() returns (e: Expr)
      requires Ready()
      modifies this, scanner
      ensures Valid() && Yields(Grammar.Comparison(toks, old(pos), old(errs)), e)
      decreases |toks| - pos, 6
    {
      e := Term();
      var found := MatchAny([Less, LessEqual, Greater, GreaterEqual]);
      if found {
        var op := prev;
        var right := Term();
        e := CompExpr(op, e, right);
      }
    }

    method Term() returns (e: Expr)
      requires Ready()
      modifies this, scanner
      ensures Valid() && Yields(Grammar.Term(toks, old(pos), old(errs)), e)
      decreases |toks| - pos, 5
    {
      ghost var r0 := Grammar.Term(toks, pos, errs);
      e := Factor();
      var more := true;
      while more
        invariant Valid() && !stalled
        invariant more ==> TermRest(toks, pos, errs, e) == r0
        invariant !more ==> r0 == Parsed(e, pos, errs, false)
        decreases |toks| - pos, more
      {
        e, more := TermStep(e);
      }
    }

    /**
     * One turn of `Term`'s loop: the `MatchAny` of its condition and, when
     * it matches, the operator and the operand that follow `left`.
     */
    method TermStep(left: Expr) returns (e: Expr, more: bool)
      requires Ready()
      modifies this, scanner
      ensures Valid() && !stalled
      ensures var r := TermRest(toks, old(pos), old(errs), left);
        if more then pos > old(pos) && TermRest(toks, pos, errs, e) == r
        else r == Parsed(e, pos, errs, false)
      decreases |toks| - pos, 4, 1
    {
      more := MatchAny([Minus, Plus]);
      e := left;
      if more {
        var op := prev;
        var right := Factor();
        e := BinaryExpr(op, left, right);
      }
    }

    method Factor() returns (e: Expr)
      requires Ready()
      modifies this, scanner
      ensures Valid() && Yields(Grammar.Factor(toks, old(pos), old(errs)), e)
      decreases |toks| - pos, 4, 0
    {
      ghost var r0 := Grammar.Factor(toks, pos, errs);
      e := Unary();
      var more := true;
      while more
        invariant Valid() && !stalled
        invariant more ==> FactorRest(toks, pos, errs, e) == r0
        invariant !more ==> r0 == Parsed(e, pos, errs, false)
        decreases |toks| - pos, more
      {
        e, more := FactorStep(e);
      }
    }

    /**
     * One turn of `Factor`'s loop: the `MatchAny` of its condition and,
     * when it matches, the operator and the operand that follow `left`.
     */
    method FactorStep(left: Expr) returns (e: Expr, more: bool)
      requires Ready()
      modifies this, scanner
      ensures Valid() && !stalled
      ensures var r := FactorRest(toks, old(pos), old(errs), left);
        if more then pos > old(pos) && FactorRest(toks, pos, errs, e) == r
        else r == Parsed(e, pos, errs, false)
      decreases |toks| - pos, 3, 1
    {
      more := MatchAny([Slash, Star]);
      e := left;
      if more {
        var op := prev;
        var right := Unary();
        e := BinaryExpr(op, left, right);
      }
    }

    method Unary() returns (e: Expr)
      requires Ready()
      modifies this, scanner
      ensures Valid() && Yields(Grammar.Unary(toks, old(pos), old(errs)), e)
      decreases |toks| - pos, 3, 0
    {
      var found := MatchAny([Bang, Minus]);
      if found {
        var op := prev;
        var right := Unary();
        return UnaryExpr(op, right);
      }
      e := Call();
    }

    method Call() returns (e: Expr)
      requires Ready()
      modifies this, scanner
      ensures Valid() && Yields(Grammar.Call(toks, old(pos), old(errs)), e)
      decreases |toks| - pos, 2, 1
    {
      ghost var r0 := Grammar.Call(toks, pos, errs);
      e := Primary();
      var more := true;
      while more
        invariant Valid() && !stalled
        invariant more ==> CallSuffix(toks, pos, errs, e) == r0
        invariant !more ==> r0 == Parsed(e, pos, errs, false)
        decreases |toks| - pos, more
      {
        e, more := CallStep(e);
      }
    }

    /**
     * One turn of `Call`'s loop: the `Match(LeftParen)` of its condition
     * and, when it matches, the call of `callee` that follows.
     */
    method CallStep(callee: Expr) returns (e: Expr, more: bool)
      requires Ready()
      modifies this, scanner
      ensures Valid() && !stalled
      ensures var r := CallSuffix(toks, old(pos), old(errs), callee);
        if more then pos > old(pos) && CallSuffix(toks, pos, errs, e) == r
        else r == Parsed(e, pos, errs, false)
      decreases |toks| - pos, 2, 0
    {
      more := Match(LeftParen);
      e := callee;
      if more {
        e := FinishCall(callee);
      }
    }

    /** The rest of a call, after the `(`: the arguments and the `)`. */
    method FinishCall(callee: Expr) returns (e: Expr)
      requires Ready()
      modifies this, scanner
      ensures Valid() && Yields(Grammar.FinishCall(toks, old(pos), old(errs), callee), e)
      decreases |toks| - pos, 14
    {
      var args := ArgumentList();
      Consume(RightParen, ExpectParenAfterArguments);
      var paren := prev;
      e := CallExpr(paren, callee, args);
    }

    /** The arguments of a call, unless the next token is `)`. */
    method ArgumentList() returns (args: seq<Expr>)
      requires Ready()
      modifies this, scanner
      ensures Valid() && Yields(Grammar.ArgumentList(toks, old(pos), old(errs)), args)
      decreases |toks| - pos, 13
    {
      args := [];
      if !Check(RightParen) {
        args := Arguments();
      }
    }

    /** The `do { … } while (Match(Comma))` loop of `Call`. */
    method Arguments() returns (args: seq<Expr>)
      requires Ready()
      modifies this, scanner
      ensures Valid() && Yields(Grammar.Arguments(toks, old(pos), old(errs), []), args)
      decreases |toks| - pos, 12
    {
      ghost var r0 := Grammar.Arguments(toks, pos, errs, []);
      args := [];
      var more := true;
      while more
        invariant Valid() && !stalled && pos <= |toks|
        invariant more ==> Grammar.Arguments(toks, pos, errs, args) == r0
        invariant !more ==> r0 == Parsed(args, pos, errs, false)
        decreases |toks| - pos, more
      {
        var e;
        e, more := ArgumentTurn();
        args := args + [e];
      }
    }

    /** One turn of that loop: an argument, then the `Match(Comma)` that decides whether another follows. */
    method ArgumentTurn() returns (e: Expr, more: bool)
      requires Ready()
      modifies this, scanner
      ensures Valid() && !stalled
      ensures var r := Grammar.Expression(toks, old(pos), old(errs));
        e == r.node && errs == r.errs &&
        (more <==> Cur(toks, r.pos).kind == Comma) && pos == if more then r.pos + 1 else r.pos
      decreases |toks| - pos, 11, 1
    {
      e := Expression();
      more := Match(Comma);
    }

    method Primary() returns (e: Expr)
      requires Ready()
      modifies this, scanner
      ensures Valid() && Yields(Grammar.Primary(toks, old(pos), old(errs)), e)
      decreases |toks| - pos, 0
    {
      var found := Match(True);
      if found {
        return LiteralExpr(LoxBool(true));
      }
      found := Match(False);
      if found {
        return LiteralExpr(LoxBool(false));
      }
      e := PrimaryFromNumber();
    }

    /** The number test of `Primary`. */
    method PrimaryFromNumber() returns (e: Expr)
      requires Ready() && Cur(toks, pos).kind != True && Cur(toks, pos).kind != False
      modifies this, scanner
      ensures Valid() && Yields(Grammar.Primary(toks, old(pos), old(errs)), e)
    {
      var found := Match(Number);
      if found {
        var spelling := prev.lexeme;
        if !StartsWithDigit(spelling) {
          ErrorAtCurrent(BadNumber);
        }
        return LiteralExpr(LoxNumber(spelling));
      }
      e := PrimaryFromString();
    }

    /** The string and identifier tests of `Primary`, and the error it falls back to. */
    method PrimaryFromString() returns (e: Expr)
      requires Ready() && Cur(toks, pos).kind != True && Cur(toks, pos).kind != False && Cur(toks, pos).kind != Number
      modifies this, scanner
      ensures Valid() && Yields(Grammar.Primary(toks, old(pos), old(errs)), e)
    {
      var found := Match(TokenType.String);
      if found {
        return LiteralExpr(LoxString(prev.lexeme));
      }
      found := Match(Identifier);
      if found {
        return VarExpr(prev);
      }
      ErrorAtCurrent(InvalidLiteral);
      return NilLiteral();
    }

    // ---------------------------------------------------------------- statements

    /** The scanner's cursor, the executable trace of the position. */
    function Mark(): (m: nat)
      reads this, scanner
      requires Valid()
      ensures m == CursorAt(pos)
    {
      assert SyncedAt(pos);
      scanner.current
    }

    /**
     * Marks the parse as stalled after the declaration that began at `p`,
     * where the cursor was `mark`, when that declaration stalled or consumed
     * no token: a declaration loop would parse it again forever. The cursor
     * stands still exactly when no token was consumed, except when stepping
     * onto Eof, where the loop ends anyway.
     */
    method StopIfStalled(ghost p: nat, mark: nat)
      requires Valid() && p <= pos && mark == CursorAt(p) && Cur(toks, p).kind != Eof
      requires pos == p ==> |errs| > 0
      modifies this`stalled
      ensures Valid() && (stalled <==> old(stalled) || pos == p)
    {
      assert SyncedAt(pos);
      if p < pos < |toks| {
        assert scanner.Increasing(offset + p, offset + pos);
      }
      if scanner.current == mark && current.kind != Eof {
        stalled := true;
      }
    }

    /** One turn of a declaration loop: `Declaration()`, then the stall check. */
    method DeclarationStep() returns (d: Stmt)
      requires Ready() && Cur(toks, pos).kind != Eof
      modifies this, scanner
      ensures Valid() && Yields(Grammar.DeclarationStep(toks, old(pos), old(errs)), d)
      decreases |toks| - pos, 18
    {
      ghost var p := pos;
      var mark := Mark();
      d := Declaration();
      StopIfStalled(p, mark);
    }

    method ExpressionStatement() returns (s: Stmt)
      requires Ready()
      modifies this, scanner
      ensures Valid() && Yields(Grammar.ExpressionStatement(toks, old(pos), old(errs)), s)
      decreases |toks| - pos, 12
    {
      var e := Expression();
      s := ExprStmt(e);
      Consume(Semicolon, ExpectSemicolonAfterStatement);
    }

    method PrintStatement() returns (s: Stmt)
      requires Ready()
      modifies this, scanner
      ensures Valid() && Yields(Grammar.PrintStatement(toks, old(pos), old(errs)), s)
      decreases |toks| - pos, 12
    {
      var e := Expression();
      Consume(Semicolon, ExpectSemicolonAfterPrint);
      s := PrintStmt(e);
    }

    method ReturnStatement() returns (s: Stmt)
      requires Ready()
      modifies this, scanner
      ensures Valid() && Yields(Grammar.ReturnStatement(toks, old(pos), old(errs)), s)
      decreases |toks| - pos, 13
    {
      assert SyncedAt(pos);
      var keyword := prev;
      var value := NilLiteral();
      if !Check(Semicolon) {
        value := Expression();
      }
      Consume(Semicolon, ExpectSemicolonAfterReturn);
      s := ReturnStmt(keyword, value);
    }

    /** The optional `= expression` of a variable declaration; nil when absent. */
    method Initializer() returns (init: Expr)
      requires Ready()
      modifies this, scanner
      ensures Valid() && Yields(Grammar.Initializer(toks, old(pos), old(errs)), init)
      decreases |toks| - pos, 12
    {
      init := NilLiteral();
      var found := Match(Equal);
      if found {
        init := Expression();
      }
    }

    method VarDeclaration() returns (s: Stmt)
      requires Ready()
      modifies this, scanner
      ensures Valid() && Yields(Grammar.VarDeclaration(toks, old(pos), old(errs)), s)
      decreases |toks| - pos, 13
    {
      Consume(Identifier, ExpectVariableName);
      var name := prev;
      var init := Initializer();
      Consume(Semicolon, ExpectSemicolonAfterVariable);
      s := VarStmt(name, init);
    }

    /**
     * The first two tests of the source's `statement` chain; the rest of the
     * chain continues in `StatementFromReturn`, `StatementFromFor`, `StatementFromIf` and
     * `StatementFromWhile`, each proved against the whole of `Grammar.Statement`.
     */
    method Statement() returns (s: Stmt)
      requires Ready()
      modifies this, scanner
      ensures Valid() && Yields(Grammar.Statement(toks, old(pos), old(errs)), s)
      decreases |toks| - pos, 14, 4
    {
      var found := Match(Print);
      if found {
        s := PrintStatement();
        return;
      }
      found := Match(LeftBrace);
      if found {
        s := BlockStatement();
        return;
      }
      s := StatementFromReturn();
    }

    /** The `return` test of the `statement` chain. */
    method StatementFromReturn() returns (s: Stmt)
      requires Ready() && Cur(toks, pos).kind != Print && Cur(toks, pos).kind != LeftBrace
      modifies this, scanner
      ensures Valid() && Yields(Grammar.Statement(toks, old(pos), old(errs)), s)
      decreases |toks| - pos, 14, 3
    {
      var found := Match(Return);
      if found {
        s := ReturnStatement();
        return;
      }
      s := StatementFromFor();
    }

    /** The `for` test of the `statement` chain. */
    method StatementFromFor() returns (s: Stmt)
      requires Ready() && Cur(toks, pos).kind != Print && Cur(toks, pos).kind != LeftBrace
      requires Cur(toks, pos).kind != Return
      modifies this, scanner
      ensures Valid() && Yields(Grammar.Statement(toks, old(pos), old(errs)), s)
      decreases |toks| - pos, 14, 2
    {
      var found := Match(For);
      if found {
        s := ForStatement();
        return;
      }
      s := StatementFromIf();
    }

    /** The `if` test of the `statement` chain. */
    method StatementFromIf() returns (s: Stmt)
      requires Ready() && Cur(toks, pos).kind != Print && Cur(toks, pos).kind != LeftBrace
      requires Cur(toks, pos).kind != Return && Cur(toks, pos).kind != For
      modifies this, scanner
      ensures Valid() && Yields(Grammar.Statement(toks, old(pos), old(errs)), s)
      decreases |toks| - pos, 14, 1
    {
      var found := Match(If);
      if found {
        s := IfStatement();
        return;
      }
      s := StatementFromWhile();
    }

    /** The `while` test of the `statement` chain, and the expression statement it falls back to. */
    method StatementFromWhile() returns (s: Stmt)
      requires Ready() && Cur(toks, pos).kind != Print && Cur(toks, pos).kind != LeftBrace
      requires Cur(toks, pos).kind != Return && Cur(toks, pos).kind != For && Cur(toks, pos).kind != If
      modifies this, scanner
      ensures Valid() && Yields(Grammar.Statement(toks, old(pos), old(errs)), s)
      decreases |toks| - pos, 14, 0
    {
      var found := Match(While);
      if found {
        s := WhileStatement();
        return;
      }
      s := ExpressionStatement();
    }

    /** The initializer clause of a `for`: a variable declaration, nothing, or an expression statement. */
    method ForInitializer() returns (initializer: Option<Stmt>)
      requires Ready()
      modifies this, scanner
      ensures Valid() && Yields(Grammar.ForInitializer(toks, old(pos), old(errs)), initializer)
      decreases |toks| - pos, 14
    {
      initializer := None;
      var found := Match(Var);
      if found {
        var d := VarDeclaration();
        initializer := Some(d);
      } else {
        found := Match(Semicolon);
        if !found {
          var d := ExpressionStatement();
          initializer := Some(d);
        }
      }
    }

    /** The condition clause of a `for`, unless the next token is `;`, and the `;` after it. */
    method ForCondition() returns (condition: Option<Expr>)
      requires Ready()
      modifies this, scanner
      ensures Valid() && Yields(Grammar.ForCondition(toks, old(pos), old(errs)), condition)
      decreases |toks| - pos, 12
    {
      condition := None;
      if !Check(Semicolon) {
        var e := Expression();
        condition := Some(e);
      }
      Consume(Semicolon, ExpectSemicolonAfterCondition);
    }

    /** The increment clause of a `for`, unless the next token is `)`, and the `)` after it. */
    method ForIncrement() returns (increment: Option<Expr>)
      requires Ready()
      modifies this, scanner
      ensures Valid() && Yields(Grammar.ForIncrement(toks, old(pos), old(errs)), increment)
      decreases |toks| - pos, 12
    {
      increment := None;
      if !Check(RightParen) {
        var e := Expression();
        increment := Some(e);
      }
      Consume(RightParen, ExpectParenAfterForClauses);
    }

    /** The parentheses of a `for` and the three clauses between them. */
    method ForHeader() returns (clauses: ForClauses)
      requires Ready()
      modifies this, scanner
      ensures Valid() && Yields(Grammar.ForHeader(toks, old(pos), old(errs)), clauses)
    {
      Consume(LeftParen, ExpectParenAfterFor);
      var initializer := ForInitializer();
      var condition := ForCondition();
      var increment := ForIncrement();
      clauses := ForClauses(initializer, condition, increment);
    }

    /** Parses a `for` and returns the `while` loop it stands for. */
    method ForStatement() returns (s: Stmt)
      requires Ready()
      modifies this, scanner
      ensures Valid() && Yields(Grammar.ForStatement(toks, old(pos), old(errs)), s)
      decreases |toks| - pos, 15
    {
      var clauses := ForHeader();
      var body := Statement();
      s := Desugar(clauses.initializer, clauses.condition, clauses.increment, body);
    }

    /** The `else` branch of an `if`, looked for only when the `then` branch did not stall. */
    method ElseBranch() returns (elseBranch: Option<Stmt>)
      requires Valid()
      modifies this, scanner
      ensures Valid() && Yields(Grammar.ElseBranch(toks, old(pos), old(errs), old(stalled)), elseBranch)
      decreases |toks| - pos, 15
    {
      elseBranch := None;
      if !stalled {
        var found := Match(Else);
        if found {
          var e := Statement();
          elseBranch := Some(e);
        }
      }
    }

    method IfStatement() returns (s: Stmt)
      requires Ready()
      modifies this, scanner
      ensures Valid() && Yields(Grammar.IfStatement(toks, old(pos), old(errs)), s)
      decreases |toks| - pos, 16
    {
      Consume(LeftParen, ExpectParenAfterIf);
      var condition := Expression();
      Consume(RightParen, ExpectParenAfterIfCondition);
      var thenPart := Statement();
      var elseBranch := ElseBranch();
      s := IfStmt(condition, thenPart, elseBranch);
    }

    method WhileStatement() returns (s: Stmt)
      requires Ready()
      modifies this, scanner
      ensures Valid() && Yields(Grammar.WhileStatement(toks, old(pos), old(errs)), s)
      decreases |toks| - pos, 15
    {
      Consume(LeftParen, ExpectParenAfterWhile);
      var condition := Expression();
      Consume(RightParen, ExpectParenAfterWhileCondition);
      var body := Statement();
      s := WhileStmt(condition, body);
    }

    method Declaration() returns (s: Stmt)
      requires Ready()
      modifies this, scanner
      ensures Valid() && Yields(Grammar.Declaration(toks, old(pos), old(errs)), s)
      decreases |toks| - pos, 17
    {
      var found := Match(Var);
      if found {
        s := VarDeclaration();
        return;
      }
      found := Match(Fun);
      if found {
        s := FunDeclaration();
        return;
      }
      s := Statement();
    }

    /**
     * Declarations until `}` or Eof. A declaration that leaves the scanner
     * where it was, short of Eof, would be parsed again forever: the loop
     * stops there instead, with `stalled` set.
     */
    method BlockDeclarations() returns (statements: seq<Stmt>)
      requires Ready()
      modifies this, scanner
      ensures Valid() && Yields(Grammar.BlockDeclarations(toks, old(pos), old(errs), []), statements)
      decreases |toks| - pos, 19
    {
      ghost var r0 := Grammar.BlockDeclarations(toks, pos, errs, []);
      statements := [];
      while !(IsAtEnd() || Check(RightBrace))
        invariant Valid() && !stalled
        invariant Grammar.BlockDeclarations(toks, pos, errs, statements) == r0
        decreases |toks| - pos
      {
        var d := DeclarationStep();
        statements := statements + [d];
        if stalled {
          return;
        }
      }
    }

    /** A block's declarations and, unless they stalled, the closing `}`. */
    method BlockStatement() returns (s: Stmt)
      requires Ready()
      modifies this, scanner
      ensures Valid() && s.BlockStmt? && Yields(Grammar.BlockStatement(toks, old(pos), old(errs)), s.statements)
      decreases |toks| - pos, 20
    {
      var statements := BlockDeclarations();
      if !stalled {
        Consume(RightBrace, ExpectBraceAfterBlock);
      }
      s := BlockStmt(statements);
    }

    /** The `do { … } while (Match(Comma))` loop of a function's parameters. */
    method Parameters() returns (params: seq<Token>)
      requires Ready()
      modifies this, scanner
      ensures Valid() && Yields(Grammar.Parameters(toks, old(pos), old(errs), []), params)
    {
      ghost var r0 := Grammar.Parameters(toks, pos, errs, []);
      params := [];
      var more := true;
      while more
        invariant Valid() && !stalled
        invariant more ==> Grammar.Parameters(toks, pos, errs, params) == r0
        invariant !more ==> r0 == Parsed(params, pos, errs, false)
        decreases |toks| - pos, more
      {
        var name;
        name, more := ParameterTurn();
        params := params + [name];
      }
    }

    /**
     * One turn of that loop: a parameter name (when it is missing, whatever
     * token `prev` holds stands in for it), then the `Match(Comma)` that
     * decides whether another follows.
     */
    method ParameterTurn() returns (name: Token, more: bool)
      requires Ready()
      modifies this, scanner
      ensures Valid() && !stalled
      ensures var r := Grammar.Parameter(toks, old(pos), old(errs));
        name == r.node && errs == r.errs &&
        (more <==> Cur(toks, r.pos).kind == Comma) && pos == if more then r.pos + 1 else r.pos
    {
      Consume(Identifier, ExpectParameterName);
      name := prev;
      more := Match(Comma);
    }

    /** A function's parameters in parentheses, unless the token after the `(` is `)`. */
    method ParameterList() returns (params: seq<Token>)
      requires Ready()
      modifies this, scanner
      ensures Valid() && Yields(Grammar.ParameterList(toks, old(pos), old(errs)), params)
    {
      Consume(LeftParen, ExpectParenAfterFunctionName);
      params := [];
      if !Check(RightParen) {
        params := Parameters();
      }
      Consume(RightParen, ExpectParenAfterParameters);
    }

    /** A function's name, its parameters in parentheses and the `{` that opens its body. */
    method FunHeader() returns (signature: Signature)
      requires Ready()
      modifies this, scanner
      ensures Valid() && Yields(Grammar.FunHeader(toks, old(pos), old(errs)), signature)
    {
      Consume(Identifier, ExpectFunctionName);
      var name := prev;
      var params := ParameterList();
      Consume(LeftBrace, ExpectBraceBeforeBody);
      signature := Signature(name, params);
    }

    method FunDeclaration() returns (s: Stmt)
      requires Ready()
      modifies this, scanner
      ensures Valid() && Yields(Grammar.FunDeclaration(toks, old(pos), old(errs)), s)
      decreases |toks| - pos, 21
    {
      var signature := FunHeader();
      var body := BlockStatement();
      s := FunStmt(signature.name, signature.params, body.statements);
    }

    /**
     * `program → declaration* EOF`: declarations until Eof, stopping like a
     * block's loop when one would be repeated forever.
     */
    method Parse() returns (nodes: seq<Stmt>)
      requires Ready()
      modifies this, scanner
      ensures Valid() && Yields(ParseFrom(toks, old(pos), old(errs), []), nodes)
    {
      ghost var r0 := ParseFrom(toks, pos, errs, []);
      nodes := [];
      while !IsAtEnd()
        invariant Valid() && !stalled
        invariant ParseFrom(toks, pos, errs, nodes) == r0
        decreases |toks| - pos
      {
        var d := DeclarationStep();
        nodes := nodes + [d];
        if stalled {
          return;
        }
      }
    }
  }
}
