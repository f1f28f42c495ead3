/**
 * What the grammar functions of `Parsing` guarantee: how statements are
 * selected, why the three expression tiers make a single left-associative
 * level, the shape of access chains and calls, how lists end, and how blocks
 * and `incase` are closed.
 */
module ParsingFacts {
  import opened Wrappers
  import opened Lexing
  import opened Parsing

  // Statements are selected by their first token.

  /** The statement kinds and the keyword that introduces each. */
  predicate Introduces(kind: TokenKind, s: Stmt) {
    match s
    case Assignment(_, _) => kind == ASSUME
    case Produce(_) => kind == PRODUCE
    case Take(_) => kind == TAKE
    case Incase(_, _, _) => kind == INCASE
    case While(_, _) => kind == WHILE
    case Function(_, _, _) => kind == FUNCTION
    case Return(_) => kind == RETURN
  }

  predicate StartsStatement(kind: TokenKind) {
    kind == ASSUME || kind == PRODUCE || kind == TAKE || kind == INCASE ||
    kind == WHILE || kind == FUNCTION || kind == RETURN
  }

  /**
   * A statement that parses is of the kind its first token introduces; a
   * first token that introduces no statement, or no token at all, is an
   * unexpected-token error.
   */
  lemma {:induction false} StatementSelectedByFirstToken(ts: seq<Token>, pos: nat)
    requires pos <= |ts|
    ensures var r := StatementAt(ts, pos);
      (r.Ok? ==> pos < |ts| && Introduces(ts[pos].kind, r.value.node)) &&
      (pos == |ts| ==> r == Err(UnexpectedToken(None))) &&
      (pos < |ts| && !StartsStatement(ts[pos].kind) ==> r == Err(UnexpectedToken(Some(ts[pos]))))
  {
    if pos < |ts| {
      match ts[pos].kind
      case ASSUME => AssignmentBuildsAssignment(ts, pos);
      case PRODUCE => ProduceBuildsProduce(ts, pos);
      case TAKE => TakeBuildsTake(ts, pos);
      case INCASE => IncaseBuildsIncase(ts, pos);
      case WHILE => WhileBuildsWhile(ts, pos);
      case FUNCTION => FunctionBuildsFunction(ts, pos);
      case RETURN => ReturnBuildsReturn(ts, pos);
      case _ =>
    }
  }

  // Helpers for `StatementSelectedByFirstToken`, one per statement routine:
  // each routine builds its own kind of node. Stated apart, they keep that
  // lemma's proof small; they add nothing to what it states.

  lemma {:induction false} AssignmentBuildsAssignment(ts: seq<Token>, pos: nat)
    requires pos <= |ts|
    ensures var r := AssignmentStatementAt(ts, pos); r.Ok? ==> r.value.node.Assignment?
  {
  }

  lemma {:induction false} ProduceBuildsProduce(ts: seq<Token>, pos: nat)
    requires pos <= |ts|
    ensures var r := ProduceStatementAt(ts, pos); r.Ok? ==> r.value.node.Produce?
  {
  }

  lemma {:induction false} TakeBuildsTake(ts: seq<Token>, pos: nat)
    requires pos <= |ts|
    ensures var r := TakeStatementAt(ts, pos); r.Ok? ==> r.value.node.Take?
  {
  }

  lemma {:induction false} IncaseBuildsIncase(ts: seq<Token>, pos: nat)
    requires pos <= |ts|
    ensures var r := IncaseStatementAt(ts, pos); r.Ok? ==> r.value.node.Incase?
  {
  }

  lemma {:induction false} WhileBuildsWhile(ts: seq<Token>, pos: nat)
    requires pos <= |ts|
    ensures var r := WhileStatementAt(ts, pos); r.Ok? ==> r.value.node.While?
  {
  }

  lemma {:induction false} FunctionBuildsFunction(ts: seq<Token>, pos: nat)
    requires pos <= |ts|
    ensures var r := FunctionStatementAt(ts, pos); r.Ok? ==> r.value.node.Function?
  {
  }

  lemma {:induction false} ReturnBuildsReturn(ts: seq<Token>, pos: nat)
    requires pos <= |ts|
    ensures var r := ReturnStatementAt(ts, pos); r.Ok? ==> r.value.node.Return?
  {
  }

  // The three tiers are one: `factor` already takes every operator.

  /** The operator loop of a tier ends only where no operator follows. */
  lemma {:induction false} TierRestStops(level: nat, ts: seq<Token>, pos: nat, left: Expr)
    requires 1 <= level <= BinaryTier && pos <= |ts|
    ensures var r := TierRestAt(level, ts, pos, left); r.Ok? ==> !MatchAt(ts, r.value.next, Operators)
    decreases |ts| - pos
  {
    if MatchAt(ts, pos, Operators) {
      var right := OperandAt(level, ts, pos + 1);
      if right.Ok? {
        TierRestStops(level, ts, right.value.next, Binary(ts[pos], left, right.value.node));
      }
    }
  }

  /** A tier ends only where no operator follows. */
  lemma {:induction false} TierStops(level: nat, ts: seq<Token>, pos: nat)
    requires 1 <= level <= BinaryTier && pos <= |ts|
    ensures var r := TierAt(level, ts, pos); r.Ok? ==> !MatchAt(ts, r.value.next, Operators)
  {
    var first := OperandAt(level, ts, pos);
    if first.Ok? {
      TierRestStops(level, ts, first.value.next, first.value.node);
    }
  }

  /**
   * `term` and `binary_expression` parse exactly what `factor` parses: their
   * own operator loops never run, since the tier below stops only where no
   * operator follows.
   */
  lemma {:induction false} TierCollapses(level: nat, ts: seq<Token>, pos: nat)
    requires 1 <= level <= BinaryTier && pos <= |ts|
    ensures TierAt(level, ts, pos) == TierAt(FactorTier, ts, pos)
    decreases level
  {
    if level > FactorTier {
      TierCollapses(level - 1, ts, pos);
      TierStops(level - 1, ts, pos);
      assert OperandAt(level, ts, pos) == TierAt(level - 1, ts, pos);
    }
  }

  /** An expression is one flat, left-associative chain of primaries and operators. */
  lemma {:induction false} ExpressionIsOneTier(ts: seq<Token>, pos: nat)
    requires pos <= |ts|
    ensures ExpressionAt(ts, pos) == TierAt(FactorTier, ts, pos)
  {
    TierCollapses(BinaryTier, ts, pos);
  }

  /** An identifier with neither `[` nor `(` after it is a variable. */
  lemma {:induction false} PlainVariable(ts: seq<Token>, pos: nat)
    requires CheckAt(ts, pos, IDENTIFIER) && !CheckAt(ts, pos + 1, LBRACKET) && !CheckAt(ts, pos + 1, LPAREN)
    ensures PrimaryAt(ts, pos) == Ok(Parsed(Variable(ts[pos].text), pos + 1))
  {
    assert IndexesAt(ts, pos + 1, Variable(ts[pos].text)) == Ok(Parsed(Variable(ts[pos].text), pos + 1));
  }

  /**
   * There is no precedence: `a op1 b op2 c` groups as `(a op1 b) op2 c` for
   * any two operators, so `a + b * c` is `(a + b) * c`.
   */
  lemma {:induction false} NoPrecedence(ts: seq<Token>)
    requires |ts| == 5
    requires ts[0].kind == IDENTIFIER && ts[2].kind == IDENTIFIER && ts[4].kind == IDENTIFIER
    requires ts[1].kind in Operators && ts[3].kind in Operators
    ensures ExpressionAt(ts, 0) ==
      Ok(Parsed(Binary(ts[3], Binary(ts[1], Variable(ts[0].text), Variable(ts[2].text)), Variable(ts[4].text)), 5))
  {
    ExpressionIsOneTier(ts, 0);
    PlainVariable(ts, 0);
    PlainVariable(ts, 2);
    PlainVariable(ts, 4);
    var a, b, c := Variable(ts[0].text), Variable(ts[2].text), Variable(ts[4].text);
    assert TierRestAt(FactorTier, ts, 5, Binary(ts[3], Binary(ts[1], a, b), c)) == Ok(Parsed(Binary(ts[3], Binary(ts[1], a, b), c), 5));
    assert TierRestAt(FactorTier, ts, 3, Binary(ts[1], a, b)) == Ok(Parsed(Binary(ts[3], Binary(ts[1], a, b), c), 5));
    assert TierRestAt(FactorTier, ts, 1, a) == Ok(Parsed(Binary(ts[3], Binary(ts[1], a, b), c), 5));
  }

  /** The tokens an expression can start with. */
  predicate StartsPrimary(t: Option<Token>) {
    t.Some? && (t.value.kind == NUMBER || t.value.kind == STRING || t.value.kind == IDENTIFIER ||
                t.value.kind == LPAREN || t.value.kind == LBRACKET)
  }

  /**
   * There are no prefix operators: an expression that does not start with a
   * number, string, identifier, `(` or `[` (a leading `-`, say) is an
   * expected-expression error naming the token found.
   */
  lemma {:induction false} NoPrefixOperators(ts: seq<Token>, pos: nat)
    requires pos <= |ts| && !StartsPrimary(PeekAt(ts, pos))
    ensures ExpressionAt(ts, pos) == Err(ExpectedExpression(PeekAt(ts, pos)))
  {
    ExpressionIsOneTier(ts, pos);
    assert OperandAt(FactorTier, ts, pos) == PrimaryAt(ts, pos) == Err(ExpectedExpression(PeekAt(ts, pos)));
  }

  // Access chains and calls.

  /** `e` is `base` wrapped in zero or more index nodes, innermost first. */
  predicate Wraps(e: Expr, base: Expr) {
    e == base || (e.Index? && Wraps(e.target, base))
  }

  lemma {:induction false} WrapsIndex(e: Expr, base: Expr, index: Expr)
    requires Wraps(e, Index(base, index))
    ensures Wraps(e, base)
  {
    if e != Index(base, index) {
      WrapsIndex(e.target, base, index);
    }
  }

  /** Index suffixes nest leftwards around the target and stop where no `[` follows. */
  lemma {:induction false} IndexesNestLeftwards(ts: seq<Token>, pos: nat, target: Expr)
    requires pos <= |ts|
    ensures var r := IndexesAt(ts, pos, target);
      r.Ok? ==> Wraps(r.value.node, target) && !CheckAt(ts, r.value.next, LBRACKET)
    decreases |ts| - pos
  {
    if CheckAt(ts, pos, LBRACKET) {
      var index := ExpressionAt(ts, pos + 1);
      if index.Ok? {
        var close := ConsumeAt(ts, index.value.next, RBRACKET);
        if close.Ok? {
          var wrapped := Index(target, index.value.node);
          IndexesNestLeftwards(ts, close.value.next, wrapped);
          var r := IndexesAt(ts, close.value.next, wrapped);
          if r.Ok? {
            WrapsIndex(r.value.node, target, index.value.node);
          }
        }
      }
    }
  }

  /**
   * After an identifier come index suffixes, then at most one call, which
   * ends the primary: the result is an access chain on the variable with
   * neither `[` nor `(` after it, or a call whose callee is such a chain and
   * which ends with its `)`.
   */
  lemma {:induction false} AccessShape(ts: seq<Token>, pos: nat, name: string)
    requires pos <= |ts|
    ensures var r := AccessAt(ts, pos, Variable(name));
      r.Ok? ==>
        (Wraps(r.value.node, Variable(name)) && !CheckAt(ts, r.value.next, LBRACKET) && !CheckAt(ts, r.value.next, LPAREN)) ||
        (r.value.node.Call? && Wraps(r.value.node.callee, Variable(name)) && 0 < r.value.next && ts[r.value.next - 1].kind == RPAREN)
  {
    IndexesNestLeftwards(ts, pos, Variable(name));
  }

  // Lists.

  /**
   * Argument and element lists may be empty, and may not end in a comma:
   * after a comma, the closing token is an expected-expression error.
   */
  lemma {:induction false} ExpressionListEnds(ts: seq<Token>, pos: nat, close: TokenKind, items: seq<Expr>)
    requires pos <= |ts| && (close == RPAREN || close == RBRACKET) && CheckAt(ts, pos, close)
    ensures ExpressionListAt(ts, pos, close) == Ok(Parsed([], pos))
    ensures ExpressionsRestAt(ts, pos, items) == Err(ExpectedExpression(Some(ts[pos])))
  {
    NoPrefixOperators(ts, pos);
  }

  /**
   * A list keeps the items before it, adds at least one, and ends only where
   * no comma follows the last item.
   */
  lemma {:induction false} ExpressionsStopWithoutComma(ts: seq<Token>, pos: nat, items: seq<Expr>)
    requires pos <= |ts|
    ensures var r := ExpressionsRestAt(ts, pos, items);
      r.Ok? ==> |items| < |r.value.node| && items <= r.value.node && !CheckAt(ts, r.value.next, COMMA)
    decreases |ts| - pos
  {
    var item := ExpressionAt(ts, pos);
    if item.Ok? && CheckAt(ts, item.value.next, COMMA) {
      ExpressionsStopWithoutComma(ts, item.value.next + 1, items + [item.value.node]);
    }
  }

  /** A parameter list may be empty, and a comma must be followed by a name. */
  lemma {:induction false} ParameterListEnds(ts: seq<Token>, pos: nat, names: seq<string>)
    requires pos <= |ts|
    ensures CheckAt(ts, pos, RPAREN) ==> ParametersAt(ts, pos) == Ok(Parsed([], pos))
    ensures CheckAt(ts, pos, COMMA) && !CheckAt(ts, pos + 1, IDENTIFIER) ==>
      ParametersRestAt(ts, pos, names) == Err(ExpectedToken(IDENTIFIER, PeekAt(ts, pos + 1)))
  {
  }

  // Blocks and `incase`.

  /** A block that parses stops at a `}` without consuming it, and keeps the statements before it. */
  lemma {:induction false} BlockStopsAtBrace(ts: seq<Token>, pos: nat, stmts: seq<Stmt>)
    requires pos <= |ts|
    ensures var r := BlockAt(ts, pos, stmts); r.Ok? ==> CheckAt(ts, r.value.next, RBRACE) && stmts <= r.value.node
    decreases |ts| - pos
  {
    if !CheckAt(ts, pos, RBRACE) {
      var stmt := StatementAt(ts, pos);
      if stmt.Ok? {
        BlockStopsAtBrace(ts, stmt.value.next, stmts + [stmt.value.node]);
      }
    }
  }

  /** Running out of tokens inside a block, before any `}`, is an error. */
  lemma {:induction false} BlockNeedsBrace(ts: seq<Token>, pos: nat, stmts: seq<Stmt>)
    requires pos <= |ts| && forall k | pos <= k < |ts| :: ts[k].kind != RBRACE
    ensures BlockAt(ts, pos, stmts).Err?
  {
    BlockStopsAtBrace(ts, pos, stmts);
  }

  /**
   * `otherwise` is required: once the condition and the first block of an
   * `incase` have parsed, any token but `otherwise` after its `}` (or no
   * token at all) is an expected-token error.
   */
  lemma {:induction false} IncaseNeedsOtherwise(ts: seq<Token>, pos: nat, condition: Expr, c: nat, body: seq<Stmt>, b: nat)
    requires CheckAt(ts, pos, INCASE) && CheckAt(ts, pos + 1, LPAREN)
    requires ExpressionAt(ts, pos + 2) == Ok(Parsed(condition, c))
    requires CheckAt(ts, c, RPAREN) && CheckAt(ts, c + 1, LBRACE)
    requires BlockAt(ts, c + 2, []) == Ok(Parsed(body, b))
    requires !CheckAt(ts, b + 1, OTHERWISE)
    ensures IncaseStatementAt(ts, pos) == Err(ExpectedToken(OTHERWISE, PeekAt(ts, b + 1)))
  {
    BlockStopsAtBrace(ts, c + 2, []);
    assert ConsumeAt(ts, b, RBRACE) == Ok(Parsed(ts[b].text, b + 1));
    assert ConsumeAt(ts, b + 1, OTHERWISE).Err?;
  }
}
