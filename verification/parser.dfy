/**
 * The parser of AnuragLang (ang_modules/parser.py).
 *
 * A recursive-descent parser over the token list with a cursor that only
 * moves forward. The grammar is first written as functions of the token list
 * and a cursor position, each returning the node it builds and the position
 * after it, or the error `parse` would raise there; the class `Parser` then
 * runs the same grammar by moving its cursor field, one method per parsing
 * routine of the source, and each method is proved to agree with its
 * function.
 */
module Parsing {
  import opened Wrappers
  import opened Lexing

  /** Expression nodes: `number`, `string`, `variable`, `index`, `call`, `array`, `binary`. */
  datatype Expr =
    | Number(text: string)
    | Str(text: string)          // the token text, quotes included
    | Variable(name: string)
    | Index(target: Expr, index: Expr)
    | Call(callee: Expr, args: seq<Expr>)
    | Array(elements: seq<Expr>)
    | Binary(op: Token, left: Expr, right: Expr)  // the whole operator token, as `previous` returns it

  /** Statement nodes: `assignment`, `produce`, `take`, `incase`, `while`, `function`, `return`. */
  datatype Stmt =
    | Assignment(name: string, value: Expr)
    | Produce(value: Expr)
    | Take(name: string)
    | Incase(condition: Expr, thenBranch: seq<Stmt>, elseBranch: seq<Stmt>)
    | While(condition: Expr, body: seq<Stmt>)
    | Function(name: string, params: seq<string>, body: seq<Stmt>)
    | Return(value: Expr)

  /**
   * The three syntax errors the parser raises, with the token found in place
   * of the expected one (`None` past the last token, where `peek` yields
   * `None` fields).
   */
  datatype ParseError =
    | UnexpectedToken(found: Option<Token>)                    // no statement starts here
    | ExpectedToken(expected: TokenKind, found: Option<Token>) // `consume` failed
    | ExpectedExpression(found: Option<Token>)                 // no expression starts here

  /** A parsed node and the cursor position just after it. */
  datatype Parsed<+T> = Parsed(node: T, next: nat)

  // The cursor reads, as functions of the token list and the cursor.

  function PeekAt(ts: seq<Token>, pos: nat): Option<Token> {
    if pos < |ts| then Some(ts[pos]) else None
  }

  predicate CheckAt(ts: seq<Token>, pos: nat, kind: TokenKind) {
    pos < |ts| && ts[pos].kind == kind
  }

  predicate MatchAt(ts: seq<Token>, pos: nat, kinds: seq<TokenKind>) {
    pos < |ts| && ts[pos].kind in kinds
  }

  /** The operators every expression tier loops over, in the order `match` tries them. */
  const Operators: seq<TokenKind> := [PLUS, MINUS, MULTIPLY, DIVIDE, GT, LT, EQ]

  /** The tiers: `factor` loops over primaries, `term` over factors, `binary_expression` over terms. */
  const FactorTier: nat := 1
  const TermTier: nat := 2
  const BinaryTier: nat := 3

  /** A parse that succeeds consumes at least one token and stays within the list. */
  predicate Advanced<T>(ts: seq<Token>, pos: nat, r: Result<Parsed<T>, ParseError>) {
    r.Ok? ==> pos < r.value.next <= |ts|
  }

  /** A parse that succeeds leaves the cursor where it was or further on, within the list. */
  predicate Within<T>(ts: seq<Token>, pos: nat, r: Result<Parsed<T>, ParseError>) {
    r.Ok? ==> pos <= r.value.next <= |ts|
  }

  /** `consume`: the expected token's text and the position after it, or an error in place. */
  function ConsumeAt(ts: seq<Token>, pos: nat, kind: TokenKind): (r: Result<Parsed<string>, ParseError>)
    ensures r.Ok? ==> r.value.next == pos + 1 <= |ts|
  {
    if CheckAt(ts, pos, kind) then Ok(Parsed(ts[pos].text, pos + 1))
    else Err(ExpectedToken(kind, PeekAt(ts, pos)))
  }

  // Expressions. The second component of each `decreases` orders the
  // routines that call one another without consuming a token first.

  /** `expression`: the outermost tier. */
  function ExpressionAt(ts: seq<Token>, pos: nat): (r: Result<Parsed<Expr>, ParseError>)
    requires pos <= |ts|
    ensures Advanced(ts, pos, r)
    decreases |ts| - pos, 7
  {
    TierAt(BinaryTier, ts, pos)
  }

  /**
   * `factor`, `term` and `binary_expression`: one operand of the tier below
   * (a primary for `factor`), then the operator loop of `TierRest`.
   */
  function TierAt(level: nat, ts: seq<Token>, pos: nat): (r: Result<Parsed<Expr>, ParseError>)
    requires 1 <= level <= BinaryTier && pos <= |ts|
    ensures Advanced(ts, pos, r)
    decreases |ts| - pos, 2 * level
  {
    var first :- OperandAt(level, ts, pos);
    TierRestAt(level, ts, first.next, first.node)
  }

  /** The operand of a tier: a primary for `factor`, the tier below for the others. */
  function OperandAt(level: nat, ts: seq<Token>, pos: nat): (r: Result<Parsed<Expr>, ParseError>)
    requires 1 <= level <= BinaryTier && pos <= |ts|
    ensures Advanced(ts, pos, r)
    decreases |ts| - pos, 2 * level - 1
  {
    if level == FactorTier then PrimaryAt(ts, pos) else TierAt(level - 1, ts, pos)
  }

  /** The operator loop of a tier: while an operator follows, combine `left` with the next operand. */
  function TierRestAt(level: nat, ts: seq<Token>, pos: nat, left: Expr): (r: Result<Parsed<Expr>, ParseError>)
    requires 1 <= level <= BinaryTier && pos <= |ts|
    ensures Within(ts, pos, r)
    decreases |ts| - pos, 2 * level
  {
    if MatchAt(ts, pos, Operators) then
      var right :- OperandAt(level, ts, pos + 1);
      TierRestAt(level, ts, right.next, Binary(ts[pos], left, right.node))
    else
      Ok(Parsed(left, pos))
  }

  /** `primary`: a number, a string, an access chain with an optional call, a parenthesised expression or an array. */
  function PrimaryAt(ts: seq<Token>, pos: nat): (r: Result<Parsed<Expr>, ParseError>)
    requires pos <= |ts|
    ensures Advanced(ts, pos, r)
    decreases |ts| - pos, 0
  {
    if CheckAt(ts, pos, NUMBER) then Ok(Parsed(Number(ts[pos].text), pos + 1))
    else if CheckAt(ts, pos, STRING) then Ok(Parsed(Str(ts[pos].text), pos + 1))
    else if CheckAt(ts, pos, IDENTIFIER) then AccessAt(ts, pos + 1, Variable(ts[pos].text))
    else if CheckAt(ts, pos, LPAREN) then GroupAt(ts, pos + 1)
    else if CheckAt(ts, pos, LBRACKET) then ArrayAt(ts, pos + 1)
    else Err(ExpectedExpression(PeekAt(ts, pos)))
  }

  /** After an identifier: its index suffixes, then at most one argument list, after which nothing more is taken. */
  function AccessAt(ts: seq<Token>, pos: nat, variable: Expr): (r: Result<Parsed<Expr>, ParseError>)
    requires pos <= |ts|
    ensures Within(ts, pos, r)
    decreases |ts| - pos, 1
  {
    var target :- IndexesAt(ts, pos, variable);
    if CheckAt(ts, target.next, LPAREN) then CallAt(ts, target.next + 1, target.node) else Ok(target)
  }

  /** After the `(` of a call: the arguments and the closing `)`. */
  function CallAt(ts: seq<Token>, pos: nat, callee: Expr): (r: Result<Parsed<Expr>, ParseError>)
    requires pos <= |ts|
    ensures Advanced(ts, pos, r)
    decreases |ts| - pos, 10
  {
    var args :- ExpressionListAt(ts, pos, RPAREN);
    var close :- ConsumeAt(ts, args.next, RPAREN);
    Ok(Parsed(Call(callee, args.node), close.next))
  }

  /** After `(`: an expression and the closing `)`. */
  function GroupAt(ts: seq<Token>, pos: nat): (r: Result<Parsed<Expr>, ParseError>)
    requires pos <= |ts|
    ensures Advanced(ts, pos, r)
    decreases |ts| - pos, 8
  {
    var inner :- ExpressionAt(ts, pos);
    var close :- ConsumeAt(ts, inner.next, RPAREN);
    Ok(Parsed(inner.node, close.next))
  }

  /** After `[`: the elements and the closing `]`. */
  function ArrayAt(ts: seq<Token>, pos: nat): (r: Result<Parsed<Expr>, ParseError>)
    requires pos <= |ts|
    ensures Advanced(ts, pos, r)
    decreases |ts| - pos, 10
  {
    var elements :- ExpressionListAt(ts, pos, RBRACKET);
    var close :- ConsumeAt(ts, elements.next, RBRACKET);
    Ok(Parsed(Array(elements.node), close.next))
  }

  /** The `[expr]` suffixes after an identifier, each wrapping what came before. */
  function IndexesAt(ts: seq<Token>, pos: nat, target: Expr): (r: Result<Parsed<Expr>, ParseError>)
    requires pos <= |ts|
    ensures Within(ts, pos, r)
    decreases |ts| - pos, 0
  {
    if CheckAt(ts, pos, LBRACKET) then
      var index :- ExpressionAt(ts, pos + 1);
      var close :- ConsumeAt(ts, index.next, RBRACKET);
      IndexesAt(ts, close.next, Index(target, index.node))
    else
      Ok(Parsed(target, pos))
  }

  /** A comma-separated, possibly empty list of expressions, up to (not including) `close`. */
  function ExpressionListAt(ts: seq<Token>, pos: nat, close: TokenKind): (r: Result<Parsed<seq<Expr>>, ParseError>)
    requires pos <= |ts|
    ensures Within(ts, pos, r)
    decreases |ts| - pos, 9
  {
    if CheckAt(ts, pos, close) then Ok(Parsed([], pos)) else ExpressionsRestAt(ts, pos, [])
  }

  /** The `while True` loop of a list: an expression, then another after each comma. */
  function ExpressionsRestAt(ts: seq<Token>, pos: nat, items: seq<Expr>): (r: Result<Parsed<seq<Expr>>, ParseError>)
    requires pos <= |ts|
    ensures Advanced(ts, pos, r)
    decreases |ts| - pos, 8
  {
    var item :- ExpressionAt(ts, pos);
    if CheckAt(ts, item.next, COMMA) then ExpressionsRestAt(ts, item.next + 1, items + [item.node])
    else Ok(Parsed(items + [item.node], item.next))
  }

  // Statements.

  /** `statement`: the routine selected by the leading token; any other token is an error. */
  function StatementAt(ts: seq<Token>, pos: nat): (r: Result<Parsed<Stmt>, ParseError>)
    requires pos <= |ts|
    ensures Advanced(ts, pos, r)
    decreases |ts| - pos, 1
  {
    if pos == |ts| then Err(UnexpectedToken(None))
    else match ts[pos].kind
      case ASSUME => AssignmentStatementAt(ts, pos)
      case PRODUCE => ProduceStatementAt(ts, pos)
      case TAKE => TakeStatementAt(ts, pos)
      case INCASE => IncaseStatementAt(ts, pos)
      case WHILE => WhileStatementAt(ts, pos)
      case FUNCTION => FunctionStatementAt(ts, pos)
      case RETURN => ReturnStatementAt(ts, pos)
      case _ => Err(UnexpectedToken(Some(ts[pos])))
  }

  function AssignmentStatementAt(ts: seq<Token>, pos: nat): (r: Result<Parsed<Stmt>, ParseError>)
    requires pos <= |ts|
    ensures Advanced(ts, pos, r)
    decreases |ts| - pos, 0
  {
    var keyword :- ConsumeAt(ts, pos, ASSUME);
    var name :- ConsumeAt(ts, keyword.next, IDENTIFIER);
    var assign :- ConsumeAt(ts, name.next, ASSIGN);
    var value :- ExpressionAt(ts, assign.next);
    var semicolon :- ConsumeAt(ts, value.next, SEMICOLON);
    Ok(Parsed(Assignment(name.node, value.node), semicolon.next))
  }

  function ProduceStatementAt(ts: seq<Token>, pos: nat): (r: Result<Parsed<Stmt>, ParseError>)
    requires pos <= |ts|
    ensures Advanced(ts, pos, r)
    decreases |ts| - pos, 0
  {
    var keyword :- ConsumeAt(ts, pos, PRODUCE);
    var open :- ConsumeAt(ts, keyword.next, LPAREN);
    var value :- ExpressionAt(ts, open.next);
    var close :- ConsumeAt(ts, value.next, RPAREN);
    var semicolon :- ConsumeAt(ts, close.next, SEMICOLON);
    Ok(Parsed(Produce(value.node), semicolon.next))
  }

  function TakeStatementAt(ts: seq<Token>, pos: nat): (r: Result<Parsed<Stmt>, ParseError>)
    requires pos <= |ts|
    ensures Advanced(ts, pos, r)
    decreases |ts| - pos, 0
  {
    var keyword :- ConsumeAt(ts, pos, TAKE);
    var open :- ConsumeAt(ts, keyword.next, LPAREN);
    var name :- ConsumeAt(ts, open.next, IDENTIFIER);
    var close :- ConsumeAt(ts, name.next, RPAREN);
    var semicolon :- ConsumeAt(ts, close.next, SEMICOLON);
    Ok(Parsed(Take(name.node), semicolon.next))
  }

  /** `incase (c) { ... } otherwise { ... }`: the `otherwise` part is required. */
  function IncaseStatementAt(ts: seq<Token>, pos: nat): (r: Result<Parsed<Stmt>, ParseError>)
    requires pos <= |ts|
    ensures Advanced(ts, pos, r)
    decreases |ts| - pos, 0
  {
    var keyword :- ConsumeAt(ts, pos, INCASE);
    var open :- ConsumeAt(ts, keyword.next, LPAREN);
    var condition :- ExpressionAt(ts, open.next);
    var close :- ConsumeAt(ts, condition.next, RPAREN);
    var thenOpen :- ConsumeAt(ts, close.next, LBRACE);
    var thenBranch :- BlockAt(ts, thenOpen.next, []);
    var thenClose :- ConsumeAt(ts, thenBranch.next, RBRACE);
    var otherwise :- ConsumeAt(ts, thenClose.next, OTHERWISE);
    var elseOpen :- ConsumeAt(ts, otherwise.next, LBRACE);
    var elseBranch :- BlockAt(ts, elseOpen.next, []);
    var elseClose :- ConsumeAt(ts, elseBranch.next, RBRACE);
    Ok(Parsed(Incase(condition.node, thenBranch.node, elseBranch.node), elseClose.next))
  }

  function WhileStatementAt(ts: seq<Token>, pos: nat): (r: Result<Parsed<Stmt>, ParseError>)
    requires pos <= |ts|
    ensures Advanced(ts, pos, r)
    decreases |ts| - pos, 0
  {
    var keyword :- ConsumeAt(ts, pos, WHILE);
    var open :- ConsumeAt(ts, keyword.next, LPAREN);
    var condition :- ExpressionAt(ts, open.next);
    var close :- ConsumeAt(ts, condition.next, RPAREN);
    var bodyOpen :- ConsumeAt(ts, close.next, LBRACE);
    var body :- BlockAt(ts, bodyOpen.next, []);
    var bodyClose :- ConsumeAt(ts, body.next, RBRACE);
    Ok(Parsed(While(condition.node, body.node), bodyClose.next))
  }

  function FunctionStatementAt(ts: seq<Token>, pos: nat): (r: Result<Parsed<Stmt>, ParseError>)
    requires pos <= |ts|
    ensures Advanced(ts, pos, r)
    decreases |ts| - pos, 0
  {
    var keyword :- ConsumeAt(ts, pos, FUNCTION);
    var name :- ConsumeAt(ts, keyword.next, IDENTIFIER);
    var open :- ConsumeAt(ts, name.next, LPAREN);
    var params :- ParametersAt(ts, open.next);
    var close :- ConsumeAt(ts, params.next, RPAREN);
    var bodyOpen :- ConsumeAt(ts, close.next, LBRACE);
    var body :- BlockAt(ts, bodyOpen.next, []);
    var bodyClose :- ConsumeAt(ts, body.next, RBRACE);
    Ok(Parsed(Function(name.node, params.node, body.node), bodyClose.next))
  }

  /** A possibly empty, comma-separated list of parameter names, up to (not including) `)`. */
  function ParametersAt(ts: seq<Token>, pos: nat): (r: Result<Parsed<seq<string>>, ParseError>)
    requires pos <= |ts|
    ensures Within(ts, pos, r)
  {
    if CheckAt(ts, pos, RPAREN) then Ok(Parsed([], pos))
    else
      var first :- ConsumeAt(ts, pos, IDENTIFIER);
      ParametersRestAt(ts, first.next, [first.node])
  }

  /** The loop of `Parameters`: another name after each comma. */
  function ParametersRestAt(ts: seq<Token>, pos: nat, names: seq<string>): (r: Result<Parsed<seq<string>>, ParseError>)
    requires pos <= |ts|
    ensures Within(ts, pos, r)
    decreases |ts| - pos
  {
    if CheckAt(ts, pos, COMMA) then
      var name :- ConsumeAt(ts, pos + 1, IDENTIFIER);
      ParametersRestAt(ts, name.next, names + [name.node])
    else
      Ok(Parsed(names, pos))
  }

  function ReturnStatementAt(ts: seq<Token>, pos: nat): (r: Result<Parsed<Stmt>, ParseError>)
    requires pos <= |ts|
    ensures Advanced(ts, pos, r)
    decreases |ts| - pos, 0
  {
    var keyword :- ConsumeAt(ts, pos, RETURN);
    var value :- ExpressionAt(ts, keyword.next);
    var semicolon :- ConsumeAt(ts, value.next, SEMICOLON);
    Ok(Parsed(Return(value.node), semicolon.next))
  }

  /** `block`: statements up to a `}`, which it leaves in place. */
  function BlockAt(ts: seq<Token>, pos: nat, stmts: seq<Stmt>): (r: Result<Parsed<seq<Stmt>>, ParseError>)
    requires pos <= |ts|
    ensures Within(ts, pos, r)
    decreases |ts| - pos, 2
  {
    if CheckAt(ts, pos, RBRACE) then Ok(Parsed(stmts, pos))
    else
      var stmt :- StatementAt(ts, pos);
      BlockAt(ts, stmt.next, stmts + [stmt.node])
  }

  /** `parse`: statements until the tokens run out. */
  function ProgramAt(ts: seq<Token>, pos: nat, stmts: seq<Stmt>): (r: Result<seq<Stmt>, ParseError>)
    requires pos <= |ts|
    decreases |ts| - pos, 2
  {
    if pos == |ts| then Ok(stmts)
    else
      var stmt :- StatementAt(ts, pos);
      ProgramAt(ts, stmt.next, stmts + [stmt.node])
  }

  /** The parse of a whole token list, as `Parser(tokens).parse()` computes it. */
  function ParseTokens(ts: seq<Token>): Result<seq<Stmt>, ParseError> {
    ProgramAt(ts, 0, [])
  }

  /** A method's result and final cursor agree with the outcome of a grammar function. */
  predicate Agrees<T(==)>(r: Result<T, ParseError>, current: nat, spec: Result<Parsed<T>, ParseError>) {
    if spec.Ok? then r == Ok(spec.value.node) && current == spec.value.next else r == Err(spec.error)
  }

  /**
   * The parser object: the token list and a cursor into it. Every method
   * keeps the cursor within the list and never moves it back; a method that
   * raises leaves it wherever the failing step stopped.
   */
  class Parser {
    const tokens: seq<Token>
    var current: nat

    ghost predicate Valid()
      reads this
    {
      current <= |tokens|
    }

    constructor (tokens: seq<Token>)
      ensures this.tokens == tokens && current == 0 && Valid()
    {
      this.tokens := tokens;
      current := 0;
    }

    /** `advance`: steps past the current token unless at the end, and yields the token before the cursor. */
    method Advance() returns (t: Token)
      requires Valid() && 0 < |tokens|
      modifies this
      ensures Valid()
      ensures current == if old(current) < |tokens| then old(current) + 1 else old(current)
      ensures t == tokens[current - 1]
    {
      if current < |tokens| {
        current := current + 1;
      }
      t := tokens[current - 1];
    }

    /** `match`: tries the kinds in order and advances past the current token on the first that fits. */
    method Match(kinds: seq<TokenKind>) returns (matched: bool)
      requires Valid()
      modifies this
      ensures Valid() && matched == MatchAt(tokens, old(current), kinds)
      ensures current == if matched then old(current) + 1 else old(current)
    {
      for i := 0 to |kinds|
        invariant current == old(current)
        invariant forall j :: 0 <= j < i ==> !CheckAt(tokens, current, kinds[j])
      {
        if CheckAt(tokens, current, kinds[i]) {
          var _ := Advance();
          return true;
        }
      }
      return false;
    }

    /** `consume`: the text of the expected token, stepping past it; otherwise an error, in place. */
    method Consume(kind: TokenKind) returns (r: Result<string, ParseError>)
      requires Valid()
      modifies this
      ensures Valid() && Agrees(r, current, ConsumeAt(tokens, old(current), kind))
      ensures r.Err? ==> current == old(current)
    {
      if CheckAt(tokens, current, kind) {
        var t := Advance();
        return Ok(t.text);
      }
      return Err(ExpectedToken(kind, PeekAt(tokens, current)));
    }

    /** `parse`: statements until the cursor reaches the end of the list. */
    method Parse() returns (r: Result<seq<Stmt>, ParseError>)
      requires Valid()
      modifies this
      ensures Valid() && old(current) <= current
      ensures r == ProgramAt(tokens, old(current), [])
      ensures r.Ok? ==> current == |tokens|
    {
      var statements := [];
      while current < |tokens|
        invariant Valid() && old(current) <= current
        invariant ProgramAt(tokens, current, statements) == ProgramAt(tokens, old(current), [])
        decreases |tokens| - current
      {
        var stmt :- Statement();
        statements := statements + [stmt];
      }
      return Ok(statements);
    }

    method Statement() returns (r: Result<Stmt, ParseError>)
      requires Valid()
      modifies this
      ensures Valid() && old(current) <= current && Agrees(r, current, StatementAt(tokens, old(current)))
      decreases |tokens| - current, 1
    {
      var next := PeekAt(tokens, current);
      if next.None? {
        return Err(UnexpectedToken(None));
      }
      match next.value.kind
      case ASSUME => r := AssignmentStatement();
      case PRODUCE => r := ProduceStatement();
      case TAKE => r := TakeStatement();
      case INCASE => r := IncaseStatement();
      case WHILE => r := WhileStatement();
      case FUNCTION => r := FunctionStatement();
      case RETURN => r := ReturnStatement();
      case _ => r := Err(UnexpectedToken(next));
    }

    method AssignmentStatement() returns (r: Result<Stmt, ParseError>)
      requires Valid()
      modifies this
      ensures Valid() && old(current) <= current && Agrees(r, current, AssignmentStatementAt(tokens, old(current)))
      decreases |tokens| - current, 0
    {
      var keyword :- Consume(ASSUME);
      var name :- Consume(IDENTIFIER);
      var assign :- Consume(ASSIGN);
      var value :- Expression();
      var semicolon :- Consume(SEMICOLON);
      return Ok(Assignment(name, value));
    }

    method ProduceStatement() returns (r: Result<Stmt, ParseError>)
      requires Valid()
      modifies this
      ensures Valid() && old(current) <= current && Agrees(r, current, ProduceStatementAt(tokens, old(current)))
      decreases |tokens| - current, 0
    {
      var keyword :- Consume(PRODUCE);
      var open :- Consume(LPAREN);
      var value :- Expression();
      var close :- Consume(RPAREN);
      var semicolon :- Consume(SEMICOLON);
      return Ok(Produce(value));
    }

    method TakeStatement() returns (r: Result<Stmt, ParseError>)
      requires Valid()
      modifies this
      ensures Valid() && old(current) <= current && Agrees(r, current, TakeStatementAt(tokens, old(current)))
      decreases |tokens| - current, 0
    {
      var keyword :- Consume(TAKE);
      var open :- Consume(LPAREN);
      var name :- Consume(IDENTIFIER);
      var close :- Consume(RPAREN);
      var semicolon :- Consume(SEMICOLON);
      return Ok(Take(name));
    }

    method IncaseStatement() returns (r: Result<Stmt, ParseError>)
      requires Valid()
      modifies this
      ensures Valid() && old(current) <= current && Agrees(r, current, IncaseStatementAt(tokens, old(current)))
      decreases |tokens| - current, 0
    {
      var keyword :- Consume(INCASE);
      var open :- Consume(LPAREN);
      var condition :- Expression();
      var close :- Consume(RPAREN);
      var thenOpen :- Consume(LBRACE);
      var thenBranch :- Block();
      var thenClose :- Consume(RBRACE);
      var otherwise :- Consume(OTHERWISE);
      var elseOpen :- Consume(LBRACE);
      var elseBranch :- Block();
      var elseClose :- Consume(RBRACE);
      return Ok(Incase(condition, thenBranch, elseBranch));
    }

    method WhileStatement() returns (r: Result<Stmt, ParseError>)
      requires Valid()
      modifies this
      ensures Valid() && old(current) <= current && Agrees(r, current, WhileStatementAt(tokens, old(current)))
      decreases |tokens| - current, 0
    {
      var keyword :- Consume(WHILE);
      var open :- Consume(LPAREN);
      var condition :- Expression();
      var close :- Consume(RPAREN);
      var bodyOpen :- Consume(LBRACE);
      var body :- Block();
      var bodyClose :- Consume(RBRACE);
      return Ok(While(condition, body));
    }

    method FunctionStatement() returns (r: Result<Stmt, ParseError>)
      requires Valid()
      modifies this
      ensures Valid() && old(current) <= current && Agrees(r, current, FunctionStatementAt(tokens, old(current)))
      decreases |tokens| - current, 0
    {
      var keyword :- Consume(FUNCTION);
      var name :- Consume(IDENTIFIER);
      var open :- Consume(LPAREN);
      var parameters :- Parameters();
      var close :- Consume(RPAREN);
      var bodyOpen :- Consume(LBRACE);
      var body :- Block();
      var bodyClose :- Consume(RBRACE);
      return Ok(Function(name, parameters, body));
    }

    /** The parameter list of `function_statement`: unless `)` is next, a name, then another after each comma. */
    method Parameters() returns (r: Result<seq<string>, ParseError>)
      requires Valid()
      modifies this
      ensures Valid() && old(current) <= current && Agrees(r, current, ParametersAt(tokens, old(current)))
    {
      var parameters := [];
      if !CheckAt(tokens, current, RPAREN) {
        var first :- Consume(IDENTIFIER);
        parameters := [first];
        while true
          invariant Valid() && old(current) < current
          invariant ParametersRestAt(tokens, current, parameters) == ParametersAt(tokens, old(current))
          decreases |tokens| - current
        {
          var comma := Match([COMMA]);
          if !comma {
            break;
          }
          var parameter :- Consume(IDENTIFIER);
          parameters := parameters + [parameter];
        }
      }
      return Ok(parameters);
    }

    method ReturnStatement() returns (r: Result<Stmt, ParseError>)
      requires Valid()
      modifies this
      ensures Valid() && old(current) <= current && Agrees(r, current, ReturnStatementAt(tokens, old(current)))
      decreases |tokens| - current, 0
    {
      var keyword :- Consume(RETURN);
      var value :- Expression();
      var semicolon :- Consume(SEMICOLON);
      return Ok(Return(value));
    }

    /** `block`: statements until a `}`, which is left for the caller to consume. */
    method Block() returns (r: Result<seq<Stmt>, ParseError>)
      requires Valid()
      modifies this
      ensures Valid() && old(current) <= current && Agrees(r, current, BlockAt(tokens, old(current), []))
      decreases |tokens| - current, 2
    {
      var statements := [];
      while !CheckAt(tokens, current, RBRACE)
        invariant Valid() && old(current) <= current
        invariant BlockAt(tokens, current, statements) == BlockAt(tokens, old(current), [])
        decreases |tokens| - current
      {
        var stmt :- Statement();
        statements := statements + [stmt];
      }
      return Ok(statements);
    }

    method Expression() returns (r: Result<Expr, ParseError>)
      requires Valid()
      modifies this
      ensures Valid() && old(current) <= current && Agrees(r, current, ExpressionAt(tokens, old(current)))
      decreases |tokens| - current, 7
    {
      r := BinaryExpression();
    }

    /** `binary_expression`: terms joined by operators, grouped to the left. */
    method BinaryExpression() returns (r: Result<Expr, ParseError>)
      requires Valid()
      modifies this
      ensures Valid() && old(current) <= current && Agrees(r, current, TierAt(BinaryTier, tokens, old(current)))
      decreases |tokens| - current, 6
    {
      var expr :- Term();
      while true
        invariant Valid() && old(current) < current
        invariant TierRestAt(BinaryTier, tokens, current, expr) == TierAt(BinaryTier, tokens, old(current))
        decreases |tokens| - current
      {
        var more := Match(Operators);
        if !more {
          return Ok(expr);
        }
        var operator := tokens[current - 1];
        var right :- Term();
        expr := Binary(operator, expr, right);
      }
    }

    /** `term`: factors joined by operators, grouped to the left. */
    method Term() returns (r: Result<Expr, ParseError>)
      requires Valid()
      modifies this
      ensures Valid() && old(current) <= current && Agrees(r, current, TierAt(TermTier, tokens, old(current)))
      decreases |tokens| - current, 4
    {
      var expr :- Factor();
      while true
        invariant Valid() && old(current) < current
        invariant TierRestAt(TermTier, tokens, current, expr) == TierAt(TermTier, tokens, old(current))
        decreases |tokens| - current
      {
        var more := Match(Operators);
        if !more {
          return Ok(expr);
        }
        var operator := tokens[current - 1];
        var right :- Factor();
        expr := Binary(operator, expr, right);
      }
    }

    /** `factor`: primaries joined by operators, grouped to the left. */
    method Factor() returns (r: Result<Expr, ParseError>)
      requires Valid()
      modifies this
      ensures Valid() && old(current) <= current && Agrees(r, current, TierAt(FactorTier, tokens, old(current)))
      decreases |tokens| - current, 2
    {
      var expr :- Primary();
      while true
        invariant Valid() && old(current) < current
        invariant TierRestAt(FactorTier, tokens, current, expr) == TierAt(FactorTier, tokens, old(current))
        decreases |tokens| - current
      {
        var more := Match(Operators);
        if !more {
          return Ok(expr);
        }
        var operator := tokens[current - 1];
        var right :- Primary();
        expr := Binary(operator, expr, right);
      }
    }

    /**
     * `primary`: the first alternative whose leading token is next, or an
     * error. Each `self.match(K)` of the source is written out as the check
     * for `K` followed, when it holds, by `advance`, which is what `match`
     * does with a single kind.
     */
    method Primary() returns (r: Result<Expr, ParseError>)
      requires Valid()
      modifies this
      ensures Valid() && old(current) <= current && Agrees(r, current, PrimaryAt(tokens, old(current)))
      decreases |tokens| - current, 0
    {
      if CheckAt(tokens, current, NUMBER) {
        var number := Advance();
        return Ok(Number(number.text));
      }
      if CheckAt(tokens, current, STRING) {
        var text := Advance();
        return Ok(Str(text.text));
      }
      if CheckAt(tokens, current, IDENTIFIER) {
        var name := Advance();
        r := Access(Variable(name.text));
        return;
      }
      if CheckAt(tokens, current, LPAREN) {
        var open := Advance();
        r := Group();
        return;
      }
      if CheckAt(tokens, current, LBRACKET) {
        var open := Advance();
        r := ArrayLiteral();
        return;
      }
      return Err(ExpectedExpression(PeekAt(tokens, current)));
    }

    /** The identifier branch of `primary`: index suffixes, then an optional call that ends the primary. */
    method Access(variable: Expr) returns (r: Result<Expr, ParseError>)
      requires Valid()
      modifies this
      ensures Valid() && old(current) <= current && Agrees(r, current, AccessAt(tokens, old(current), variable))
      decreases |tokens| - current, 1
    {
      var expr :- Indexes(variable);
      var call := Match([LPAREN]);
      if call {
        ghost var goal := CallAt(tokens, current, expr);
        assert AccessAt(tokens, old(current), variable) == goal;
        var arguments :- ExpressionList(RPAREN);
        var close :- Consume(RPAREN);
        return Ok(Call(expr, arguments));
      }
      assert AccessAt(tokens, old(current), variable) == Ok(Parsed(expr, current));
      return Ok(expr);
    }

    /** The `(` branch of `primary`: the inner expression itself, without a node of its own. */
    method Group() returns (r: Result<Expr, ParseError>)
      requires Valid()
      modifies this
      ensures Valid() && old(current) <= current && Agrees(r, current, GroupAt(tokens, old(current)))
      decreases |tokens| - current, 8
    {
      var inner :- Expression();
      var close :- Consume(RPAREN);
      return Ok(inner);
    }

    /** The `[` branch of `primary`: an array of the listed elements. */
    method ArrayLiteral() returns (r: Result<Expr, ParseError>)
      requires Valid()
      modifies this
      ensures Valid() && old(current) <= current && Agrees(r, current, ArrayAt(tokens, old(current)))
      decreases |tokens| - current, 10
    {
      var elements :- ExpressionList(RBRACKET);
      var close :- Consume(RBRACKET);
      return Ok(Array(elements));
    }

    /** The `while self.match('LBRACKET')` loop of `primary`: index suffixes, each wrapping the target so far. */
    method Indexes(target: Expr) returns (r: Result<Expr, ParseError>)
      requires Valid()
      modifies this
      ensures Valid() && old(current) <= current && Agrees(r, current, IndexesAt(tokens, old(current), target))
      decreases |tokens| - current, 0
    {
      var expr := target;
      while true
        invariant Valid() && old(current) <= current
        invariant IndexesAt(tokens, current, expr) == IndexesAt(tokens, old(current), target)
        decreases |tokens| - current
      {
        var bracket := Match([LBRACKET]);
        if !bracket {
          return Ok(expr);
        }
        var index :- Expression();
        var close :- Consume(RBRACKET);
        expr := Index(expr, index);
      }
    }

    /**
     * The argument and element lists of `primary`: unless `close` is next,
     * an expression, then another after each comma.
     */
    method ExpressionList(close: TokenKind) returns (r: Result<seq<Expr>, ParseError>)
      requires Valid()
      modifies this
      ensures Valid() && old(current) <= current && Agrees(r, current, ExpressionListAt(tokens, old(current), close))
      decreases |tokens| - current, 9
    {
      var items := [];
      if !CheckAt(tokens, current, close) {
        while true
          invariant Valid() && old(current) <= current
          invariant ExpressionsRestAt(tokens, current, items) == ExpressionListAt(tokens, old(current), close)
          decreases |tokens| - current
        {
          var item :- Expression();
          items := items + [item];
          var comma := Match([COMMA]);
          if !comma {
            break;
          }
        }
      }
      return Ok(items);
    }
  }
}
