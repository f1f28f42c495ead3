/**
 * The tree-walking interpreter as an object: its variable and function
 * tables, its output and its input are fields that the evaluation methods
 * update in place. Each method is proved to do what the functions of
 * `Evaluation` say.
 */
module Interpreting {
  import opened Wrappers
  import opened Lexing
  import opened Parsing
  import opened Values
  import opened Evaluation

  /**
   * A method's result and new state are those of `spec`; on an error, the
   * fields hold the state the error was raised in, what was printed before it
   * included.
   */
  predicate Computes<T(==)>(r: Result<T, Error>, now: State, spec: Result<Outcome<T>, Failure>) {
    if spec.Ok? then r == Ok(spec.value.value) && now == spec.value.state
    else r == Err(spec.error.error) && now == spec.error.state
  }

  /** The same, for a method that computes no value, only a new state. */
  predicate Reaches(r: Result<(), Error>, now: State, spec: Result<State, Failure>) {
    if spec.Ok? then r == Ok(()) && now == spec.value
    else r == Err(spec.error.error) && now == spec.error.state
  }

  class Interpreter {
    const ast: seq<Stmt>
    var variables: map<string, Value>
    var functions: map<string, Closure>
    /** What `produce` has printed, in order. */
    var output: seq<Value>
    /** The lines `take` reads, and how many it has read. */
    const input: seq<string>
    var linesRead: nat

    function Snapshot(): State
      reads this
    {
      State(variables, functions, output, input, linesRead)
    }

    constructor (ast: seq<Stmt>, input: seq<string>)
      ensures this.ast == ast && Snapshot() == Initial(input)
    {
      this.ast := ast;
      this.input := input;
      variables := map[];
      functions := map[];
      output := [];
      linesRead := 0;
    }

    /** `interpret`: the program's statements, stopping at a top-level `return`, whose value is the result. */
    method Interpret(fuel: nat) returns (r: Result<Option<Value>, Error>)
      modifies this
      ensures Computes(r, Snapshot(), Run(fuel, old(Snapshot()), ast))
    {
      r := RunBody(fuel, ast);
    }

    /** The loop of `interpret` and of a call: statements in order until a `return`. */
    method RunBody(fuel: nat, body: seq<Stmt>) returns (r: Result<Option<Value>, Error>)
      modifies this
      ensures Computes(r, Snapshot(), Run(fuel, old(Snapshot()), body))
      decreases fuel, BlockSize(body), 2
    {
      var rest := body;
      while rest != []
        invariant BlockSize(rest) <= BlockSize(body)
        invariant Run(fuel, Snapshot(), rest) == Run(fuel, old(Snapshot()), body)
        decreases |rest|
      {
        var result :- Execute(fuel, rest[0]);
        if result.Some? {
          return Ok(result);
        }
        rest := rest[1..];
      }
      return Ok(None);
    }

    /** `evaluate` on a statement: `Some(v)` for a `return`, `None` for the others. */
    method Execute(fuel: nat, s: Stmt) returns (r: Result<Option<Value>, Error>)
      modifies this
      ensures Computes(r, Snapshot(), ExecStmt(fuel, old(Snapshot()), s))
      decreases fuel, StmtSize(s), 1
    {
      match s
      case Assignment(name, value) =>
        var v :- Evaluate(fuel, value);
        variables := variables[name := v];
        return Ok(None);
      case Produce(value) =>
        var v :- Evaluate(fuel, value);
        output := output + [v];
        return Ok(None);
      case Return(value) =>
        var v :- Evaluate(fuel, value);
        return Ok(Some(v));
      case Take(name) =>
        if linesRead >= |input| {
          return Err(EndOfInput);
        }
        var line := input[linesRead];
        linesRead := linesRead + 1;
        variables := variables[name := InputValue(line)];
        return Ok(None);
      case Incase(condition, thenBranch, elseBranch) =>
        r := ExecuteIncase(fuel, condition, thenBranch, elseBranch);
      case While(condition, body) =>
        r := ExecuteWhile(fuel, condition, body);
      case Function(name, params, body) =>
        functions := functions[name := Closure(params, body)];
        return Ok(None);
    }

    /** `incase`: the condition, then the statements of one branch, whatever they yield. */
    method ExecuteIncase(fuel: nat, condition: Expr, thenBranch: seq<Stmt>, elseBranch: seq<Stmt>)
      returns (r: Result<Option<Value>, Error>)
      modifies this
      ensures Computes(r, Snapshot(), ExecStmt(fuel, old(Snapshot()), Incase(condition, thenBranch, elseBranch)))
      decreases fuel, StmtSize(Incase(condition, thenBranch, elseBranch)), 0
    {
      var c :- Evaluate(fuel, condition);
      if Truthy(c) {
        var done :- ExecuteAll(fuel, thenBranch);
      } else {
        var done :- ExecuteAll(fuel, elseBranch);
      }
      return Ok(None);
    }

    /** `while`: the condition is evaluated again after every pass over the body. */
    method ExecuteWhile(fuel: nat, condition: Expr, body: seq<Stmt>) returns (r: Result<Option<Value>, Error>)
      modifies this
      ensures Computes(r, Snapshot(), ExecStmt(fuel, old(Snapshot()), While(condition, body)))
      decreases fuel, StmtSize(While(condition, body)), 0
    {
      var c :- Evaluate(fuel, condition);
      ghost var entry, first := Snapshot(), c;
      var f: nat := fuel;
      while Truthy(c)
        invariant f <= fuel
        invariant Loop(f, Snapshot(), c, condition, body) == Loop(fuel, entry, first, condition, body)
        decreases f
      {
        if f == 0 {
          return Err(OutOfFuel);
        }
        f := f - 1;
        var done :- ExecuteAll(f, body);
        c :- Evaluate(f, condition);
      }
      return Ok(None);
    }

    /** The `for` loop over the statements of an `incase` or `while` body. */
    method ExecuteAll(fuel: nat, ss: seq<Stmt>) returns (r: Result<(), Error>)
      modifies this
      ensures Reaches(r, Snapshot(), ExecAll(fuel, old(Snapshot()), ss))
      decreases fuel, BlockSize(ss), 2
    {
      var rest := ss;
      while rest != []
        invariant BlockSize(rest) <= BlockSize(ss)
        invariant ExecAll(fuel, Snapshot(), rest) == ExecAll(fuel, old(Snapshot()), ss)
        decreases |rest|
      {
        var discarded :- Execute(fuel, rest[0]);
        rest := rest[1..];
      }
      return Ok(());
    }

    /** `evaluate` on an expression. Whatever happens, the variable table is as it was. */
    method Evaluate(fuel: nat, e: Expr) returns (r: Result<Value, Error>)
      modifies this
      ensures Computes(r, Snapshot(), Eval(fuel, old(Snapshot()), e))
      ensures variables == old(variables)
      decreases fuel, ExprSize(e), 1
    {
      match e
      case Number(text) =>
        var n := IntOf(text);
        if n.None? {
          return Err(InvalidLiteral);
        }
        return Ok(IntValue(n.value));
      case Str(text) =>
        return Ok(StrValue(text));
      case Variable(name) =>
        if name !in variables {
          return Err(UnboundVariable(name));
        }
        return Ok(variables[name]);
      case Array(elements) =>
        var items :- EvaluateAll(fuel, elements);
        return Ok(ListValue(items));
      case Index(target, index) =>
        var indexed :- Evaluate(fuel, target);
        var subscript :- Evaluate(fuel, index);
        r := Subscript(indexed, subscript);
      case Binary(op, left, right) =>
        var l :- Evaluate(fuel, left);
        var rv :- Evaluate(fuel, right);
        r := Apply(op.kind, l, rv);
      case Call(callee, args) =>
        r := CallFunction(fuel, callee, args);
    }

    /** The values of a list of expressions, left to right. */
    method EvaluateAll(fuel: nat, es: seq<Expr>) returns (r: Result<seq<Value>, Error>)
      modifies this
      ensures Computes(r, Snapshot(), EvalItems(fuel, old(Snapshot()), es, []))
      ensures variables == old(variables)
      decreases fuel, ListSize(es), 2
    {
      var values := [];
      var rest := es;
      while rest != []
        invariant ListSize(rest) <= ListSize(es)
        invariant variables == old(variables)
        invariant EvalItems(fuel, Snapshot(), rest, values) == EvalItems(fuel, old(Snapshot()), es, [])
        decreases |rest|
      {
        var v :- Evaluate(fuel, rest[0]);
        values := values + [v];
        rest := rest[1..];
      }
      return Ok(values);
    }

    /**
     * A call: the arguments, the lookup, then the body on the caller's
     * variables with the parameters bound. The variables are put back on
     * every way out, an error included.
     */
    method CallFunction(fuel: nat, callee: Expr, args: seq<Expr>) returns (r: Result<Value, Error>)
      modifies this
      ensures Computes(r, Snapshot(), EvalCall(fuel, old(Snapshot()), callee, args))
      ensures variables == old(variables)
      decreases fuel, 1 + ExprSize(callee) + ListSize(args), 0
    {
      var arguments :- EvaluateAll(fuel, args);
      var closure :- Lookup(functions, KeyOf(callee));
      if fuel == 0 {
        return Err(OutOfFuel);
      }
      var backup := variables;
      variables := Bind(variables, closure.params, arguments);
      var result := RunBody(fuel - 1, closure.body);
      variables := backup;
      match result
      case Ok(returned) =>
        return Ok(if returned.Some? then returned.value else NoneValue);
      case Err(error) =>
        return Err(error);
    }
  }
}
