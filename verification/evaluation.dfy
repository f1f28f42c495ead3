/**
 * The meaning of a parsed program, as functions of the interpreter's state:
 * the variable table, the function table, the values printed so far, and
 * the lines of input together with how many of them have been read.
 *
 * Calls and `while` iterations each spend one unit of `fuel`; when none is
 * left the run ends with `OutOfFuel`, so every function here is total.
 *
 * An error carries the state the interpreter is in when it is raised: what
 * was printed and read before it stays printed and read, as it does when the
 * host language's exception ends the run.
 */
module Evaluation {
  import opened Wrappers
  import opened Lexing
  import opened Parsing
  import opened Values

  /** What a function declaration stores: its parameter names and its body. */
  datatype Closure = Closure(params: seq<string>, body: seq<Stmt>)

  datatype State = State(
    variables: map<string, Value>,
    functions: map<string, Closure>,
    output: seq<Value>,
    input: seq<string>,
    linesRead: nat)

  /** A result and the state after computing it. */
  datatype Outcome<+T> = Outcome(value: T, state: State)

  /** An error, and the state in which it is raised. */
  datatype Failure = Failure(error: Error, state: State)

  /** The state a computation ends in, with a result or with an error. */
  function Final<T>(r: Result<Outcome<T>, Failure>): State {
    if r.Ok? then r.value.state else r.error.state
  }

  /** The same, for a computation whose result is only a state. */
  function Reached(r: Result<State, Failure>): State {
    if r.Ok? then r.value else r.error.state
  }

  /** An error of an operation on values, raised in state `st`. */
  function Raise<T>(r: Result<T, Error>, st: State): Result<T, Failure> {
    if r.Ok? then Ok(r.value) else Err(Failure(r.error, st))
  }

  /** The run ended because the fuel did, not because of the program. */
  predicate RanOut<T>(r: Result<T, Failure>) {
    r.Err? && r.error.error == OutOfFuel
  }

  /** `after` is reachable from `before`: output only grows, and input is only read further. */
  predicate Follows(before: State, after: State) {
    before.output <= after.output && after.input == before.input && before.linesRead <= after.linesRead
  }

  // Sizes, for termination.

  function ExprSize(e: Expr): nat {
    match e
    case Number(_) => 1
    case Str(_) => 1
    case Variable(_) => 1
    case Index(target, index) => 1 + ExprSize(target) + ExprSize(index)
    case Call(callee, args) => 1 + ExprSize(callee) + ListSize(args)
    case Array(elements) => 1 + ListSize(elements)
    case Binary(_, left, right) => 1 + ExprSize(left) + ExprSize(right)
  }

  function ListSize(es: seq<Expr>): nat {
    if es == [] then 0 else ExprSize(es[0]) + ListSize(es[1..])
  }

  function StmtSize(s: Stmt): nat {
    match s
    case Assignment(_, value) => 1 + ExprSize(value)
    case Produce(value) => 1 + ExprSize(value)
    case Take(_) => 1
    case Incase(condition, thenBranch, elseBranch) => 1 + ExprSize(condition) + BlockSize(thenBranch) + BlockSize(elseBranch)
    case While(condition, body) => 1 + ExprSize(condition) + BlockSize(body)
    case Function(_, _, _) => 1
    case Return(value) => 1 + ExprSize(value)
  }

  function BlockSize(ss: seq<Stmt>): nat {
    if ss == [] then 0 else StmtSize(ss[0]) + BlockSize(ss[1..])
  }

  // Looking up the function a call names.

  /** The key a call looks up: a name, or a syntax node that may or may not be hashable. */
  datatype FunctionKey = Named(name: string) | Unnamed(hashable: bool)

  /** A syntax node can be a dictionary key unless it holds a list (the arguments of a call, the elements of an array). */
  predicate Hashable(e: Expr) {
    match e
    case Number(_) => true
    case Str(_) => true
    case Variable(_) => true
    case Index(target, index) => Hashable(target) && Hashable(index)
    case Call(_, _) => false
    case Array(_) => false
    case Binary(_, left, right) => Hashable(left) && Hashable(right)
  }

  /**
   * The second field of the callee's node: the name of a variable (or the
   * text of a literal); for an indexed callee, the node indexed; for a call,
   * the inner callee; for an array, its element list; for a binary node, its
   * operator token.
   */
  function KeyOf(callee: Expr): FunctionKey {
    match callee
    case Number(text) => Named(text)
    case Str(text) => Named(text)
    case Variable(name) => Named(name)
    case Index(target, _) => Unnamed(Hashable(target))
    case Call(inner, _) => Unnamed(Hashable(inner))
    case Array(_) => Unnamed(false)
    case Binary(_, _, _) => Unnamed(true)
  }

  /** The function table holds only names: any other hashable key is undefined, an unhashable one a type error. */
  function Lookup(functions: map<string, Closure>, key: FunctionKey): Result<Closure, Error> {
    match key
    case Named(name) => if name in functions then Ok(functions[name]) else Err(UndefinedFunction)
    case Unnamed(hashable) => if hashable then Err(UndefinedFunction) else Err(TypeError)
  }

  /** Binding parameters to arguments pairwise, in order, up to the shorter of the two lists. */
  function Bind(variables: map<string, Value>, params: seq<string>, args: seq<Value>): map<string, Value>
    decreases |params|
  {
    if params == [] || args == [] then variables
    else Bind(variables[params[0] := args[0]], params[1..], args[1..])
  }

  // Expressions. An expression never changes the variable table.

  function Eval(fuel: nat, st: State, e: Expr): (r: Result<Outcome<Value>, Failure>)
    ensures Final(r).variables == st.variables && Follows(st, Final(r))
    decreases fuel, ExprSize(e), 1
  {
    match e
    case Number(text) =>
      if IntOf(text).Some? then Ok(Outcome(IntValue(IntOf(text).value), st)) else Err(Failure(InvalidLiteral, st))
    case Str(text) => Ok(Outcome(StrValue(text), st))
    case Variable(name) =>
      if name in st.variables then Ok(Outcome(st.variables[name], st)) else Err(Failure(UnboundVariable(name), st))
    case Array(elements) =>
      var items :- EvalItems(fuel, st, elements, []);
      Ok(Outcome(ListValue(items.value), items.state))
    case Index(target, index) =>
      var indexed :- Eval(fuel, st, target);
      var subscript :- Eval(fuel, indexed.state, index);
      var element :- Raise(Subscript(indexed.value, subscript.value), subscript.state);
      Ok(Outcome(element, subscript.state))
    case Binary(op, left, right) =>
      var l :- Eval(fuel, st, left);
      var r :- Eval(fuel, l.state, right);
      var v :- Raise(Apply(op.kind, l.value, r.value), r.state);
      Ok(Outcome(v, r.state))
    case Call(callee, args) => EvalCall(fuel, st, callee, args)
  }

  /** The values of `es`, left to right, after the values `done` of the expressions before them. */
  function EvalItems(fuel: nat, st: State, es: seq<Expr>, done: seq<Value>): (r: Result<Outcome<seq<Value>>, Failure>)
    ensures r.Ok? ==> |r.value.value| == |done| + |es|
    ensures Final(r).variables == st.variables && Follows(st, Final(r))
    decreases fuel, ListSize(es), 2
  {
    if es == [] then Ok(Outcome(done, st))
    else
      var first :- Eval(fuel, st, es[0]);
      EvalItems(fuel, first.state, es[1..], done + [first.value])
  }

  /**
   * A call: the arguments, then the lookup, then the body run on the
   * caller's variables with the parameters bound; whatever the body did to
   * the variables is undone, on an error too, and what it did to the
   * function table stays.
   */
  function EvalCall(fuel: nat, st: State, callee: Expr, args: seq<Expr>): (r: Result<Outcome<Value>, Failure>)
    ensures Final(r).variables == st.variables && Follows(st, Final(r))
    decreases fuel, 1 + ExprSize(callee) + ListSize(args), 0
  {
    var arguments :- EvalItems(fuel, st, args, []);
    var closure :- Raise(Lookup(arguments.state.functions, KeyOf(callee)), arguments.state);
    Invoke(fuel, arguments.state, closure, arguments.value)
  }

  /**
   * The body of `closure` run on the caller's state with the parameters bound
   * to `arguments`; the caller's variables come back afterwards, on an error
   * too.
   */
  function Invoke(fuel: nat, caller: State, closure: Closure, arguments: seq<Value>): (r: Result<Outcome<Value>, Failure>)
    ensures Final(r).variables == caller.variables && Follows(caller, Final(r))
    decreases fuel, 0, 0
  {
    if fuel == 0 then Err(Failure(OutOfFuel, caller))
    else
      var ran := Run(fuel - 1, caller.(variables := Bind(caller.variables, closure.params, arguments)), closure.body);
      if ran.Err? then Err(Failure(ran.error.error, ran.error.state.(variables := caller.variables)))
      else
        var returned := ran.value;
        Ok(Outcome(if returned.value.Some? then returned.value.value else NoneValue, returned.state.(variables := caller.variables)))
  }

  // Statements. A statement yields `Some(v)` exactly when it is a `return`.

  function ExecStmt(fuel: nat, st: State, s: Stmt): (r: Result<Outcome<Option<Value>>, Failure>)
    ensures Follows(st, Final(r))
    ensures r.Ok? ==> (r.value.value.Some? <==> s.Return?)
    decreases fuel, StmtSize(s), 1
  {
    match s
    case Assignment(name, value) =>
      var v :- Eval(fuel, st, value);
      Ok(Outcome(None, v.state.(variables := v.state.variables[name := v.value])))
    case Produce(value) =>
      var v :- Eval(fuel, st, value);
      Ok(Outcome(None, v.state.(output := v.state.output + [v.value])))
    case Return(value) =>
      var v :- Eval(fuel, st, value);
      Ok(Outcome(Some(v.value), v.state))
    case Take(name) =>
      if st.linesRead >= |st.input| then Err(Failure(EndOfInput, st))
      else
        var line := st.input[st.linesRead];
        Ok(Outcome(None, st.(variables := st.variables[name := InputValue(line)], linesRead := st.linesRead + 1)))
    case Incase(condition, thenBranch, elseBranch) =>
      var c :- Eval(fuel, st, condition);
      var after :- ExecAll(fuel, c.state, if Truthy(c.value) then thenBranch else elseBranch);
      Ok(Outcome(None, after))
    case While(condition, body) =>
      var c :- Eval(fuel, st, condition);
      var after :- Loop(fuel, c.state, c.value, condition, body);
      Ok(Outcome(None, after))
    case Function(name, params, body) =>
      Ok(Outcome(None, st.(functions := st.functions[name := Closure(params, body)])))
  }

  /** The statements of an `incase` or `while` body, in order, whatever each one yields. */
  function ExecAll(fuel: nat, st: State, ss: seq<Stmt>): (r: Result<State, Failure>)
    ensures Follows(st, Reached(r))
    decreases fuel, BlockSize(ss), 2
  {
    if ss == [] then Ok(st)
    else
      var first :- ExecStmt(fuel, st, ss[0]);
      ExecAll(fuel, first.state, ss[1..])
  }

  /** A `while` loop whose condition has just evaluated to `v`: one more pass while it is true. */
  function Loop(fuel: nat, st: State, v: Value, condition: Expr, body: seq<Stmt>): (r: Result<State, Failure>)
    ensures Follows(st, Reached(r))
    decreases fuel, ExprSize(condition) + BlockSize(body), 3
  {
    if !Truthy(v) then Ok(st)
    else if fuel == 0 then Err(Failure(OutOfFuel, st))
    else Pass(fuel - 1, st, condition, body)
  }

  /** One pass of a `while` loop: the body, the condition again, and the loop on its new value. */
  function Pass(fuel: nat, st: State, condition: Expr, body: seq<Stmt>): (r: Result<State, Failure>)
    ensures Follows(st, Reached(r))
    decreases fuel, ExprSize(condition) + BlockSize(body), 4
  {
    var after :- ExecAll(fuel, st, body);
    var next :- Eval(fuel, after, condition);
    Loop(fuel, next.state, next.value, condition, body)
  }

  /**
   * A function body or the whole program: the statements in order until one
   * of them is a `return`, whose value is the result.
   */
  function Run(fuel: nat, st: State, ss: seq<Stmt>): (r: Result<Outcome<Option<Value>>, Failure>)
    ensures Follows(st, Final(r))
    decreases fuel, BlockSize(ss), 2
  {
    if ss == [] then Ok(Outcome(None, st))
    else
      var first :- ExecStmt(fuel, st, ss[0]);
      if first.value.Some? then Ok(first) else Run(fuel, first.state, ss[1..])
  }

  /** The state a program starts in: empty tables, nothing printed, no input read. */
  function Initial(input: seq<string>): State {
    State(map[], map[], [], input, 0)
  }
}
