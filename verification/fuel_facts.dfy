/**
 * The fuel bound does not change what a program means. Fuel is spent one
 * unit per call and per `while` iteration; a run that ends in anything but
 * `OutOfFuel` ends the same way, with the same state, under every larger
 * budget. So `OutOfFuel` only ever says that the budget was too small.
 */
module FuelFacts {
  import opened Wrappers
  import opened Parsing
  import opened Values
  import opened Evaluation

  lemma {:induction false} EvalMonotone(f: nat, g: nat, st: State, e: Expr)
    requires f <= g
    ensures !RanOut(Eval(f, st, e)) ==> Eval(g, st, e) == Eval(f, st, e)
    decreases f, ExprSize(e), 1
  {
    match e
    case Number(_) =>
    case Str(_) =>
    case Variable(_) =>
    case Array(elements) =>
      ItemsMonotone(f, g, st, elements, []);
    case Index(target, index) =>
      EvalMonotone(f, g, st, target);
      var t := Eval(f, st, target);
      if t.Ok? {
        EvalMonotone(f, g, t.value.state, index);
      }
    case Binary(op, left, right) =>
      EvalMonotone(f, g, st, left);
      var l := Eval(f, st, left);
      if l.Ok? {
        EvalMonotone(f, g, l.value.state, right);
      }
    case Call(callee, args) =>
      CallMonotone(f, g, st, callee, args);
  }

  lemma {:induction false} ItemsMonotone(f: nat, g: nat, st: State, es: seq<Expr>, done: seq<Value>)
    requires f <= g
    ensures !RanOut(EvalItems(f, st, es, done)) ==> EvalItems(g, st, es, done) == EvalItems(f, st, es, done)
    decreases f, ListSize(es), 2
  {
    if es != [] {
      EvalMonotone(f, g, st, es[0]);
      var first := Eval(f, st, es[0]);
      if first.Ok? {
        ItemsMonotone(f, g, first.value.state, es[1..], done + [first.value.value]);
      }
    }
  }

  lemma {:induction false} CallMonotone(f: nat, g: nat, st: State, callee: Expr, args: seq<Expr>)
    requires f <= g
    ensures !RanOut(EvalCall(f, st, callee, args)) ==> EvalCall(g, st, callee, args) == EvalCall(f, st, callee, args)
    decreases f, 1 + ExprSize(callee) + ListSize(args), 0
  {
    ItemsMonotone(f, g, st, args, []);
    var arguments := EvalItems(f, st, args, []);
    if arguments.Ok? {
      var closure := Lookup(arguments.value.state.functions, KeyOf(callee));
      if closure.Ok? {
        InvokeMonotone(f, g, arguments.value.state, closure.value, arguments.value.value);
      }
    }
  }

  lemma {:induction false} InvokeMonotone(f: nat, g: nat, caller: State, closure: Closure, arguments: seq<Value>)
    requires f <= g
    ensures !RanOut(Invoke(f, caller, closure, arguments)) ==> Invoke(g, caller, closure, arguments) == Invoke(f, caller, closure, arguments)
    decreases f, 0, 0
  {
    if f != 0 {
      RunMonotone(f - 1, g - 1, caller.(variables := Bind(caller.variables, closure.params, arguments)), closure.body);
    }
  }

  lemma {:induction false} ExecStmtMonotone(f: nat, g: nat, st: State, s: Stmt)
    requires f <= g
    ensures !RanOut(ExecStmt(f, st, s)) ==> ExecStmt(g, st, s) == ExecStmt(f, st, s)
    decreases f, StmtSize(s), 1
  {
    match s
    case Assignment(_, value) =>
      EvalMonotone(f, g, st, value);
    case Produce(value) =>
      EvalMonotone(f, g, st, value);
    case Return(value) =>
      EvalMonotone(f, g, st, value);
    case Take(_) =>
    case Incase(condition, thenBranch, elseBranch) =>
      EvalMonotone(f, g, st, condition);
      var c := Eval(f, st, condition);
      if c.Ok? {
        ExecAllMonotone(f, g, c.value.state, if Truthy(c.value.value) then thenBranch else elseBranch);
      }
    case While(condition, body) =>
      EvalMonotone(f, g, st, condition);
      var c := Eval(f, st, condition);
      if c.Ok? {
        LoopMonotone(f, g, c.value.state, c.value.value, condition, body);
      }
    case Function(_, _, _) =>
  }

  lemma {:induction false} ExecAllMonotone(f: nat, g: nat, st: State, ss: seq<Stmt>)
    requires f <= g
    ensures !RanOut(ExecAll(f, st, ss)) ==> ExecAll(g, st, ss) == ExecAll(f, st, ss)
    decreases f, BlockSize(ss), 2
  {
    if ss != [] {
      ExecStmtMonotone(f, g, st, ss[0]);
      var first := ExecStmt(f, st, ss[0]);
      if first.Ok? {
        ExecAllMonotone(f, g, first.value.state, ss[1..]);
      }
    }
  }

  lemma {:induction false} LoopMonotone(f: nat, g: nat, st: State, v: Value, condition: Expr, body: seq<Stmt>)
    requires f <= g
    ensures !RanOut(Loop(f, st, v, condition, body)) ==> Loop(g, st, v, condition, body) == Loop(f, st, v, condition, body)
    decreases f, ExprSize(condition) + BlockSize(body), 3
  {
    if Truthy(v) && f != 0 {
      PassMonotone(f - 1, g - 1, st, condition, body);
    }
  }

  lemma {:induction false} PassMonotone(f: nat, g: nat, st: State, condition: Expr, body: seq<Stmt>)
    requires f <= g
    ensures !RanOut(Pass(f, st, condition, body)) ==> Pass(g, st, condition, body) == Pass(f, st, condition, body)
    decreases f, ExprSize(condition) + BlockSize(body), 4
  {
    ExecAllMonotone(f, g, st, body);
    var after := ExecAll(f, st, body);
    if after.Ok? {
      EvalMonotone(f, g, after.value, condition);
      var next := Eval(f, after.value, condition);
      if next.Ok? {
        LoopMonotone(f, g, next.value.state, next.value.value, condition, body);
      }
    }
  }

  /**
   * A body or a whole program that does not run out of fuel has the same
   * result, value and state alike, under every larger budget.
   */
  lemma {:induction false} RunMonotone(f: nat, g: nat, st: State, ss: seq<Stmt>)
    requires f <= g
    ensures !RanOut(Run(f, st, ss)) ==> Run(g, st, ss) == Run(f, st, ss)
    decreases f, BlockSize(ss), 2
  {
    if ss != [] {
      ExecStmtMonotone(f, g, st, ss[0]);
      var first := ExecStmt(f, st, ss[0]);
      if first.Ok? && first.value.value.None? {
        RunMonotone(f, g, first.value.state, ss[1..]);
      }
    }
  }
}
