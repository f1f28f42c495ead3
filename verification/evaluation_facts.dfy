/**
 * Properties of the evaluation functions: what each statement changes, how
 * parameters are bound, that a call puts the variables back but keeps the
 * functions it declared, that `return` counts only as a direct statement of
 * a body, and how `incase` and `while` choose what to run.
 */
module EvaluationFacts {
  import opened Wrappers
  import opened Lexing
  import opened Parsing
  import opened Values
  import opened Evaluation

  // Assignment and declarations.

  /**
   * An assignment changes the variable table only at its own name, to the
   * value of its right-hand side, which was computed first.
   */
  lemma {:induction false} AssignmentSetsOneVariable(fuel: nat, st: State, name: string, e: Expr)
    ensures var r := ExecStmt(fuel, st, Assignment(name, e));
      var v := Eval(fuel, st, e);
      (v.Err? ==> r == Err(v.error)) &&
      (v.Ok? ==> r.Ok? && r.value.state.variables == st.variables[name := v.value.value] &&
                 r.value.state.functions == v.value.state.functions && r.value.state.output == v.value.state.output)
  {
  }

  /** An expression without calls */
  predicate CallFree(e: Expr) {
    match e
    case Number(_) => true
    case Str(_) => true
    case Variable(_) => true
    case Index(target, index) => CallFree(target) && CallFree(index)
    case Call(_, _) => false
    case Array(elements) => forall k :: 0 <= k < |elements| ==> CallFree(elements[k])
    case Binary(_, left, right) => CallFree(left) && CallFree(right)
  }

  /** An expression without calls changes nothing: tables, output and input are as they were. */
  lemma {:induction false} CallFreeKeepsState(fuel: nat, st: State, e: Expr)
    requires CallFree(e)
    ensures var r := Eval(fuel, st, e); r.Ok? ==> r.value.state == st
    decreases ExprSize(e), 0
  {
    match e
    case Number(_) =>
    case Str(_) =>
    case Variable(_) =>
    case Index(target, index) =>
      CallFreeKeepsState(fuel, st, target);
      CallFreeKeepsState(fuel, st, index);
    case Array(elements) =>
      CallFreeItemsKeepState(fuel, st, elements, []);
    case Binary(_, left, right) =>
      CallFreeKeepsState(fuel, st, left);
      CallFreeKeepsState(fuel, st, right);
  }

  lemma {:induction false} CallFreeItemsKeepState(fuel: nat, st: State, es: seq<Expr>, done: seq<Value>)
    requires forall k :: 0 <= k < |es| ==> CallFree(es[k])
    ensures var r := EvalItems(fuel, st, es, done); r.Ok? ==> r.value.state == st
    decreases ListSize(es), 1
  {
    if es != [] {
      CallFreeKeepsState(fuel, st, es[0]);
      var first := Eval(fuel, st, es[0]);
      if first.Ok? {
        CallFreeItemsKeepState(fuel, st, es[1..], done + [first.value.value]);
      }
    }
  }

  /** With a right-hand side without calls, an assignment leaves everything but its variable alone. */
  lemma {:induction false} PlainAssignment(fuel: nat, st: State, name: string, e: Expr)
    requires CallFree(e) && Eval(fuel, st, e).Ok?
    ensures ExecStmt(fuel, st, Assignment(name, e)) ==
      Ok(Outcome(None, st.(variables := st.variables[name := Eval(fuel, st, e).value.value])))
  {
    CallFreeKeepsState(fuel, st, e);
  }

  /** A declaration stores the closure under its name without running it; a later one replaces it. */
  lemma {:induction false} DeclarationOverwrites(fuel: nat, st: State, name: string, p1: seq<string>, b1: seq<Stmt>, p2: seq<string>, b2: seq<Stmt>)
    ensures ExecStmt(fuel, st, Function(name, p1, b1)) ==
      Ok(Outcome(None, st.(functions := st.functions[name := Closure(p1, b1)])))
    ensures Run(fuel, st, [Function(name, p1, b1), Function(name, p2, b2)]) ==
      Ok(Outcome(None, st.(functions := st.functions[name := Closure(p2, b2)])))
  {
    var s1 := st.(functions := st.functions[name := Closure(p1, b1)]);
    var s2 := s1.(functions := s1.functions[name := Closure(p2, b2)]);
    assert s1.functions[name := Closure(p2, b2)] == st.functions[name := Closure(p2, b2)];
    assert [Function(name, p1, b1), Function(name, p2, b2)][1..] == [Function(name, p2, b2)];
    assert Run(fuel, s1, [Function(name, p2, b2)]) == Ok(Outcome(None, s2)) by {
      assert [Function(name, p2, b2)][1..] == [];
    }
  }

  // Parameter binding.

  function Min(a: nat, b: nat): nat { if a <= b then a else b }

  /** `zip` binds the first `Min(|params|, |args|)` parameters; extra arguments or parameters play no part. */
  lemma {:induction false} BindTruncates(variables: map<string, Value>, params: seq<string>, args: seq<Value>)
    ensures var m := Min(|params|, |args|); Bind(variables, params, args) == Bind(variables, params[..m], args[..m])
    decreases |params|
  {
    var m := Min(|params|, |args|);
    if m > 0 {
      BindTruncates(variables[params[0] := args[0]], params[1..], args[1..]);
      assert params[1..][..m - 1] == params[..m][1..];
      assert args[1..][..m - 1] == args[..m][1..];
    }
  }

  /** A name that is not among the bound parameters keeps its binding, or stays unbound. */
  lemma {:induction false} BindKeepsOthers(variables: map<string, Value>, params: seq<string>, args: seq<Value>, x: string)
    requires x !in params[..Min(|params|, |args|)]
    ensures var bound := Bind(variables, params, args);
      (x in bound <==> x in variables) && (x in variables ==> bound[x] == variables[x])
    decreases |params|
  {
    var m := Min(|params|, |args|);
    if m > 0 {
      assert params[0] == params[..m][0];
      assert params[1..][..m - 1] == params[..m][1..];
      BindKeepsOthers(variables[params[0] := args[0]], params[1..], args[1..], x);
    }
  }

  /** A bound parameter that is not repeated later holds its argument. */
  lemma {:induction false} BindSetsParameter(variables: map<string, Value>, params: seq<string>, args: seq<Value>, i: nat)
    requires i < |params| && i < |args| && params[i] !in params[i + 1..Min(|params|, |args|)]
    ensures var bound := Bind(variables, params, args); params[i] in bound && bound[params[i]] == args[i]
    decreases |params|
  {
    var m := Min(|params|, |args|);
    assert Min(|params[1..]|, |args[1..]|) == m - 1;
    if i == 0 {
      var first := variables[params[0] := args[0]];
      assert params[1..][..m - 1] == params[1..m] by {
        forall k | 0 <= k < m - 1 ensures params[1..][..m - 1][k] == params[1..m][k] { }
      }
      BindKeepsOthers(first, params[1..], args[1..], params[0]);
    } else {
      assert params[1..][i..m - 1] == params[i + 1..m];
      assert params[1..][i - 1] == params[i] && args[1..][i - 1] == args[i];
      BindSetsParameter(variables[params[0] := args[0]], params[1..], args[1..], i - 1);
    }
  }

  // Calls.

  /**
   * The arguments come first: an argument's error is the call's error even
   * when no such function exists; with all arguments evaluated, an unknown
   * name is an undefined-function error and an unhashable key a type error,
   * raised in the state the arguments left.
   */
  lemma {:induction false} ArgumentsBeforeLookup(fuel: nat, st: State, callee: Expr, args: seq<Expr>)
    ensures var a := EvalItems(fuel, st, args, []);
      (a.Err? ==> EvalCall(fuel, st, callee, args) == Err(a.error)) &&
      (a.Ok? && KeyOf(callee).Named? && KeyOf(callee).name !in a.value.state.functions ==>
         EvalCall(fuel, st, callee, args) == Err(Failure(UndefinedFunction, a.value.state))) &&
      (a.Ok? && KeyOf(callee) == Unnamed(false) ==> EvalCall(fuel, st, callee, args) == Err(Failure(TypeError, a.value.state))) &&
      (a.Ok? && KeyOf(callee) == Unnamed(true) ==> EvalCall(fuel, st, callee, args) == Err(Failure(UndefinedFunction, a.value.state)))
  {
  }

  /**
   * A call puts the caller's variables back and keeps the body's other
   * effects: a function whose body declares another leaves that
   * declaration behind.
   */
  lemma {:induction false} DeclarationsInCallsPersist(fuel: nat, st: State, f: string, g: string, params: seq<string>, body: seq<Stmt>)
    requires fuel > 0 && f in st.functions && st.functions[f] == Closure([], [Function(g, params, body)])
    ensures EvalCall(fuel, st, Variable(f), []) ==
      Ok(Outcome(NoneValue, st.(functions := st.functions[g := Closure(params, body)])))
  {
    var declared := st.(functions := st.functions[g := Closure(params, body)]);
    assert [Function(g, params, body)][1..] == [];
    assert Run(fuel - 1, st, [Function(g, params, body)]) == Ok(Outcome(None, declared));
  }

  /** A body without a direct `return` statement. */
  predicate NoDirectReturn(ss: seq<Stmt>) {
    forall k :: 0 <= k < |ss| ==> !ss[k].Return?
  }

  /**
   * A body without a direct `return` runs exactly like the body of an
   * `incase` or `while` and yields nothing, whatever returns it holds inside
   * them.
   */
  lemma {:induction false} NoDirectReturnYieldsNothing(fuel: nat, st: State, ss: seq<Stmt>)
    requires NoDirectReturn(ss)
    ensures Run(fuel, st, ss) == (var after :- ExecAll(fuel, st, ss); Ok(Outcome(None, after)))
    decreases |ss|
  {
    if ss != [] {
      var first := ExecStmt(fuel, st, ss[0]);
      if first.Ok? {
        NoDirectReturnYieldsNothing(fuel, first.value.state, ss[1..]);
      }
    }
  }

  /** A `return` inside an `incase` does not end the call: the call yields none. */
  lemma {:induction false} NestedReturnIsDiscarded(fuel: nat, st: State, f: string, condition: Expr, e: Expr, otherwise: seq<Stmt>)
    requires f in st.functions && st.functions[f] == Closure([], [Incase(condition, [Return(e)], otherwise)])
    ensures var r := EvalCall(fuel, st, Variable(f), []); r.Ok? ==> r.value.value == NoneValue
  {
    if fuel > 0 {
      NoDirectReturnYieldsNothing(fuel - 1, st, [Incase(condition, [Return(e)], otherwise)]);
    }
  }

  /** A `return` at the top of a body ends it: whatever follows is never run. */
  lemma {:induction false} ReturnEndsBody(fuel: nat, st: State, e: Expr, rest: seq<Stmt>)
    ensures Run(fuel, st, [Return(e)] + rest) == (var v :- Eval(fuel, st, e); Ok(Outcome(Some(v.value), v.state)))
  {
    assert ([Return(e)] + rest)[0] == Return(e);
  }

  // Expressions.

  /**
   * The left operand is evaluated first: its error is the error of the
   * whole expression, whatever the right operand would have done.
   */
  lemma {:induction false} LeftOperandFirst(fuel: nat, st: State, op: Token, left: Expr, right: Expr)
    ensures var l := Eval(fuel, st, left);
      (l.Err? ==> Eval(fuel, st, Binary(op, left, right)) == Err(l.error)) &&
      (l.Ok? && Eval(fuel, l.value.state, right).Err? ==> Eval(fuel, st, Binary(op, left, right)) == Err(Eval(fuel, l.value.state, right).error))
  {
  }

  /**
   * Reading a variable yields its value or an unbound-variable error, and
   * subscripting with call-free operands yields `Subscript` of their values.
   */
  lemma {:induction false} ReadingAndIndexing(fuel: nat, st: State, name: string, target: Expr, index: Expr)
    ensures Eval(fuel, st, Variable(name)) ==
      if name in st.variables then Ok(Outcome(st.variables[name], st)) else Err(Failure(UnboundVariable(name), st))
    ensures CallFree(target) && CallFree(index) && Eval(fuel, st, target).Ok? && Eval(fuel, st, index).Ok? ==>
      var s := Subscript(Eval(fuel, st, target).value.value, Eval(fuel, st, index).value.value);
      Eval(fuel, st, Index(target, index)) == if s.Ok? then Ok(Outcome(s.value, st)) else Err(Failure(s.error, st))
  {
    if CallFree(target) && CallFree(index) && Eval(fuel, st, target).Ok? {
      CallFreeKeepsState(fuel, st, target);
      CallFreeKeepsState(fuel, st, index);
    }
  }

  // Control flow.

  /**
   * `incase` runs exactly one branch, chosen by the truth of its condition:
   * the other branch can be anything at all; an error in the condition is
   * the statement's error.
   */
  lemma {:induction false} IncaseRunsOneBranch(fuel: nat, st: State, condition: Expr, thenBranch: seq<Stmt>, elseBranch: seq<Stmt>, other: seq<Stmt>)
    ensures var c := Eval(fuel, st, condition);
      (c.Err? ==> ExecStmt(fuel, st, Incase(condition, thenBranch, elseBranch)) == Err(c.error)) &&
      (c.Ok? && Truthy(c.value.value) ==>
         ExecStmt(fuel, st, Incase(condition, thenBranch, elseBranch)) == ExecStmt(fuel, st, Incase(condition, thenBranch, other))) &&
      (c.Ok? && !Truthy(c.value.value) ==>
         ExecStmt(fuel, st, Incase(condition, thenBranch, elseBranch)) == ExecStmt(fuel, st, Incase(condition, other, elseBranch)))
  {
  }

  /**
   * `while c { b }` is `incase (c) { b; while c { b } } otherwise { }`: the
   * condition is evaluated before every pass, and each pass spends a unit
   * of fuel.
   */
  lemma {:induction false} WhileUnrolls(fuel: nat, st: State, condition: Expr, body: seq<Stmt>)
    ensures ExecStmt(fuel, st, While(condition, body)) ==
      (var c :- Eval(fuel, st, condition);
       if !Truthy(c.value) then Ok(Outcome(None, c.state))
       else if fuel == 0 then Err(Failure(OutOfFuel, c.state))
       else
         var after :- ExecAll(fuel - 1, c.state, body);
         ExecStmt(fuel - 1, after, While(condition, body)))
  {
    var c := Eval(fuel, st, condition);
    if c.Ok? && Truthy(c.value.value) && fuel != 0 {
      assert Loop(fuel, c.value.state, c.value.value, condition, body) == Pass(fuel - 1, c.value.state, condition, body);
    }
  }

  // Input and output.

  /** `produce` of an expression without calls appends exactly its value to the output and changes nothing else. */
  lemma {:induction false} ProduceAppends(fuel: nat, st: State, e: Expr)
    requires CallFree(e)
    ensures var r := ExecStmt(fuel, st, Produce(e)); var v := Eval(fuel, st, e);
      (v.Err? ==> r == Err(v.error)) &&
      (v.Ok? ==> r == Ok(Outcome(None, st.(output := st.output + [v.value.value]))))
  {
    CallFreeKeepsState(fuel, st, e);
  }

  /**
   * What `produce` printed stays printed, whatever comes after it: a run of
   * `produce(e); rest` ends, with a result or with an error, with an output
   * that begins with `e`'s value appended.
   */
  lemma {:induction false} PrintedOutputSurvives(fuel: nat, st: State, e: Expr, rest: seq<Stmt>)
    requires Eval(fuel, st, e).Ok?
    ensures var v := Eval(fuel, st, e).value;
      v.state.output + [v.value] <= Final(Run(fuel, st, [Produce(e)] + rest)).output
  {
    var ss := [Produce(e)] + rest;
    assert ss[0] == Produce(e) && ss[1..] == rest;
  }

  /** `produce(1); produce(x);` with `x` unbound prints 1 and then fails, with the 1 printed. */
  lemma {:induction false} PrintThenFail(fuel: nat, st: State, x: string)
    requires x !in st.variables
    ensures Run(fuel, st, [Produce(Number("1")), Produce(Variable(x))]) ==
      Err(Failure(UnboundVariable(x), st.(output := st.output + [IntValue(1)])))
  {
    assert IntOf("1") == Some(1) by {
      assert AllDigits("1") && "1"[..0] == [];
    }
    var printed := st.(output := st.output + [IntValue(1)]);
    assert Eval(fuel, st, Number("1")) == Ok(Outcome(IntValue(1), st));
    assert ExecStmt(fuel, st, Produce(Number("1"))) == Ok(Outcome(None, printed));
    assert x !in printed.variables;
    assert ExecStmt(fuel, printed, Produce(Variable(x))) == Err(Failure(UnboundVariable(x), printed));
    var ss := [Produce(Number("1")), Produce(Variable(x))];
    assert ss[0] == Produce(Number("1")) && ss[1..] == [Produce(Variable(x))];
    assert Run(fuel, printed, ss[1..]) == Err(Failure(UnboundVariable(x), printed));
  }

  /**
   * `take` reads the next line: the integer it spells or else the line
   * itself; with every line read it fails.
   */
  lemma {:induction false} TakeReadsNextLine(fuel: nat, st: State, name: string)
    ensures var r := ExecStmt(fuel, st, Take(name));
      (st.linesRead >= |st.input| ==> r == Err(Failure(EndOfInput, st))) &&
      (st.linesRead < |st.input| ==>
        r.Ok? && r.value.state.linesRead == st.linesRead + 1 &&
        r.value.state.variables == st.variables[name := InputValue(st.input[st.linesRead])])
  {
  }
}
