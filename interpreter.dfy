/**
 * The tree-walking interpreter: the `eval` methods of the Expression classes
 * and the `exec` methods of the Statement classes in src/ast, as functions of
 * the Environment store and the output printed so far.
 *
 * Java evaluation either returns (a value, the updated objects) or throws;
 * here every step returns an `Outcome` holding a `Result` and the state
 * reached, so a failure keeps the effects that happened before it. A run
 * that never ends cannot be a function: every evaluation carries a `fuel`
 * bound, one unit of which is spent each time a WHILE loop goes round and
 * each time a procedure body is entered, and running out is reported as
 * `OutOfFuel`.
 */
module Interpreter {
  import opened JavaInt
  import opened Ast
  import opened Environment

  /** Why a Java evaluation throws. */
  datatype Error =
    | UnboundVariable(name: string)   // getVariable reaches the root's null parent
    | UnknownProcedure(name: string)  // getProcedure returns null
    | MissingArgument(name: string)   // args.get(i) past the end of the argument list
    | DivisionByZero                  // ArithmeticException from `/`
    | OutOfFuel                       // the evaluation bound was reached

  /** The Environment objects and everything WRITELN has printed, oldest first. */
  datatype State = State(store: Store, output: seq<i32>)

  datatype Result<T> = Ok(value: T) | Fail(error: Error)

  /** The result of one step and the state it leaves behind. */
  datatype Outcome<T> = Outcome(result: Result<T>, state: State)

  /**
   * `b` is reachable from `a`: no Environment object is lost or re-parented,
   * and printed output is never taken back.
   */
  predicate Later(a: State, b: State)
  {
    Extends(a.store, b.store) && a.output <= b.output
  }

  /** BinOp.java:39-54: `int` arithmetic; `/` throws on a zero divisor. */
  function Apply(op: string, a: i32, b: i32): (r: Result<i32>)
    requires IsOperator(op)
    ensures r.Fail? <==> op == "/" && b == 0
    ensures r.Fail? ==> r.error == DivisionByZero
  {
    if op == "+" then Ok(Add(a, b))
    else if op == "-" then Ok(Sub(a, b))
    else if op == "*" then Ok(Mul(a, b))
    else
      var q := Div(a, b);
      if q.None? then Fail(DivisionByZero) else Ok(q.value)
  }

  /**
   * Condition.java:37-69: 1 when `relop` holds, else 0. `>` is computed as
   * `>=`, and an operator it does not know counts as holding.
   */
  function Compare(relop: string, a: i32, b: i32): (r: i32)
    ensures r == 0 || r == 1
  {
    var holds :=
      if relop == "=" then a == b
      else if relop == "<>" then a != b
      else if relop == "<" then a < b
      else if relop == ">" then a >= b
      else if relop == "<=" then a <= b
      else if relop == ">=" then a >= b
      else true;
    if holds then 1 else 0
  }

  /**
   * Number.java:30-33, Variable.java:31-34, BinOp.java:37-56: the left
   * operand is evaluated before the right one, and an unknown operator is 0
   * without evaluating either.
   */
  function Eval(e: Expr, env: nat, st: State, fuel: nat): (r: Outcome<i32>)
    requires Fits(st.store, env)
    ensures Later(st, r.state)
    decreases fuel, e, 0, 0
  {
    match e
    case Number(n) => Outcome(Ok(n), st)
    case Variable(x) =>
      var v := Lookup(st.store, env, x);
      Outcome(if v.Some? then Ok(v.value) else Fail(UnboundVariable(x)), st)
    case BinOp(op, left, right) =>
      if !IsOperator(op) then Outcome(Ok(0), st)
      else
        var a := Eval(left, env, st, fuel);
        if a.result.Fail? then a
        else
          var b := Eval(right, env, a.state, fuel);
          if b.result.Fail? then b
          else Outcome(Apply(op, a.result.value, b.result.value), b.state)
    case ProcedureCall(name, args) => Call(name, args, env, st, fuel)
  }

  /**
   * ProcedureCall.java:37-51: a new object whose parent is the caller's,
   * the return slot `name` set to 0 through setVariable, the parameters
   * declared in the new object from arguments evaluated in the caller's
   * object, the body run in the new object, and the slot read back.
   */
  function Call(name: string, args: seq<Expr>, env: nat, st: State, fuel: nat): (r: Outcome<i32>)
    requires Fits(st.store, env)
    ensures Later(st, r.state)
    decreases fuel, args, 2, 0
  {
    var loc := |st.store|;
    var s1 := Assign(Allocate(st.store, Some(env)), loc, name, 0);
    var dec := FindProcedure(s1, loc, name);
    if dec.None? then Outcome(Fail(UnknownProcedure(name)), State(s1, st.output))
    else
      var bound := Bind(name, dec.value.params, 0, args, env, loc, State(s1, st.output), fuel);
      if bound.result.Fail? then Outcome(Fail(bound.result.error), bound.state)
      else if fuel == 0 then Outcome(Fail(OutOfFuel), bound.state)
      else RunBody(name, dec.value.body, loc, bound.state, fuel - 1)
  }

  /** ProcedureCall.java:49-50: the body runs in the new object `loc`, then the slot `name` is read there. */
  function RunBody(name: string, body: Stmt, loc: nat, st: State, fuel: nat): (r: Outcome<i32>)
    requires Fits(st.store, loc)
    ensures Later(st, r.state)
    decreases fuel, body, 1, 0
  {
    var ran := Exec(body, loc, st, fuel);
    if ran.result.Fail? then Outcome(Fail(ran.result.error), ran.state)
    else
      var v := Lookup(ran.state.store, loc, name);
      Outcome(if v.Some? then Ok(v.value) else Fail(UnboundVariable(name)), ran.state)
  }

  /**
   * ProcedureCall.java:44-48: parameters `i` onwards, each declared in `loc`
   * with the value of the matching argument evaluated in `env`; arguments
   * beyond the parameters are never evaluated.
   */
  function Bind(name: string, params: seq<string>, i: nat, args: seq<Expr>, env: nat, loc: nat, st: State, fuel: nat): (r: Outcome<()>)
    requires Fits(st.store, env) && Fits(st.store, loc) && i <= |params|
    ensures Later(st, r.state)
    decreases fuel, args, 1, |params| - i
  {
    if i == |params| then Outcome(Ok(()), st)
    else if i >= |args| then Outcome(Fail(MissingArgument(name)), st)
    else
      var a := Eval(args[i], env, st, fuel);
      if a.result.Fail? then Outcome(Fail(a.result.error), a.state)
      else
        var next := State(Declare(a.state.store, loc, params[i], a.result.value), a.state.output);
        Bind(name, params, i + 1, args, env, loc, next, fuel)
  }

  /** Condition.java:37-69: both sides, left first, then the comparison as 1 or 0. */
  function Test(c: Condition, env: nat, st: State, fuel: nat): (r: Outcome<i32>)
    requires Fits(st.store, env)
    ensures Later(st, r.state)
    ensures r.result.Ok? ==> r.result.value == 0 || r.result.value == 1
    decreases fuel, c, 0, 0
  {
    var a := Eval(c.left, env, st, fuel);
    if a.result.Fail? then a
    else
      var b := Eval(c.right, env, a.state, fuel);
      if b.result.Fail? then b
      else Outcome(Ok(Compare(c.relop, a.result.value, b.result.value)), b.state)
  }

  /**
   * Writeln.java:30-33, Block.java:31-37, Assignment.java:32-35,
   * If.java:32-38, While.java:32-38.
   */
  function Exec(s: Stmt, env: nat, st: State, fuel: nat): (r: Outcome<()>)
    requires Fits(st.store, env)
    ensures Later(st, r.state)
    decreases fuel, s, 0, 0
  {
    match s
    case Writeln(e) =>
      var a := Eval(e, env, st, fuel);
      if a.result.Fail? then Outcome(Fail(a.result.error), a.state)
      else Outcome(Ok(()), State(a.state.store, a.state.output + [a.result.value]))
    case Block(ss) => ExecBlock(ss, 0, env, st, fuel)
    case Assignment(x, e) =>
      var a := Eval(e, env, st, fuel);
      if a.result.Fail? then Outcome(Fail(a.result.error), a.state)
      else Outcome(Ok(()), State(Assign(a.state.store, env, x, a.result.value), a.state.output))
    case If(c, body) =>
      var t := Test(c, env, st, fuel);
      if t.result.Fail? then Outcome(Fail(t.result.error), t.state)
      else if t.result.value == 1 then Exec(body, env, t.state, fuel)
      else Outcome(Ok(()), t.state)
    case While(c, body) =>
      var t := Test(c, env, st, fuel);
      if t.result.Fail? then Outcome(Fail(t.result.error), t.state)
      else if t.result.value != 1 then Outcome(Ok(()), t.state)
      else
        var b := Exec(body, env, t.state, fuel);
        if b.result.Fail? then b
        else if fuel == 0 then Outcome(Fail(OutOfFuel), b.state)
        else Exec(s, env, b.state, fuel - 1)
  }

  /** Block.java:31-37: the statements from index `i` on, in order, in the same object. */
  function ExecBlock(ss: seq<Stmt>, i: nat, env: nat, st: State, fuel: nat): (r: Outcome<()>)
    requires Fits(st.store, env) && i <= |ss|
    ensures Later(st, r.state)
    decreases fuel, ss, 1, |ss| - i
  {
    if i == |ss| then Outcome(Ok(()), st)
    else
      var a := Exec(ss[i], env, st, fuel);
      if a.result.Fail? then a
      else ExecBlock(ss, i + 1, env, a.state, fuel)
  }

  /** Program.java:41-44: every VAR name declared in `env` with the value 0, in order. */
  function DeclareAll(st: Store, env: nat, vs: seq<string>): (r: Store)
    requires Fits(st, env)
    ensures Fits(r, env) && Extends(st, r) && |r| == |st|
    decreases |vs|
  {
    if |vs| == 0 then st
    else Declare(DeclareAll(st, env, vs[..|vs| - 1]), env, vs[|vs| - 1], 0)
  }

  /**
   * Program.java:45-48 with ProcedureDeclaration.java:55-58: every
   * declaration handed to setProcedure under its own name, in order.
   */
  function RegisterAll(st: Store, env: nat, ds: seq<ProcedureDeclaration>): (r: Store)
    requires Fits(st, env)
    ensures Fits(r, env) && Extends(st, r) && |r| == |st|
    decreases |ds|
  {
    if |ds| == 0 then st
    else Register(RegisterAll(st, env, ds[..|ds| - 1]), env, ds[|ds| - 1].name, ds[|ds| - 1])
  }

  /** Program.java:38-50: declare the variables, register the procedures, run the statement. */
  function ExecProgram(p: Program, env: nat, st: State, fuel: nat): (r: Outcome<()>)
    requires Fits(st.store, env)
    ensures Later(st, r.state)
  {
    var declared := DeclareAll(st.store, env, p.variables);
    var registered := RegisterAll(declared, env, p.procedures);
    Exec(p.stmt, env, State(registered, st.output), fuel)
  }

  /** The state a run starts from: one root object and nothing printed. */
  function Initial(): (st: State)
    ensures Fits(st.store, 0) && st.store[0].parent.None? && st.output == []
  {
    State([Scope(map[], map[], None)], [])
  }

  /** A whole program run in a fresh global environment. */
  function Run(p: Program, fuel: nat): (r: Outcome<()>)
    ensures Later(Initial(), r.state)
  {
    ExecProgram(p, 0, Initial(), fuel)
  }

  // ---------------------------------------------------------------------------
  // Conditions
  // ---------------------------------------------------------------------------

  /** Ordinary signed comparison, the meaning each relational operator is meant to have. */
  predicate Holds(relop: string, a: i32, b: i32)
    requires IsRelop(relop)
  {
    match relop
    case "=" => a == b
    case "<>" => a != b
    case "<" => a < b
    case ">" => a > b
    case "<=" => a <= b
    case _ => a >= b
  }

  /** The mathematical result of an operator, before Java reduces it to 32 bits. */
  function Exact(op: string, a: i32, b: i32): int
    requires IsOperator(op) && (op == "/" ==> b != 0)
  {
    if op == "+" then a as int + b as int
    else if op == "-" then a as int - b as int
    else if op == "*" then a as int * b as int
    else TruncDiv(a as int, b as int)
  }

  /**
   * BinOp.java:39-54: every operator but `/` by zero gives the `int` with the
   * low 32 bits of the exact result, which is the exact result itself when it
   * fits; `/` rounds toward zero.
   */
  lemma ApplyWraps(op: string, a: i32, b: i32)
    requires IsOperator(op) && (op == "/" ==> b != 0)
    ensures Apply(op, a, b).Ok?
    ensures (Apply(op, a, b).value as int - Exact(op, a, b)) % TWO_32 == 0
    ensures MIN_INT <= Exact(op, a, b) <= MAX_INT ==> Apply(op, a, b).value as int == Exact(op, a, b)
  {
  }

  /** Java `int` at its edges: overflow wraps, division truncates, and `MIN_VALUE / -1` is `MIN_VALUE`. */
  lemma JavaArithmeticExamples()
    ensures Apply("+", 0x7FFF_FFFF, 1) == Ok(-0x8000_0000)
    ensures Apply("*", 0x1_0000, 0x1_0000) == Ok(0)
    ensures Apply("/", -7, 2) == Ok(-3)
    ensures Apply("/", -0x8000_0000, -1) == Ok(-0x8000_0000)
    ensures Apply("/", 5, 0) == Fail(DivisionByZero)
  {
    assert TruncDiv(-7, 2) == -3;
    assert TruncDiv(-0x8000_0000, -1) == 0x8000_0000;
  }

  /** Condition.java:43-66: five of the six operators mean what they should. */
  lemma CompareMeansHolds(relop: string, a: i32, b: i32)
    requires IsRelop(relop) && relop != ">"
    ensures Compare(relop, a, b) == 1 <==> Holds(relop, a, b)
  {
  }

  /** Condition.java:55-58: `>` is evaluated as `>=`, which differs from `>` exactly on equal operands. */
  lemma CompareGreaterIsAtLeast(a: i32, b: i32)
    ensures Compare(">", a, b) == 1 <==> a >= b
    ensures (Compare(">", a, b) == 1) != Holds(">", a, b) <==> a == b
  {
  }

  /** Condition.java:41: a relational operator outside the six counts as holding. */
  lemma CompareUnknownHolds(relop: string, a: i32, b: i32)
    requires !IsRelop(relop)
    ensures Compare(relop, a, b) == 1
  {
  }

  /**
   * Number.java:32 and Variable.java:33: a literal is its own value and a name
   * reads its binding; an unbound name is an error, not 0; and neither
   * changes an object or the output.
   */
  lemma ReadsChangeNothing(e: Expr, env: nat, st: State, fuel: nat)
    requires Fits(st.store, env) && (e.Number? || e.Variable?)
    ensures Eval(e, env, st, fuel).state == st
    ensures e.Number? ==> Eval(e, env, st, fuel).result == Ok(e.value)
    ensures e.Variable? ==> (Eval(e, env, st, fuel).result.Fail? <==> Unbound(st.store, Chain(st.store, env), e.name))
    ensures e.Variable? && Eval(e, env, st, fuel).result.Ok? ==>
      Lookup(st.store, env, e.name) == Some(Eval(e, env, st, fuel).result.value)
  {
    if e.Variable? {
      LookupFails(st.store, env, e.name);
    }
  }

  /**
   * BinOp.java:41-53 and Condition.java:39-40: the left operand is evaluated
   * first, and when it throws the right one is never evaluated.
   */
  lemma LeftOperandFirst(op: string, relop: string, left: Expr, right: Expr, env: nat, st: State, fuel: nat)
    requires Fits(st.store, env) && Eval(left, env, st, fuel).result.Fail?
    ensures IsOperator(op) ==> Eval(BinOp(op, left, right), env, st, fuel) == Eval(left, env, st, fuel)
    ensures Test(Condition(left, relop, right), env, st, fuel) == Eval(left, env, st, fuel)
  {
  }

  /** BinOp.java:55: an operator outside the four gives 0 and evaluates neither operand. */
  lemma UnknownOperatorIsZero(op: string, left: Expr, right: Expr, env: nat, st: State, fuel: nat)
    requires Fits(st.store, env) && !IsOperator(op)
    ensures Eval(BinOp(op, left, right), env, st, fuel) == Outcome(Ok(0), st)
  {
  }

  /**
   * ProcedureCall.java:41 with Environment.java:61-63: the return slot is
   * created in the new object, unless the caller's object binds the
   * procedure's name itself; then that binding is reset to 0 and the new
   * object gets no slot.
   */
  lemma ReturnSlot(st: Store, env: nat, name: string)
    requires Fits(st, env)
    ensures var loc := |st|;
      var s1 := Assign(Allocate(st, Some(env)), loc, name, 0);
      && (name in st[env].variables ==> name in s1[env].variables && s1[env].variables[name] == 0 && name !in s1[loc].variables)
      && (name !in st[env].variables ==> name in s1[loc].variables && s1[loc].variables[name] == 0 && s1[env] == st[env])
  {
    var a := Allocate(st, Some(env));
    assert a[|st|] == Scope(map[], map[], Some(env)) && a[env] == st[env];
  }

  // ---------------------------------------------------------------------------
  // Statements
  // ---------------------------------------------------------------------------

  /** Writeln.java:32: the value is printed once, after what its evaluation printed, and nothing else changes. */
  lemma WritelnPrintsValue(e: Expr, env: nat, st: State, fuel: nat)
    requires Fits(st.store, env)
    ensures var a := Eval(e, env, st, fuel);
      var r := Exec(Writeln(e), env, st, fuel);
      && (a.result.Ok? ==> r.result.Ok? && r.state.store == a.state.store && r.state.output == a.state.output + [a.result.value])
      && (a.result.Fail? ==> r.result.Fail? && r.state == a.state)
  {
  }

  /**
   * Block.java:33-36: an empty block changes nothing, and a block of one
   * statement runs it in the same object, so a block opens no scope.
   */
  lemma BlockOpensNoScope(s: Stmt, env: nat, st: State, fuel: nat)
    requires Fits(st.store, env)
    ensures Exec(Block([]), env, st, fuel) == Outcome(Ok(()), st)
    ensures Exec(Block([s]), env, st, fuel) == Exec(s, env, st, fuel)
  {
    var a := Exec(s, env, st, fuel);
    assert [s][0] == s;
    if a.result.Ok? {
      assert a.result.value == ();
      assert ExecBlock([s], 1, env, a.state, fuel) == Outcome(Ok(()), a.state) == a;
    }
  }

  /** If.java:34-37: the condition is evaluated once, and the body runs exactly when it gives 1. */
  lemma IfRunsBodyOnOne(c: Condition, body: Stmt, env: nat, st: State, fuel: nat)
    requires Fits(st.store, env)
    ensures var t := Test(c, env, st, fuel);
      var r := Exec(If(c, body), env, st, fuel);
      && (t.result == Ok(1) ==> r == Exec(body, env, t.state, fuel))
      && (t.result == Ok(0) ==> r == Outcome(Ok(()), t.state))
      && (t.result.Fail? ==> r.result.Fail? && r.state == t.state)
  {
  }

  /** While.java:34: when the condition is not 1 at the start, the body never runs. */
  lemma WhileSkipsOnZero(c: Condition, body: Stmt, env: nat, st: State, fuel: nat)
    requires Fits(st.store, env) && Test(c, env, st, fuel).result == Ok(0)
    ensures Exec(While(c, body), env, st, fuel) == Outcome(Ok(()), Test(c, env, st, fuel).state)
  {
  }

  /**
   * While.java:34-37: after a round of the body that returned normally the
   * loop starts over, testing the condition again in the state the body left.
   */
  lemma WhileRepeats(c: Condition, body: Stmt, env: nat, st: State, fuel: nat)
    requires Fits(st.store, env) && Test(c, env, st, fuel).result == Ok(1) && fuel > 0
    requires Exec(body, env, Test(c, env, st, fuel).state, fuel).result.Ok?
    ensures var b := Exec(body, env, Test(c, env, st, fuel).state, fuel);
      Exec(While(c, body), env, st, fuel) == Exec(While(c, body), env, b.state, fuel - 1)
  {
  }

  /**
   * Assignment.java:32-35: once an assignment has run, reading its variable
   * from the same object gives the assigned value; an expression that throws
   * leaves the variable unwritten and the error through.
   */
  lemma AssignmentThenLookup(x: string, e: Expr, env: nat, st: State, fuel: nat)
    requires Fits(st.store, env)
    ensures var a := Eval(e, env, st, fuel);
      var r := Exec(Assignment(x, e), env, st, fuel);
      && (a.result.Ok? ==> r.result.Ok? && Lookup(r.state.store, env, x) == Some(a.result.value) && r.state.output == a.state.output)
      && (a.result.Fail? ==> r == Outcome(Fail(a.result.error), a.state))
  {
    var a := Eval(e, env, st, fuel);
    if a.result.Ok? {
      AssignThenLookup(a.state.store, env, x, a.result.value);
    }
  }

  /** Moving a statement list behind a prefix and its index with it runs the same statements. */
  lemma {:induction false} ExecBlockShift(pre: seq<Stmt>, ss: seq<Stmt>, j: nat, env: nat, st: State, fuel: nat)
    requires Fits(st.store, env) && j <= |ss|
    ensures ExecBlock(pre + ss, |pre| + j, env, st, fuel) == ExecBlock(ss, j, env, st, fuel)
    decreases |ss| - j
  {
    if j < |ss| {
      assert (pre + ss)[|pre| + j] == ss[j];
      var a := Exec(ss[j], env, st, fuel);
      if a.result.Ok? {
        ExecBlockShift(pre, ss, j + 1, env, a.state, fuel);
      }
    }
  }

  /** The statements of `ss1` from index `i`, followed by those of `ss2`. */
  lemma {:induction false} ExecBlockAppend(ss1: seq<Stmt>, ss2: seq<Stmt>, i: nat, env: nat, st: State, fuel: nat)
    requires Fits(st.store, env) && i <= |ss1|
    ensures ExecBlock(ss1 + ss2, i, env, st, fuel) ==
      var a := ExecBlock(ss1, i, env, st, fuel);
      if a.result.Fail? then a else ExecBlock(ss2, 0, env, a.state, fuel)
    decreases |ss1| - i
  {
    if i == |ss1| {
      ExecBlockShift(ss1, ss2, 0, env, st, fuel);
    } else {
      assert (ss1 + ss2)[i] == ss1[i];
      var a := Exec(ss1[i], env, st, fuel);
      if a.result.Ok? {
        ExecBlockAppend(ss1, ss2, i + 1, env, a.state, fuel);
      }
    }
  }

  /**
   * Block.java:31-37: a block of two statement lists runs the first and,
   * unless it throws, the second from where the first left off.
   */
  lemma BlockConcatenation(ss1: seq<Stmt>, ss2: seq<Stmt>, env: nat, st: State, fuel: nat)
    requires Fits(st.store, env)
    ensures Exec(Block(ss1 + ss2), env, st, fuel) ==
      var a := Exec(Block(ss1), env, st, fuel);
      if a.result.Fail? then a else Exec(Block(ss2), env, a.state, fuel)
  {
    ExecBlockAppend(ss1, ss2, 0, env, st, fuel);
  }

  /**
   * While.java:32-38: a WHILE loop that finishes normally stopped because
   * its condition, evaluated in some state reached by the loop, gave a value
   * other than 1, and the loop ended in the state that evaluation left.
   */
  lemma {:induction false} WhileExit(c: Condition, body: Stmt, env: nat, st: State, fuel: nat)
    requires Fits(st.store, env) && Exec(While(c, body), env, st, fuel).result.Ok?
    ensures exists mid: State, f: nat ::
      && Fits(mid.store, env) && f <= fuel
      && Test(c, env, mid, f).result == Ok(0) && Test(c, env, mid, f).state == Exec(While(c, body), env, st, fuel).state
    decreases fuel
  {
    var t := Test(c, env, st, fuel);
    if t.result.value != 1 {
      assert Test(c, env, st, fuel).result == Ok(0);
    } else {
      var b := Exec(body, env, t.state, fuel);
      WhileExit(c, body, env, b.state, fuel - 1);
    }
  }

  // ---------------------------------------------------------------------------
  // Procedure calls
  // ---------------------------------------------------------------------------

  /**
   * ProcedureCall.java:39: the call creates a new object, the next index of
   * the store, whose parent is the caller's object (scoping is dynamic).
   */
  lemma CallScopeIsChildOfCaller(name: string, args: seq<Expr>, env: nat, st: State, fuel: nat)
    requires Fits(st.store, env)
    ensures var r := Call(name, args, env, st, fuel);
      |st.store| < |r.state.store| && r.state.store[|st.store|].parent == Some(env)
  {
  }

  /** ProcedureCall.java:44-48: arguments past the last parameter are never evaluated. */
  lemma {:induction false} BindIgnoresExtra(name: string, params: seq<string>, i: nat, args: seq<Expr>, extra: seq<Expr>, env: nat, loc: nat, st: State, fuel: nat)
    requires Fits(st.store, env) && Fits(st.store, loc) && i <= |params| <= |args|
    ensures Bind(name, params, i, args + extra, env, loc, st, fuel) == Bind(name, params, i, args, env, loc, st, fuel)
    decreases |params| - i
  {
    if i < |params| {
      assert (args + extra)[i] == args[i];
      var a := Eval(args[i], env, st, fuel);
      if a.result.Ok? {
        var next := State(Declare(a.state.store, loc, params[i], a.result.value), a.state.output);
        BindIgnoresExtra(name, params, i + 1, args, extra, env, loc, next, fuel);
      }
    }
  }

  /** ProcedureCall.java:46-47: with fewer arguments than parameters the binding never succeeds. */
  lemma {:induction false} BindTooFewArguments(name: string, params: seq<string>, i: nat, args: seq<Expr>, env: nat, loc: nat, st: State, fuel: nat)
    requires Fits(st.store, env) && Fits(st.store, loc) && i <= |args| < |params|
    ensures Bind(name, params, i, args, env, loc, st, fuel).result.Fail?
    decreases |params| - i
  {
    if i < |args| {
      var a := Eval(args[i], env, st, fuel);
      if a.result.Ok? {
        var next := State(Declare(a.state.store, loc, params[i], a.result.value), a.state.output);
        BindTooFewArguments(name, params, i + 1, args, env, loc, next, fuel);
      }
    }
  }

  // ---------------------------------------------------------------------------
  // Programs
  // ---------------------------------------------------------------------------

  /**
   * Program.java:41-44: after the declarations every VAR name reads 0 from
   * the global object, and every other name reads what it read before.
   */
  lemma {:induction false} DeclareAllZero(st: Store, env: nat, vs: seq<string>, e: nat, y: string)
    requires Fits(st, env) && e < |st|
    ensures y in vs && e == env ==> Lookup(DeclareAll(st, env, vs), e, y) == Some(0)
    ensures y !in vs ==> Lookup(DeclareAll(st, env, vs), e, y) == Lookup(st, e, y)
    decreases |vs|
  {
    if |vs| > 0 {
      var init := vs[..|vs| - 1];
      var last := vs[|vs| - 1];
      var before := DeclareAll(st, env, init);
      assert vs == init + [last];
      DeclareAllZero(st, env, init, e, y);
      if y == last {
        if e == env { DeclareThenLookup(before, env, y, 0); }
      } else {
        DeclareFrame(before, env, last, 0, e, y);
      }
    }
  }

  /** The declaration the last registration under `n` in `ds` stores, if any. */
  function LastNamed(ds: seq<ProcedureDeclaration>, n: string): (r: Option<ProcedureDeclaration>)
    ensures r.Some? ==> r.value in ds && r.value.name == n
    ensures r.None? <==> forall k :: 0 <= k < |ds| ==> ds[k].name != n
    decreases |ds|
  {
    if |ds| == 0 then None
    else if ds[|ds| - 1].name == n then Some(ds[|ds| - 1])
    else LastNamed(ds[..|ds| - 1], n)
  }

  /** Registering keeps the root every object reaches. */
  lemma {:induction false} RegisterAllKeepsRoots(st: Store, env: nat, ds: seq<ProcedureDeclaration>, e: nat)
    requires Fits(st, env) && e < |st|
    ensures RootOf(RegisterAll(st, env, ds), e) == RootOf(st, e)
    decreases |ds|
  {
    if |ds| > 0 {
      var before := RegisterAll(st, env, ds[..|ds| - 1]);
      RegisterAllKeepsRoots(st, env, ds[..|ds| - 1], e);
      RegisterKeepsRoots(before, env, ds[|ds| - 1].name, ds[|ds| - 1], e);
    }
  }

  /**
   * Program.java:45-48: after the declarations have run, every object
   * sharing the global object's root finds, under each name, the last
   * declaration of that name, and what it found before for other names.
   */
  lemma {:induction false} RegisterAllFind(st: Store, env: nat, ds: seq<ProcedureDeclaration>, e: nat, n: string)
    requires Fits(st, env) && e < |st| && RootOf(st, e) == RootOf(st, env)
    ensures FindProcedure(RegisterAll(st, env, ds), e, n) ==
      if LastNamed(ds, n).Some? then LastNamed(ds, n) else FindProcedure(st, e, n)
    decreases |ds|
  {
    if |ds| > 0 {
      var init := ds[..|ds| - 1];
      var d := ds[|ds| - 1];
      var before := RegisterAll(st, env, init);
      RegisterAllFind(st, env, init, e, n);
      RegisterAllKeepsRoots(st, env, init, e);
      RegisterAllKeepsRoots(st, env, init, env);
      if d.name == n {
        RegisterThenFind(before, env, n, d, e);
      } else {
        RegisterAtRoot(before, env, d.name, d);
        FindAtRoot(before, e, n);
        RegisterKeepsRoots(before, env, d.name, d, e);
        FindAtRoot(Register(before, env, d.name, d), e, n);
      }
    }
  }

  // ---------------------------------------------------------------------------
  // The fuel bound
  // ---------------------------------------------------------------------------

  /** The evaluation did not stop at the fuel bound. */
  predicate Settled<T>(r: Outcome<T>)
  {
    r.result != Fail(OutOfFuel)
  }

  /**
   * More fuel never changes an evaluation that did not run out: the fuel
   * only bounds how long a run may take, it does not change what it computes.
   */
  lemma {:induction false} EvalFuel(e: Expr, env: nat, st: State, f: nat, g: nat)
    requires Fits(st.store, env) && f <= g && Settled(Eval(e, env, st, f))
    ensures Eval(e, env, st, g) == Eval(e, env, st, f)
    decreases f, e, 0, 0
  {
    match e
    case Number(_) =>
    case Variable(_) =>
    case BinOp(op, left, right) =>
      if IsOperator(op) {
        var a := Eval(left, env, st, f);
        EvalFuel(left, env, st, f, g);
        if a.result.Ok? {
          EvalFuel(right, env, a.state, f, g);
        }
      }
    case ProcedureCall(name, args) =>
      CallFuel(name, args, env, st, f, g);
  }

  lemma {:induction false} CallFuel(name: string, args: seq<Expr>, env: nat, st: State, f: nat, g: nat)
    requires Fits(st.store, env) && f <= g && Settled(Call(name, args, env, st, f))
    ensures Call(name, args, env, st, g) == Call(name, args, env, st, f)
    decreases f, args, 2, 0
  {
    var loc := |st.store|;
    var s1 := Assign(Allocate(st.store, Some(env)), loc, name, 0);
    var dec := FindProcedure(s1, loc, name);
    if dec.Some? {
      var bound := Bind(name, dec.value.params, 0, args, env, loc, State(s1, st.output), f);
      BindFuel(name, dec.value.params, 0, args, env, loc, State(s1, st.output), f, g);
      if bound.result.Ok? {
        assert 0 < f;
        RunBodyFuel(name, dec.value.body, loc, bound.state, f - 1, g - 1);
      }
    }
  }

  lemma RunBodyFuel(name: string, body: Stmt, loc: nat, st: State, f: nat, g: nat)
    requires Fits(st.store, loc) && f <= g && Settled(RunBody(name, body, loc, st, f))
    ensures RunBody(name, body, loc, st, g) == RunBody(name, body, loc, st, f)
    decreases f, body, 1, 0
  {
    ExecFuel(body, loc, st, f, g);
  }

  lemma {:induction false} BindFuel(name: string, params: seq<string>, i: nat, args: seq<Expr>, env: nat, loc: nat, st: State, f: nat, g: nat)
    requires Fits(st.store, env) && Fits(st.store, loc) && i <= |params|
    requires f <= g && Settled(Bind(name, params, i, args, env, loc, st, f))
    ensures Bind(name, params, i, args, env, loc, st, g) == Bind(name, params, i, args, env, loc, st, f)
    decreases f, args, 1, |params| - i
  {
    if i < |params| && i < |args| {
      var a := Eval(args[i], env, st, f);
      EvalFuel(args[i], env, st, f, g);
      if a.result.Ok? {
        var next := State(Declare(a.state.store, loc, params[i], a.result.value), a.state.output);
        BindFuel(name, params, i + 1, args, env, loc, next, f, g);
      }
    }
  }

  lemma {:induction false} TestFuel(c: Condition, env: nat, st: State, f: nat, g: nat)
    requires Fits(st.store, env) && f <= g && Settled(Test(c, env, st, f))
    ensures Test(c, env, st, g) == Test(c, env, st, f)
    decreases f, c, 0, 0
  {
    var a := Eval(c.left, env, st, f);
    EvalFuel(c.left, env, st, f, g);
    if a.result.Ok? {
      EvalFuel(c.right, env, a.state, f, g);
    }
  }

  lemma {:induction false} ExecFuel(s: Stmt, env: nat, st: State, f: nat, g: nat)
    requires Fits(st.store, env) && f <= g && Settled(Exec(s, env, st, f))
    ensures Exec(s, env, st, g) == Exec(s, env, st, f)
    decreases f, s, 0, 0
  {
    match s
    case Writeln(e) => EvalFuel(e, env, st, f, g);
    case Block(ss) => ExecBlockFuel(ss, 0, env, st, f, g);
    case Assignment(_, e) => EvalFuel(e, env, st, f, g);
    case If(c, body) =>
      var t := Test(c, env, st, f);
      TestFuel(c, env, st, f, g);
      if t.result.Ok? && t.result.value == 1 {
        ExecFuel(body, env, t.state, f, g);
      }
    case While(c, body) =>
      var t := Test(c, env, st, f);
      TestFuel(c, env, st, f, g);
      if t.result.Ok? && t.result.value == 1 {
        var b := Exec(body, env, t.state, f);
        ExecFuel(body, env, t.state, f, g);
        if b.result.Ok? {
          ExecFuel(s, env, b.state, f - 1, g - 1);
        }
      }
  }

  lemma {:induction false} ExecBlockFuel(ss: seq<Stmt>, i: nat, env: nat, st: State, f: nat, g: nat)
    requires Fits(st.store, env) && i <= |ss| && f <= g && Settled(ExecBlock(ss, i, env, st, f))
    ensures ExecBlock(ss, i, env, st, g) == ExecBlock(ss, i, env, st, f)
    decreases f, ss, 1, |ss| - i
  {
    if i < |ss| {
      var a := Exec(ss[i], env, st, f);
      ExecFuel(ss[i], env, st, f, g);
      if a.result.Ok? {
        ExecBlockFuel(ss, i + 1, env, a.state, f, g);
      }
    }
  }

  /** A whole program gives the same result with any fuel at least as large as a bound it did not exceed. */
  lemma RunFuel(p: Program, f: nat, g: nat)
    requires f <= g && Settled(Run(p, f))
    ensures Run(p, g) == Run(p, f)
  {
    var st := Initial();
    var declared := DeclareAll(st.store, 0, p.variables);
    var registered := RegisterAll(declared, 0, p.procedures);
    ExecFuel(p.stmt, 0, State(registered, st.output), f, g);
  }
}
