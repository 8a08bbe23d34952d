/**
 * The interpreter as the Java code runs it: `eval` and `exec` walk the tree,
 * update the Environment objects in place and print as they go, and the
 * loops of While.exec, Block.exec, ProcedureCall.eval and Program.exec stay
 * loops. Every method is proved to compute exactly what the functions of
 * module Interpreter say, state and output included.
 */
module Machine {
  import opened JavaInt
  import opened Ast
  import opened Environment
  import opened Interpreter

  class Machine {
    /** Every Environment object of the run. */
    const envs: Environments
    /** Everything System.out.println has printed. */
    var output: seq<i32>

    constructor ()
      ensures fresh(envs) && envs.scopes == [] && output == []
    {
      envs := new Environments();
      output := [];
    }

    /** The state the specification functions speak about. */
    function Now(): State
      reads this, envs
    {
      State(envs.scopes, output)
    }

    /** Number.java:30-33, Variable.java:31-34, BinOp.java:37-56. */
    method Eval(e: Expr, env: nat, fuel: nat) returns (r: Result<i32>)
      requires Fits(envs.scopes, env)
      modifies this, envs
      ensures Outcome(r, Now()) == Interpreter.Eval(e, env, old(Now()), fuel)
      decreases fuel, e, 0, 0
    {
      match e
      case Number(n) =>
        r := Ok(n);
      case Variable(x) =>
        var v := envs.GetVariable(env, x);
        r := if v.Some? then Ok(v.value) else Fail(UnboundVariable(x));
      case BinOp(op, left, right) =>
        if !IsOperator(op) {
          return Ok(0);
        }
        var a := Eval(left, env, fuel);
        if a.Fail? {
          return a;
        }
        var b := Eval(right, env, fuel);
        if b.Fail? {
          return b;
        }
        r := Apply(op, a.value, b.value);
      case ProcedureCall(name, args) =>
        r := Call(name, args, env, fuel);
    }

    /** ProcedureCall.java:37-51. */
    method Call(name: string, args: seq<Expr>, env: nat, fuel: nat) returns (r: Result<i32>)
      requires Fits(envs.scopes, env)
      modifies this, envs
      ensures Outcome(r, Now()) == Interpreter.Call(name, args, env, old(Now()), fuel)
      decreases fuel, args, 2, 0
    {
      var loc := envs.NewChild(env);
      envs.SetVariable(loc, name, 0);
      var dec := envs.GetProcedure(loc, name);
      if dec.None? {
        return Fail(UnknownProcedure(name));
      }
      var params := dec.value.params;
      ghost var bound := Now();
      var i := 0;
      while i < |params|
        invariant i <= |params| && Fits(envs.scopes, env) && Fits(envs.scopes, loc)
        invariant Bind(name, params, 0, args, env, loc, bound, fuel) == Bind(name, params, i, args, env, loc, Now(), fuel)
        decreases |params| - i
      {
        if i >= |args| {
          return Fail(MissingArgument(name));
        }
        var v := Eval(args[i], env, fuel);
        if v.Fail? {
          return Fail(v.error);
        }
        envs.DeclareVariable(loc, params[i], v.value);
        i := i + 1;
      }
      if fuel == 0 {
        return Fail(OutOfFuel);
      }
      var ran := Exec(dec.value.body, loc, fuel - 1);
      if ran.Fail? {
        return Fail(ran.error);
      }
      var v := envs.GetVariable(loc, name);
      r := if v.Some? then Ok(v.value) else Fail(UnboundVariable(name));
    }

    /** Condition.java:37-69. */
    method Test(c: Condition, env: nat, fuel: nat) returns (r: Result<i32>)
      requires Fits(envs.scopes, env)
      modifies this, envs
      ensures Outcome(r, Now()) == Interpreter.Test(c, env, old(Now()), fuel)
      decreases fuel, c, 0, 0
    {
      var a := Eval(c.left, env, fuel);
      if a.Fail? {
        return a;
      }
      var b := Eval(c.right, env, fuel);
      if b.Fail? {
        return b;
      }
      r := Ok(Compare(c.relop, a.value, b.value));
    }

    /**
     * Writeln.java:30-33, Block.java:31-37, Assignment.java:32-35,
     * If.java:32-38, While.java:32-38.
     */
    method Exec(s: Stmt, env: nat, fuel: nat) returns (r: Result<()>)
      requires Fits(envs.scopes, env)
      modifies this, envs
      ensures Outcome(r, Now()) == Interpreter.Exec(s, env, old(Now()), fuel)
      decreases fuel, s, 0, 0
    {
      match s
      case Writeln(e) =>
        var a := Eval(e, env, fuel);
        if a.Fail? {
          return Fail(a.error);
        }
        output := output + [a.value];
        r := Ok(());
      case Block(ss) =>
        ghost var start := Now();
        var i := 0;
        while i < |ss|
          invariant i <= |ss| && Fits(envs.scopes, env)
          invariant ExecBlock(ss, 0, env, start, fuel) == ExecBlock(ss, i, env, Now(), fuel)
        {
          var a := Exec(ss[i], env, fuel);
          if a.Fail? {
            return a;
          }
          i := i + 1;
        }
        r := Ok(());
      case Assignment(x, e) =>
        var a := Eval(e, env, fuel);
        if a.Fail? {
          return Fail(a.error);
        }
        envs.SetVariable(env, x, a.value);
        r := Ok(());
      case If(c, body) =>
        var t := Test(c, env, fuel);
        if t.Fail? {
          return Fail(t.error);
        }
        if t.value == 1 {
          r := Exec(body, env, fuel);
        } else {
          r := Ok(());
        }
      case While(c, body) =>
        ghost var start := Now();
        var f: nat := fuel;
        while true
          invariant f <= fuel && Fits(envs.scopes, env)
          invariant Interpreter.Exec(s, env, start, fuel) == Interpreter.Exec(s, env, Now(), f)
          decreases f
        {
          var t := Test(c, env, f);
          if t.Fail? {
            return Fail(t.error);
          }
          if t.value != 1 {
            return Ok(());
          }
          var b := Exec(body, env, f);
          if b.Fail? {
            return b;
          }
          if f == 0 {
            return Fail(OutOfFuel);
          }
          f := f - 1;
        }
    }

    /** ProcedureDeclaration.java:55-58. */
    method DeclareProcedure(d: ProcedureDeclaration, env: nat)
      requires Fits(envs.scopes, env)
      modifies envs
      ensures envs.scopes == Register(old(envs.scopes), env, d.name, d)
    {
      envs.SetProcedure(env, d.name, d);
    }

    /** Program.java:38-50. */
    method ExecProgram(p: Program, env: nat, fuel: nat) returns (r: Result<()>)
      requires Fits(envs.scopes, env)
      modifies this, envs
      ensures Outcome(r, Now()) == Interpreter.ExecProgram(p, env, old(Now()), fuel)
    {
      ghost var start := envs.scopes;
      for i := 0 to |p.variables|
        invariant Fits(envs.scopes, env) && output == old(output)
        invariant envs.scopes == DeclareAll(start, env, p.variables[..i])
      {
        assert p.variables[..i + 1][..i] == p.variables[..i];
        envs.DeclareVariable(env, p.variables[i], 0);
      }
      assert p.variables[..|p.variables|] == p.variables;
      ghost var declared := envs.scopes;
      for i := 0 to |p.procedures|
        invariant Fits(envs.scopes, env) && output == old(output)
        invariant envs.scopes == RegisterAll(declared, env, p.procedures[..i])
      {
        assert p.procedures[..i + 1][..i] == p.procedures[..i];
        DeclareProcedure(p.procedures[i], env);
      }
      assert p.procedures[..|p.procedures|] == p.procedures;
      r := Exec(p.stmt, env, fuel);
    }

    /** A whole run: a new global Environment, then Program.exec on it. */
    method Run(p: Program, fuel: nat) returns (r: Result<()>)
      requires envs.scopes == [] && output == []
      modifies this, envs
      ensures Outcome(r, Now()) == Interpreter.Run(p, fuel)
    {
      var root := envs.NewRoot();
      r := ExecProgram(p, root, fuel);
    }
  }
}
