/**
 * The MIPS generator: the `compile` methods of the classes in src/ast. Each
 * node appends a fixed list of lines to the emitter, so the model first
 * states, as functions, exactly which lines a node produces and how far it
 * moves the label counter, and then proves the compile methods, which drive
 * a real `Emitter`, append exactly those lines.
 *
 * A node without a compile method of its own (ProcedureCall, through
 * Expression.java:24-27) throws; everything emitted before the throw stays in
 * the file and nothing after it is emitted, which the `ok` flags record.
 */
module CodeGen {
  import opened JavaInt
  import opened Ast
  import opened Emission


  /** The lines an expression or condition appends, and whether its compile returned normally. */
  datatype Emitted = Emitted(lines: seq<string>, ok: bool)

  /** The lines a statement appends, the label counter afterwards, and whether its compile returned normally. */
  datatype Code = Code(lines: seq<string>, next: nat, ok: bool)

  /** The data word of a variable (Variable.java:44, Assignment.java:47, Program.java:71). */
  function Symbol(x: string): string
  {
    "var" + x
  }

  // ---------------------------------------------------------------------------
  // Expressions and conditions
  // ---------------------------------------------------------------------------

  /** Number.java:40-44. */
  function NumberCode(n: i32): seq<string>
  {
    [Line("# Sets $v0 to " + IntToString(n as int)), Line("li $v0 " + IntToString(n as int) + "\n")]
  }

  /** Variable.java:41-46. */
  function VariableCode(x: string): seq<string>
  {
    [Line("# Sets $v0 to " + Symbol(x)), Line("la $t0 " + Symbol(x)), Line("lw $v0 ($t0)\n")]
  }

  /** BinOp.java:71-90: the combining instruction; none for an operator it does not know. */
  function OperatorCode(op: string): seq<string>
  {
    if op == "+" then [Line("# Adds $t0 and $v0"), Line("addu $v0 $t0 $v0\n")]
    else if op == "-" then [Line("# Subtracts $v0 from $t0"), Line("subu $v0 $t0 $v0\n")]
    else if op == "*" then [Line("# Multiplies and $v0"), Line("mulu $v0 $t0 $v0\n")]
    else if op == "/" then [Line("# Divides $t0 by $v0"), Line("divu $v0 $t0 $v0\n")]
    else []
  }

  /**
   * BinOp.java:66-69 and Condition.java:81-84: the left operand's code, a
   * push of $v0, the right operand's code, a pop into $t0 — cut short where
   * an operand's compile throws.
   */
  function Operands(left: Emitted, right: Emitted): Emitted
  {
    if !left.ok then left
    else if !right.ok then Emitted(left.lines + PushCode("$v0") + right.lines, false)
    else Emitted(left.lines + PushCode("$v0") + right.lines + PopCode("$t0"), true)
  }

  /** Number.java:40-44, Variable.java:41-46, BinOp.java:63-91, Expression.java:24-27. */
  function ExprCode(e: Expr): Emitted
    decreases e, 1
  {
    match e
    case Number(n) => Emitted(NumberCode(n), true)
    case Variable(x) => Emitted(VariableCode(x), true)
    case BinOp(op, left, right) => BinOpCode(op, left, right)
    case ProcedureCall(_, _) => Emitted([], false)
  }

  /** BinOp.java:63-91: both operands through the stack, then the operator. */
  function BinOpCode(op: string, left: Expr, right: Expr): Emitted
    decreases BinOp(op, left, right), 0
  {
    var o := Operands(ExprCode(left), ExprCode(right));
    if !o.ok then o else Emitted(o.lines + OperatorCode(op), true)
  }

  /** Condition.java:86-109: the branch taken when the relation does NOT hold. */
  function Mnemonic(relop: string): string
  {
    if relop == "=" then "bne"
    else if relop == "<>" then "beq"
    else if relop == "<" then "bge"
    else if relop == ">" then "ble"
    else if relop == "<=" then "bgt"
    else "blt"
  }

  /** Condition.java:86-109: one branch line for the six operators, none for any other. */
  function BranchCode(relop: string, dest: string): seq<string>
  {
    if IsRelop(relop) then [Line(Mnemonic(relop) + " $t0 $v0 " + dest)] else []
  }

  /** Condition.java:79-113: the operands, the branch away to `dest`, an empty line. */
  function CondCode(c: Condition, dest: string): Emitted
  {
    var o := Operands(ExprCode(c.left), ExprCode(c.right));
    if !o.ok then o else Emitted(o.lines + BranchCode(c.relop, dest) + [Line("")], true)
  }

  // ---------------------------------------------------------------------------
  // Statements and programs
  // ---------------------------------------------------------------------------

  /** The three kinds of label the statements define. */
  datatype LabelKind = EndIf | BeginWhile | EndWhile

  /** If.java:47 and While.java:48-50: a label is its kind's prefix followed by the id in decimal. */
  function LabelName(k: LabelKind, id: nat): string
  {
    match k
    case EndIf => "endif" + NatToString(id)
    case BeginWhile => "beginwhile" + NatToString(id)
    case EndWhile => "endwhile" + NatToString(id)
  }

  /** Writeln.java:42-50: print $v0 as an integer, then the newline string. */
  const PrintCode: seq<string> := [
    Line("# Prints $v0"), Line("move $a0 $v0"), Line("li $v0 1"), Line("syscall\n"),
    Line("# Prints a new line"), Line("la $a0 newline"), Line("li $v0 4"), Line("syscall\n")]

  /** Assignment.java:46-48: store $v0 into the variable's word. */
  function StoreCode(x: string): seq<string>
  {
    [Line("# Assigns $v0 to " + Symbol(x)), Line("la $t0 " + Symbol(x)), Line("sw $v0 ($t0)\n")]
  }

  /**
   * Writeln.java:40-51, Block.java:44-50, Assignment.java:43-49,
   * If.java:45-52, While.java:46-57, compiled with the label counter at `n`.
   */
  function StmtCode(s: Stmt, n: nat): (c: Code)
    ensures n <= c.next
    decreases s, 1, 0
  {
    match s
    case Writeln(e) =>
      var a := ExprCode(e);
      Code(if a.ok then a.lines + PrintCode else a.lines, n, a.ok)
    case Block(ss) => BlockCode(ss, 0, n)
    case Assignment(x, e) =>
      var a := ExprCode(e);
      Code(if a.ok then a.lines + StoreCode(x) else a.lines, n, a.ok)
    case If(c, body) => IfCode(c, body, n)
    case While(c, body) => WhileCode(c, body, n)
  }

  /** If.java:45-52: the condition branching to `endifN`, the body, an empty line, `endifN:`. */
  function IfCode(c: Condition, body: Stmt, n: nat): (r: Code)
    ensures n <= r.next
    decreases If(c, body), 0, 0
  {
    var id := n + 1;
    var dest := LabelName(EndIf, id);
    var t := CondCode(c, dest);
    if !t.ok then Code(t.lines, id, false)
    else
      var b := StmtCode(body, id);
      if !b.ok then Code(t.lines + b.lines, b.next, false)
      else Code(t.lines + b.lines + [Line(""), Line(dest + ":")], b.next, true)
  }

  /** While.java:46-57: `beginwhileN:`, the condition branching to `endwhileN`, the body, the jump back, `endwhileN:`. */
  function WhileCode(c: Condition, body: Stmt, n: nat): (r: Code)
    ensures n <= r.next
    decreases While(c, body), 0, 0
  {
    var id := n + 1;
    var begin := LabelName(BeginWhile, id);
    var end := LabelName(EndWhile, id);
    var head := [Line(begin + ":")];
    var t := CondCode(c, end);
    if !t.ok then Code(head + t.lines, id, false)
    else
      var b := StmtCode(body, id);
      if !b.ok then Code(head + t.lines + b.lines, b.next, false)
      else Code(head + t.lines + b.lines + [Line("j " + begin + "\n"), Line(end + ":")], b.next, true)
  }

  /** Block.java:44-50: the statements from index `i` on, each continuing the label counter. */
  function BlockCode(ss: seq<Stmt>, i: nat, n: nat): (c: Code)
    requires i <= |ss|
    ensures n <= c.next
    decreases ss, 1, |ss| - i
  {
    if i == |ss| then Code([], n, true)
    else
      var a := StmtCode(ss[i], n);
      if !a.ok then a
      else
        var rest := BlockCode(ss, i + 1, a.next);
        Code(a.lines + rest.lines, rest.next, rest.ok)
  }

  /** Program.java:60-63. */
  const Prologue: seq<string> := [Line("# @author Gabriel Chai"), Line(".text"), Line(".globl main"), Line("main:")]

  /** Program.java:65-68. */
  const Epilogue: seq<string> := [Line("li $v0 10"), Line("syscall #halt"), Line(".data"), Line("newline: .asciiz \"\\n\" ")]

  /** Program.java:71: the word that holds variable `x`, initially zero. */
  function WordCode(x: string): string
  {
    Symbol(x) + ": .word 0"
  }

  /** Program.java:71: the line that declares the word of variable `x`. */
  function WordLine(x: string): string
  {
    Line(WordCode(x))
  }

  /** The lines a loop writes that emits `f(x)` for each `x` of `xs` in turn. */
  function Each(f: string -> string, xs: seq<string>): seq<string>
    decreases |xs|
  {
    if |xs| == 0 then [] else Each(f, xs[..|xs| - 1]) + [f(xs[|xs| - 1])]
  }

  /** Program.java:69-72: one zero word per variable, in order. */
  function DataCode(vs: seq<string>): seq<string>
  {
    Each(WordLine, vs)
  }

  /**
   * Program.java:57-74: a fresh emitter (so label ids start again at 1),
   * the prologue, the main statement, the halt sequence and the data
   * section. The procedure declarations are not compiled.
   */
  function ProgramCode(p: Program): Emitted
  {
    var b := StmtCode(p.stmt, 0);
    if !b.ok then Emitted(Prologue + b.lines, false)
    else Emitted(Prologue + b.lines + Epilogue + DataCode(p.variables), true)
  }

  // ---------------------------------------------------------------------------
  // The compile methods
  // ---------------------------------------------------------------------------

  /** Appending piece by piece builds the same file as appending the pieces joined. */
  lemma Associative(a: seq<string>, b: seq<string>, c: seq<string>)
    ensures a + (b + c) == a + b + c
  {
  }

  /** Two lines appended one at a time are the two lines appended together. */
  lemma TwoLines(a: seq<string>, x: string, y: string)
    ensures a + [x] + [y] == a + [x, y]
  {
  }

  /** BinOp.java:71-90. */
  method CompileOperator(op: string, em: Emitter)
    modifies em
    ensures em.lines == old(em.lines) + OperatorCode(op) && em.labelID == old(em.labelID)
  {
    if op == "+" {
      em.Emit("# Adds $t0 and $v0");
      em.Emit("addu $v0 $t0 $v0\n");
    } else if op == "-" {
      em.Emit("# Subtracts $v0 from $t0");
      em.Emit("subu $v0 $t0 $v0\n");
    } else if op == "*" {
      em.Emit("# Multiplies and $v0");
      em.Emit("mulu $v0 $t0 $v0\n");
    } else if op == "/" {
      em.Emit("# Divides $t0 by $v0");
      em.Emit("divu $v0 $t0 $v0\n");
    }
  }

  /** Number.java:40-44, Variable.java:41-46, BinOp.java:63-91, Expression.java:24-27. */
  method CompileExpr(e: Expr, em: Emitter) returns (ok: bool)
    modifies em
    ensures em.lines == old(em.lines) + ExprCode(e).lines && ok == ExprCode(e).ok
    ensures em.labelID == old(em.labelID)
    decreases e
  {
    match e
    case Number(n) =>
      em.Emit("# Sets $v0 to " + IntToString(n as int));
      em.Emit("li $v0 " + IntToString(n as int) + "\n");
      ok := true;
    case Variable(x) =>
      em.Emit("# Sets $v0 to " + Symbol(x));
      em.Emit("la $t0 " + Symbol(x));
      em.Emit("lw $v0 ($t0)\n");
      ok := true;
    case BinOp(op, left, right) =>
      ghost var start := em.lines;
      ok := CompileExpr(left, em);
      if !ok {
        return;
      }
      ghost var done := ExprCode(left).lines;
      em.EmitPush("$v0");
      Associative(start, done, PushCode("$v0"));
      done := done + PushCode("$v0");
      ok := CompileExpr(right, em);
      Associative(start, done, ExprCode(right).lines);
      done := done + ExprCode(right).lines;
      if !ok {
        return;
      }
      em.EmitPop("$t0");
      Associative(start, done, PopCode("$t0"));
      done := done + PopCode("$t0");
      CompileOperator(op, em);
      Associative(start, done, OperatorCode(op));
    case ProcedureCall(_, _) =>
      ok := false;
  }

  /** Condition.java:86-109. */
  method CompileBranch(relop: string, dest: string, em: Emitter)
    modifies em
    ensures em.lines == old(em.lines) + BranchCode(relop, dest) && em.labelID == old(em.labelID)
  {
    var mnemonic := "";
    if relop == "=" {
      mnemonic := "bne";
    } else if relop == "<>" {
      mnemonic := "beq";
    } else if relop == "<" {
      mnemonic := "bge";
    } else if relop == ">" {
      mnemonic := "ble";
    } else if relop == "<=" {
      mnemonic := "bgt";
    } else if relop == ">=" {
      mnemonic := "blt";
    }
    if mnemonic != "" {
      em.Emit(mnemonic + " $t0 $v0 " + dest);
    }
  }

  /** Condition.java:79-113. */
  method CompileCondition(c: Condition, dest: string, em: Emitter) returns (ok: bool)
    modifies em
    ensures em.lines == old(em.lines) + CondCode(c, dest).lines && ok == CondCode(c, dest).ok
    ensures em.labelID == old(em.labelID)
  {
    ghost var start := em.lines;
    ok := CompileExpr(c.left, em);
    if !ok {
      return;
    }
    ghost var done := ExprCode(c.left).lines;
    em.EmitPush("$v0");
    Associative(start, done, PushCode("$v0"));
    done := done + PushCode("$v0");
    ok := CompileExpr(c.right, em);
    Associative(start, done, ExprCode(c.right).lines);
    done := done + ExprCode(c.right).lines;
    if !ok {
      return;
    }
    em.EmitPop("$t0");
    Associative(start, done, PopCode("$t0"));
    done := done + PopCode("$t0");
    CompileBranch(c.relop, dest, em);
    Associative(start, done, BranchCode(c.relop, dest));
    done := done + BranchCode(c.relop, dest);
    em.Emit("");
    Associative(start, done, [Line("")]);
  }

  /** Writeln.java:42-50. */
  method CompilePrint(em: Emitter)
    modifies em
    ensures em.lines == old(em.lines) + PrintCode && em.labelID == old(em.labelID)
  {
    em.Emit("# Prints $v0");
    em.Emit("move $a0 $v0");
    em.Emit("li $v0 1");
    em.Emit("syscall\n");
    em.Emit("# Prints a new line");
    em.Emit("la $a0 newline");
    em.Emit("li $v0 4");
    em.Emit("syscall\n");
  }

  /** Assignment.java:46-48. */
  method CompileStore(x: string, em: Emitter)
    modifies em
    ensures em.lines == old(em.lines) + StoreCode(x) && em.labelID == old(em.labelID)
  {
    em.Emit("# Assigns $v0 to " + Symbol(x));
    em.Emit("la $t0 " + Symbol(x));
    em.Emit("sw $v0 ($t0)\n");
  }

  /** Writeln.java:40-51: the value into $v0, then the print sequence. */
  method CompileWriteln(e: Expr, em: Emitter) returns (ok: bool)
    modifies em
    ensures var c := StmtCode(Writeln(e), old(em.labelID));
      em.lines == old(em.lines) + c.lines && em.labelID == c.next && ok == c.ok
  {
    ghost var start := em.lines;
    ok := CompileExpr(e, em);
    if ok {
      CompilePrint(em);
      Associative(start, ExprCode(e).lines, PrintCode);
    }
  }

  /** Assignment.java:43-49: the value into $v0, then the store into the variable's word. */
  method CompileAssignment(x: string, e: Expr, em: Emitter) returns (ok: bool)
    modifies em
    ensures var c := StmtCode(Assignment(x, e), old(em.labelID));
      em.lines == old(em.lines) + c.lines && em.labelID == c.next && ok == c.ok
  {
    ghost var start := em.lines;
    ok := CompileExpr(e, em);
    if ok {
      CompileStore(x, em);
      Associative(start, ExprCode(e).lines, StoreCode(x));
    }
  }

  /**
   * Writeln.java:40-51, Block.java:44-50, Assignment.java:43-49,
   * If.java:45-52, While.java:46-57.
   */
  method CompileStmt(s: Stmt, em: Emitter) returns (ok: bool)
    modifies em
    ensures var c := StmtCode(s, old(em.labelID));
      em.lines == old(em.lines) + c.lines && em.labelID == c.next && ok == c.ok
    decreases s, 1
  {
    match s
    case Writeln(e) =>
      ok := CompileWriteln(e, em);
    case Block(ss) =>
      ok := CompileBlock(ss, em);
    case Assignment(x, e) =>
      ok := CompileAssignment(x, e, em);
    case If(c, body) =>
      ok := CompileIf(c, body, em);
    case While(c, body) =>
      ok := CompileWhile(c, body, em);
  }

  /** One step of Block.java:44-50: the first statement's code, then the rest's if it returned normally. */
  lemma BlockStep(ss: seq<Stmt>, i: nat, n: nat)
    requires i < |ss|
    ensures var first := StmtCode(ss[i], n);
      var rest := BlockCode(ss, i + 1, first.next);
      BlockCode(ss, i, n) == if first.ok then Code(first.lines + rest.lines, rest.next, rest.ok) else first
  {
  }

  /** Block.java:44-50. */
  method CompileBlock(ss: seq<Stmt>, em: Emitter) returns (ok: bool)
    modifies em
    ensures var c := BlockCode(ss, 0, old(em.labelID));
      em.lines == old(em.lines) + c.lines && em.labelID == c.next && ok == c.ok
    decreases Block(ss), 0
  {
    ghost var whole := BlockCode(ss, 0, em.labelID);
    ghost var done: seq<string> := [];
    var i := 0;
    while i < |ss|
      invariant i <= |ss| && em.lines == old(em.lines) + done
      invariant var rest := BlockCode(ss, i, em.labelID);
        whole.lines == done + rest.lines && whole.next == rest.next && whole.ok == rest.ok
    {
      ghost var first := StmtCode(ss[i], em.labelID);
      ghost var rest := BlockCode(ss, i + 1, first.next);
      BlockStep(ss, i, em.labelID);
      ok := CompileStmt(ss[i], em);
      Associative(old(em.lines), done, first.lines);
      Associative(done, first.lines, rest.lines);
      done := done + first.lines;
      if !ok {
        return;
      }
      i := i + 1;
    }
    ok := true;
  }

  /** The two ways IfCode can end: in the condition, or after it. */
  lemma IfParts(c: Condition, body: Stmt, n: nat)
    ensures var dest := LabelName(EndIf, n + 1);
      var t := CondCode(c, dest);
      var l := ThenCode(body, n + 1, "", dest + ":");
      var r := IfCode(c, body, n);
      && (!t.ok ==> r.lines == t.lines && r.next == n + 1 && !r.ok)
      && (t.ok ==> r.lines == t.lines + l.lines && r.next == l.next && r.ok == l.ok)
  {
  }

  /** If.java:45-52. */
  method CompileIf(c: Condition, body: Stmt, em: Emitter) returns (ok: bool)
    modifies em
    ensures var r := IfCode(c, body, old(em.labelID));
      em.lines == old(em.lines) + r.lines && em.labelID == r.next && ok == r.ok
    decreases If(c, body), 0
  {
    ghost var start := em.lines;
    IfParts(c, body, em.labelID);
    var id := em.NextLabelID();
    var dest := LabelName(EndIf, id);
    ok := CompileCondition(c, dest, em);
    if ok {
      ghost var t := CondCode(c, dest).lines;
      ok := CompileThen(body, "", dest + ":", em);
      Associative(start, t, ThenCode(body, id, "", dest + ":").lines);
    }
  }

  /** The two ways WhileCode can end: in the condition, or after it. */
  lemma WhileParts(c: Condition, body: Stmt, n: nat)
    ensures var begin := LabelName(BeginWhile, n + 1);
      var end := LabelName(EndWhile, n + 1);
      var t := CondCode(c, end);
      var r := WhileCode(c, body, n);
      var l := ThenCode(body, n + 1, "j " + begin + "\n", end + ":");
      && (!t.ok ==> r.lines == [Line(begin + ":")] + t.lines && r.next == n + 1 && !r.ok)
      && (t.ok ==> r.lines == [Line(begin + ":")] + t.lines + l.lines && r.next == l.next && r.ok == l.ok)
  {
  }

  /** While.java:46-57. */
  method CompileWhile(c: Condition, body: Stmt, em: Emitter) returns (ok: bool)
    modifies em
    ensures var r := WhileCode(c, body, old(em.labelID));
      em.lines == old(em.lines) + r.lines && em.labelID == r.next && ok == r.ok
    decreases While(c, body), 0
  {
    ghost var start := em.lines;
    WhileParts(c, body, em.labelID);
    var id := em.NextLabelID();
    var begin := LabelName(BeginWhile, id);
    var end := LabelName(EndWhile, id);
    em.Emit(begin + ":");
    ghost var done := [Line(begin + ":")];
    ok := CompileCondition(c, end, em);
    Associative(start, done, CondCode(c, end).lines);
    done := done + CondCode(c, end).lines;
    if ok {
      ok := CompileThen(body, "j " + begin + "\n", end + ":", em);
      Associative(start, done, ThenCode(body, id, "j " + begin + "\n", end + ":").lines);
    }
  }

  /**
   * If.java:50-51 and While.java:53-56: the body's code, then two more lines
   * (an empty line and `endifN:`; the jump back and `endwhileN:`) if the body
   * compiled.
   */
  function ThenCode(body: Stmt, id: nat, first: string, second: string): Code
  {
    var b := StmtCode(body, id);
    if !b.ok then b else Code(b.lines + [Line(first), Line(second)], b.next, true)
  }

  /** If.java:50-51 and While.java:53-56. */
  method CompileThen(body: Stmt, first: string, second: string, em: Emitter) returns (ok: bool)
    modifies em
    ensures var r := ThenCode(body, old(em.labelID), first, second);
      em.lines == old(em.lines) + r.lines && em.labelID == r.next && ok == r.ok
    decreases body, 2
  {
    ok := CompileStmt(body, em);
    if ok {
      em.Emit(first);
      em.Emit(second);
      TwoLines(old(em.lines) + StmtCode(body, old(em.labelID)).lines, Line(first), Line(second));
      Associative(old(em.lines), StmtCode(body, old(em.labelID)).lines, [Line(first), Line(second)]);
    }
  }

  /** Four lines appended one at a time are the four lines appended together. */
  lemma FourLines(a: seq<string>, b: seq<string>)
    requires |b| == 4
    ensures a + [b[0]] + [b[1]] + [b[2]] + [b[3]] == a + b
  {
  }

  /** Program.java:69-72. */
  method CompileData(vs: seq<string>, em: Emitter)
    modifies em
    ensures em.lines == old(em.lines) + DataCode(vs) && em.labelID == old(em.labelID)
  {
    for i := 0 to |vs|
      invariant em.lines == old(em.lines) + Each(WordLine, vs[..i]) && em.labelID == old(em.labelID)
    {
      assert vs[..i + 1][..i] == vs[..i];
      assert Each(WordLine, vs[..i + 1]) == Each(WordLine, vs[..i]) + [WordLine(vs[i])];
      em.Emit(WordCode(vs[i]));
      Associative(old(em.lines), Each(WordLine, vs[..i]), [WordLine(vs[i])]);
    }
    assert vs[..|vs|] == vs;
  }

  /** Program.java:57-74: the lines of the output file, and whether compilation returned normally. */
  method CompileProgram(p: Program) returns (lines: seq<string>, ok: bool)
    ensures lines == ProgramCode(p).lines && ok == ProgramCode(p).ok
  {
    var em := new Emitter();
    em.Emit("# @author Gabriel Chai");
    em.Emit(".text");
    em.Emit(".globl main");
    em.Emit("main:");
    FourLines([], Prologue);
    assert em.lines == Prologue;
    ghost var done := Prologue + StmtCode(p.stmt, 0).lines;
    ok := CompileStmt(p.stmt, em);
    if ok {
      em.Emit("li $v0 10");
      em.Emit("syscall #halt");
      em.Emit(".data");
      em.Emit("newline: .asciiz \"\\n\" ");
      FourLines(done, Epilogue);
      assert em.lines == done + Epilogue;
      done := done + Epilogue;
      CompileData(p.variables, em);
    }
    lines := em.lines;
  }
}
