/**
 * What the generated MIPS text is known to satisfy: which trees compile at
 * all, how many label ids a statement draws, that no label is ever defined
 * twice, and the layout of the data section.
 */
module CodeFacts {
  import opened JavaInt
  import opened Ast
  import opened Emission
  import opened CodeGen

  // ---------------------------------------------------------------------------
  // Which trees compile
  // ---------------------------------------------------------------------------

  /** The expression contains a procedure call, the one kind of expression without a compile method. */
  predicate ExprCalls(e: Expr)
  {
    match e
    case Number(_) => false
    case Variable(_) => false
    case BinOp(_, left, right) => ExprCalls(left) || ExprCalls(right)
    case ProcedureCall(_, _) => true
  }

  predicate CondCalls(c: Condition)
  {
    ExprCalls(c.left) || ExprCalls(c.right)
  }

  /** The statement contains a procedure call somewhere in an expression. */
  predicate StmtCalls(s: Stmt)
    decreases s
  {
    match s
    case Writeln(e) => ExprCalls(e)
    case Block(ss) => exists i :: 0 <= i < |ss| && StmtCalls(ss[i])
    case Assignment(_, e) => ExprCalls(e)
    case If(c, body) => CondCalls(c) || StmtCalls(body)
    case While(c, body) => CondCalls(c) || StmtCalls(body)
  }

  /** The number of If and While nodes: each draws one label id (If.java:47, While.java:48). */
  function Branches(s: Stmt): nat
    decreases s, 0, 0
  {
    match s
    case Writeln(_) => 0
    case Block(ss) => BlockBranches(ss, 0)
    case Assignment(_, _) => 0
    case If(_, body) => 1 + Branches(body)
    case While(_, body) => 1 + Branches(body)
  }

  function BlockBranches(ss: seq<Stmt>, i: nat): nat
    requires i <= |ss|
    decreases ss, 1, |ss| - i
  {
    if i == |ss| then 0 else Branches(ss[i]) + BlockBranches(ss, i + 1)
  }

  /** Expression.java:24-27: an expression compiles exactly when it contains no call. */
  lemma {:induction false} ExprCompiles(e: Expr)
    ensures ExprCode(e).ok <==> !ExprCalls(e)
    decreases e
  {
    match e
    case BinOp(_, left, right) =>
      ExprCompiles(left);
      ExprCompiles(right);
    case _ =>
  }

  /** Condition.java:79-113: a condition compiles exactly when neither operand contains a call. */
  lemma CondCompiles(c: Condition, dest: string)
    ensures CondCode(c, dest).ok <==> !CondCalls(c)
  {
    ExprCompiles(c.left);
    ExprCompiles(c.right);
  }

  /**
   * Statement.java:23-26 and the statements' compile methods: a statement
   * compiles exactly when it contains no call, and then it draws one label
   * id per If and While, so the counter advances by exactly that many.
   */
  lemma {:induction false} StmtCompiles(s: Stmt, n: nat)
    ensures StmtCode(s, n).ok <==> !StmtCalls(s)
    ensures StmtCode(s, n).ok ==> StmtCode(s, n).next == n + Branches(s)
    decreases s, 1, 0
  {
    match s
    case Writeln(e) => ExprCompiles(e);
    case Block(ss) => BlockCompiles(ss, 0, n);
    case Assignment(_, e) => ExprCompiles(e);
    case If(c, body) =>
      IfCompiles(c, body, n);
    case While(c, body) =>
      WhileCompiles(c, body, n);
  }

  lemma {:induction false} IfCompiles(c: Condition, body: Stmt, n: nat)
    ensures StmtCode(If(c, body), n).ok <==> !StmtCalls(If(c, body))
    ensures StmtCode(If(c, body), n).ok ==> StmtCode(If(c, body), n).next == n + Branches(If(c, body))
    decreases If(c, body), 0, 0
  {
    CondCompiles(c, LabelName(EndIf, n + 1));
    StmtCompiles(body, n + 1);
  }

  lemma {:induction false} WhileCompiles(c: Condition, body: Stmt, n: nat)
    ensures StmtCode(While(c, body), n).ok <==> !StmtCalls(While(c, body))
    ensures StmtCode(While(c, body), n).ok ==> StmtCode(While(c, body), n).next == n + Branches(While(c, body))
    decreases While(c, body), 0, 0
  {
    CondCompiles(c, LabelName(EndWhile, n + 1));
    StmtCompiles(body, n + 1);
  }

  /** Block.java:44-50. */
  lemma {:induction false} BlockCompiles(ss: seq<Stmt>, i: nat, n: nat)
    requires i <= |ss|
    ensures BlockCode(ss, i, n).ok <==> forall j :: i <= j < |ss| ==> !StmtCalls(ss[j])
    ensures BlockCode(ss, i, n).ok ==> BlockCode(ss, i, n).next == n + BlockBranches(ss, i)
    decreases ss, 1, |ss| - i
  {
    if i < |ss| {
      var first := StmtCode(ss[i], n);
      StmtCompiles(ss[i], n);
      BlockStep(ss, i, n);
      if first.ok {
        BlockCompiles(ss, i + 1, first.next);
        assert (forall j :: i <= j < |ss| ==> !StmtCalls(ss[j]))
          <==> !StmtCalls(ss[i]) && forall j :: i + 1 <= j < |ss| ==> !StmtCalls(ss[j]);
      }
    }
  }

  /** Program.java:57-74: a program compiles exactly when its main statement contains no call. */
  lemma ProgramCompiles(p: Program)
    ensures ProgramCode(p).ok <==> !StmtCalls(p.stmt)
  {
    StmtCompiles(p.stmt, 0);
  }

  /** BinOp.java:71-90: an operator outside the four adds no instruction after the operands. */
  lemma UnknownOperatorEmitsOperandsOnly(op: string, left: Expr, right: Expr)
    requires !IsOperator(op) && ExprCode(BinOp(op, left, right)).ok
    ensures ExprCode(BinOp(op, left, right)).lines == Operands(ExprCode(left), ExprCode(right)).lines
  {
  }

  /**
   * Expression.java:24-27: compiling a call throws before it emits anything,
   * and so does compiling an operation whose left operand is a call.
   */
  lemma CallEmitsNothing(name: string, args: seq<Expr>, op: string, right: Expr)
    ensures ExprCode(ProcedureCall(name, args)) == Emitted([], false)
    ensures ExprCode(BinOp(op, ProcedureCall(name, args), right)) == Emitted([], false)
  {
  }

  /** Program.java:57-74: the procedure declarations have no influence on the output. */
  lemma ProceduresNotCompiled(p: Program, q: Program)
    requires p.variables == q.variables && p.stmt == q.stmt
    ensures ProgramCode(p) == ProgramCode(q)
  {
  }

  // ---------------------------------------------------------------------------
  // Labels
  // ---------------------------------------------------------------------------

  /** No line is a label definition. */
  predicate NoLabels(lines: seq<string>)
  {
    forall i :: 0 <= i < |lines| ==> !EndsWithColon(lines[i])
  }

  /** No label is defined twice. */
  predicate DistinctLabels(lines: seq<string>)
  {
    forall i, j :: 0 <= i < j < |lines| && EndsWithColon(lines[i]) ==> lines[i] != lines[j]
  }

  /** `l` is the definition of a numbered label whose id lies in (lo, hi]. */
  predicate Numbered(l: string, lo: nat, hi: nat)
  {
    exists k: LabelKind, id: nat :: lo < id <= hi && l == LabelName(k, id) + ":"
  }

  /** Every label defined in `lines` is numbered with an id in (lo, hi]. */
  predicate LabelsIn(lines: seq<string>, lo: nat, hi: nat)
  {
    forall i :: 0 <= i < |lines| && EndsWithColon(lines[i]) ==> Numbered(lines[i], lo, hi)
  }

  /** A name that cannot make a line look like a label: it does not end with a colon. */
  predicate Plain(x: string)
  {
    !EndsWithColon(x)
  }

  /** Every variable the expression names is plain. */
  predicate ExprPlain(e: Expr)
  {
    match e
    case Number(_) => true
    case Variable(x) => Plain(x)
    case BinOp(_, left, right) => ExprPlain(left) && ExprPlain(right)
    case ProcedureCall(_, _) => true
  }

  /** Every variable the statement names, read or assigned, is plain. */
  predicate StmtPlain(s: Stmt)
    decreases s
  {
    match s
    case Writeln(e) => ExprPlain(e)
    case Block(ss) => forall i :: 0 <= i < |ss| ==> StmtPlain(ss[i])
    case Assignment(x, e) => Plain(x) && ExprPlain(e)
    case If(c, body) => ExprPlain(c.left) && ExprPlain(c.right) && StmtPlain(body)
    case While(c, body) => ExprPlain(c.left) && ExprPlain(c.right) && StmtPlain(body)
  }

  /** A line whose code ends with a non-empty piece that is not a label is not a label. */
  lemma EndsLike(p: string, x: string)
    requires |x| > 0 && !EndsWithColon(x)
    ensures !EndsWithColon(Line(p + x))
  {
    LineKeepsLabels(p + x);
    assert (p + x)[|p + x| - 1] == x[|x| - 1];
  }

  /** Decimal numerals end with a digit. */
  lemma NumeralNotLabel(p: string, n: int)
    ensures !EndsWithColon(Line(p + IntToString(n)))
  {
    var d := IntToString(n);
    assert |d| > 0 && IsAsciiDigit(d[|d| - 1]);
    EndsLike(p, d);
  }

  /** The data word of a plain name does not end with a colon. */
  lemma SymbolPlain(x: string)
    requires Plain(x)
    ensures |Symbol(x)| > 0 && !EndsWithColon(Symbol(x))
  {
    if |x| > 0 {
      assert Symbol(x)[|Symbol(x)| - 1] == x[|x| - 1];
    }
  }

  /** Appending keeps `NoLabels`. */
  lemma NoLabelsAppend(a: seq<string>, b: seq<string>)
    requires NoLabels(a) && NoLabels(b)
    ensures NoLabels(a + b)
  {
    assert forall i :: |a| <= i < |a + b| ==> (a + b)[i] == b[i - |a|];
  }

  /** Emitter.java:58-72: the push and pop lines are no labels. */
  lemma StackLinesNoLabels()
    ensures NoLabels(PushCode("$v0")) && NoLabels(PopCode("$t0"))
  {
    LineKeepsLabels("subu $sp $sp 4");
    EndsLike("sw " + "$v0", " ($sp)\n");
    EndsLike("lw " + "$t0", " ($sp)");
    LineKeepsLabels("addu $sp $sp 4\n");
  }

  /** BinOp.java:71-90: the combining instruction is no label. */
  lemma OperatorNoLabels(op: string)
    ensures NoLabels(OperatorCode(op))
  {
    if op == "+" {
      LineKeepsLabels("# Adds $t0 and $v0");
      LineKeepsLabels("addu $v0 $t0 $v0\n");
    } else if op == "-" {
      LineKeepsLabels("# Subtracts $v0 from $t0");
      LineKeepsLabels("subu $v0 $t0 $v0\n");
    } else if op == "*" {
      LineKeepsLabels("# Multiplies and $v0");
      LineKeepsLabels("mulu $v0 $t0 $v0\n");
    } else if op == "/" {
      LineKeepsLabels("# Divides $t0 by $v0");
      LineKeepsLabels("divu $v0 $t0 $v0\n");
    }
  }

  /** Writeln.java:42-50 and the empty line of Condition.java:110 and If.java:50 are no labels. */
  lemma PrintNoLabels()
    ensures NoLabels(PrintCode) && NoLabels([Line("")])
  {
    LineKeepsLabels("# Prints $v0");
    LineKeepsLabels("move $a0 $v0");
    LineKeepsLabels("li $v0 1");
    LineKeepsLabels("syscall\n");
    LineKeepsLabels("# Prints a new line");
    LineKeepsLabels("la $a0 newline");
    LineKeepsLabels("li $v0 4");
    LineKeepsLabels("");
  }

  /** Number.java:40-44: loading a constant defines no label. */
  lemma NumberNoLabels(n: i32)
    ensures NoLabels(NumberCode(n))
  {
    NumeralNotLabel("# Sets $v0 to ", n as int);
    EndsLike("li $v0 " + IntToString(n as int), "\n");
  }

  /** Variable.java:41-46: loading a plain variable defines no label. */
  lemma VariableNoLabels(x: string)
    requires Plain(x)
    ensures NoLabels(VariableCode(x))
  {
    SymbolPlain(x);
    EndsLike("# Sets $v0 to ", Symbol(x));
    EndsLike("la $t0 ", Symbol(x));
    LineKeepsLabels("lw $v0 ($t0)\n");
    ThreeNoLabels(Line("# Sets $v0 to " + Symbol(x)), Line("la $t0 " + Symbol(x)), Line("lw $v0 ($t0)\n"));
  }

  /** Number.java, Variable.java, BinOp.java: an expression's code defines no label. */
  lemma {:induction false} ExprNoLabels(e: Expr)
    requires ExprPlain(e)
    ensures NoLabels(ExprCode(e).lines)
    decreases e
  {
    match e
    case Number(n) => NumberNoLabels(n);
    case Variable(x) => VariableNoLabels(x);
    case BinOp(op, left, right) =>
      ExprNoLabels(left);
      ExprNoLabels(right);
      OperandsNoLabels(ExprCode(left), ExprCode(right), op);
    case ProcedureCall(_, _) =>
  }

  lemma OperandsNoLabels(a: Emitted, b: Emitted, op: string)
    requires NoLabels(a.lines) && NoLabels(b.lines)
    ensures NoLabels(Operands(a, b).lines) && NoLabels(Operands(a, b).lines + OperatorCode(op))
  {
    StackLinesNoLabels();
    OperatorNoLabels(op);
    NoLabelsAppend(a.lines, PushCode("$v0"));
    NoLabelsAppend(a.lines + PushCode("$v0"), b.lines);
    NoLabelsAppend(a.lines + PushCode("$v0") + b.lines, PopCode("$t0"));
    NoLabelsAppend(Operands(a, b).lines, OperatorCode(op));
  }

  /**
   * Condition.java:79-113: a condition's code defines no label either; the
   * target appears only as the operand of its one branch line.
   */
  lemma CondNoLabels(c: Condition, k: LabelKind, id: nat)
    requires ExprPlain(c.left) && ExprPlain(c.right)
    ensures NoLabels(CondCode(c, LabelName(k, id)).lines)
  {
    var dest := LabelName(k, id);
    ExprNoLabels(c.left);
    ExprNoLabels(c.right);
    OperandsNoLabels(ExprCode(c.left), ExprCode(c.right), "");
    var o := Operands(ExprCode(c.left), ExprCode(c.right));
    PrintNoLabels();
    LabelEndsWithDigit(k, id);
    EndsLike(Mnemonic(c.relop) + " $t0 $v0 ", dest);
    NoLabelsAppend(o.lines, BranchCode(c.relop, dest));
    NoLabelsAppend(o.lines + BranchCode(c.relop, dest), [Line("")]);
  }

  /** A label's name ends with the last digit of its id. */
  lemma LabelEndsWithDigit(k: LabelKind, id: nat)
    ensures |LabelName(k, id)| > 0 && !EndsWithColon(LabelName(k, id))
  {
    var d := NatToString(id);
    assert |d| > 0 && IsAsciiDigit(d[|d| - 1]);
    var q := match k case EndIf => "endif" case BeginWhile => "beginwhile" case EndWhile => "endwhile";
    assert LabelName(k, id) == q + d;
    assert (q + d)[|q + d| - 1] == d[|d| - 1];
  }

  /** The first and fourth characters of a label tell its kind apart. */
  lemma LabelSignature(k: LabelKind, id: nat)
    ensures |LabelName(k, id)| > 3
    ensures LabelName(k, id)[0] == (if k.BeginWhile? then 'b' else 'e')
    ensures LabelName(k, id)[3] == (if k.EndWhile? then 'w' else 'i')
  {
  }

  /**
   * Condition.java:86-109: the target is written in the single branch line
   * and nowhere else, so conditions compiled for two targets differ only
   * there; an operator outside the six writes no branch at all.
   */
  lemma TargetOnlyInBranch(c: Condition, dest1: string, dest2: string)
    requires CondCode(c, dest1).ok
    ensures var o := Operands(ExprCode(c.left), ExprCode(c.right)).lines;
      var l1, l2 := CondCode(c, dest1).lines, CondCode(c, dest2).lines;
      && |l1| == |l2| == |o| + (if IsRelop(c.relop) then 2 else 1)
      && (IsRelop(c.relop) ==> l1[|o|] == Line(Mnemonic(c.relop) + " $t0 $v0 " + dest1))
      && forall i :: 0 <= i < |l1| && (i != |o| || !IsRelop(c.relop)) ==> l1[i] == l2[i]
  {
  }

  /** Different kinds or different ids never give the same label (If.java:47, While.java:48-50). */
  lemma LabelNameInjective(k1: LabelKind, i1: nat, k2: LabelKind, i2: nat)
    requires LabelName(k1, i1) + ":" == LabelName(k2, i2) + ":"
    ensures k1 == k2 && i1 == i2
  {
    var a, b := LabelName(k1, i1), LabelName(k2, i2);
    assert a == (a + ":")[..|a|];
    assert b == (b + ":")[..|b|];
    LabelSignature(k1, i1);
    LabelSignature(k2, i2);
    if k1 == k2 {
      var q := match k1 case EndIf => "endif" case BeginWhile => "beginwhile" case EndWhile => "endwhile";
      var d1, d2 := NatToString(i1), NatToString(i2);
      assert a == q + d1 && b == q + d2;
      assert d1 == a[|q|..] && d2 == b[|q|..];
      NatToStringInjective(i1, i2);
    }
  }

  /** A label numbered within a range is numbered within any wider one. */
  lemma Widen(l: string, lo: nat, hi: nat, lo2: nat, hi2: nat)
    requires Numbered(l, lo, hi) && lo2 <= lo && hi <= hi2
    ensures Numbered(l, lo2, hi2)
  {
    var k: LabelKind, id: nat :| lo < id <= hi && l == LabelName(k, id) + ":";
  }

  /** Labels drawn from disjoint id ranges never coincide. */
  lemma NumberedDisjoint(l: string, lo1: nat, hi1: nat, lo2: nat, hi2: nat)
    requires Numbered(l, lo1, hi1) && Numbered(l, lo2, hi2)
    ensures hi1 > lo2 && hi2 > lo1
  {
    var k1: LabelKind, i1: nat :| lo1 < i1 <= hi1 && l == LabelName(k1, i1) + ":";
    var k2: LabelKind, i2: nat :| lo2 < i2 <= hi2 && l == LabelName(k2, i2) + ":";
    LabelNameInjective(k1, i1, k2, i2);
  }

  /** Two blocks of code whose labels come from disjoint id ranges never define one label twice. */
  lemma ComposeLabels(a: seq<string>, la: nat, ha: nat, b: seq<string>, lb: nat, hb: nat)
    requires LabelsIn(a, la, ha) && DistinctLabels(a)
    requires LabelsIn(b, lb, hb) && DistinctLabels(b)
    requires ha <= lb || hb <= la
    ensures DistinctLabels(a + b)
    ensures forall lo: nat, hi: nat :: lo <= la && lo <= lb && ha <= hi && hb <= hi ==> LabelsIn(a + b, lo, hi)
  {
    var c := a + b;
    forall i, j | 0 <= i < j < |c| && EndsWithColon(c[i])
      ensures c[i] != c[j]
    {
      if i < |a| && |a| <= j {
        assert c[i] == a[i] && c[j] == b[j - |a|];
        if c[i] == c[j] {
          NumberedDisjoint(c[i], la, ha, lb, hb);
        }
      } else if |a| <= i {
        assert c[i] == b[i - |a|] && c[j] == b[j - |a|];
      } else {
        assert c[i] == a[i] && c[j] == a[j];
      }
    }
    forall lo: nat, hi: nat, i | lo <= la && lo <= lb && ha <= hi && hb <= hi && 0 <= i < |c| && EndsWithColon(c[i])
      ensures Numbered(c[i], lo, hi)
    {
      if i < |a| {
        assert c[i] == a[i];
        var k: LabelKind, id: nat :| la < id <= ha && a[i] == LabelName(k, id) + ":";
      } else {
        assert c[i] == b[i - |a|];
        var k: LabelKind, id: nat :| lb < id <= hb && b[i - |a|] == LabelName(k, id) + ":";
      }
    }
  }

  /** Code without labels has its labels in any range, all distinct. */
  lemma Unlabelled(a: seq<string>, lo: nat, hi: nat)
    requires NoLabels(a)
    ensures LabelsIn(a, lo, hi) && DistinctLabels(a)
  {
  }

  /** The label definition line of If.java:51 and While.java:50, 55. */
  lemma LabelLine(k: LabelKind, id: nat)
    requires id > 0
    ensures Line(LabelName(k, id) + ":") == LabelName(k, id) + ":"
    ensures LabelsIn([Line(LabelName(k, id) + ":")], id - 1, id) && DistinctLabels([Line(LabelName(k, id) + ":")])
  {
    LineKeepsLabels(LabelName(k, id) + ":");
  }

  /**
   * If.java:45-52 and While.java:46-57, with Emitter.java:78-82: the labels
   * a statement defines are numbered with the ids it drew, and no two of
   * them are the same, when no name in it ends in `:` (`StmtOwnLabels`
   * holds for every statement).
   */
  lemma {:induction false} StmtLabels(s: Stmt, n: nat)
    requires StmtPlain(s)
    ensures LabelsIn(StmtCode(s, n).lines, n, StmtCode(s, n).next)
    ensures DistinctLabels(StmtCode(s, n).lines)
    decreases s, 1, 0
  {
    match s
    case Writeln(e) =>
      ExprNoLabels(e);
      PrintNoLabels();
      NoLabelsAppend(ExprCode(e).lines, PrintCode);
    case Block(ss) =>
      BlockLabels(ss, 0, n);
    case Assignment(x, e) =>
      ExprNoLabels(e);
      StoreNoLabels(x);
      NoLabelsAppend(ExprCode(e).lines, StoreCode(x));
    case If(c, body) =>
      IfLabels(c, body, n);
    case While(c, body) =>
      WhileLabels(c, body, n);
  }

  lemma StoreNoLabels(x: string)
    requires Plain(x)
    ensures NoLabels(StoreCode(x))
  {
    SymbolPlain(x);
    EndsLike("# Assigns $v0 to ", Symbol(x));
    EndsLike("la $t0 ", Symbol(x));
    LineKeepsLabels("sw $v0 ($t0)\n");
    ThreeNoLabels(Line("# Assigns $v0 to " + Symbol(x)), Line("la $t0 " + Symbol(x)), Line("sw $v0 ($t0)\n"));
  }

  lemma ThreeNoLabels(a: string, b: string, c: string)
    requires !EndsWithColon(a) && !EndsWithColon(b) && !EndsWithColon(c)
    ensures NoLabels([a, b, c])
  {
  }

  lemma {:induction false} IfLabels(c: Condition, body: Stmt, n: nat)
    requires StmtPlain(If(c, body))
    ensures LabelsIn(StmtCode(If(c, body), n).lines, n, StmtCode(If(c, body), n).next)
    ensures DistinctLabels(StmtCode(If(c, body), n).lines)
    decreases If(c, body), 0, 0
  {
    var id := n + 1;
    var dest := LabelName(EndIf, id);
    var t := CondCode(c, dest);
    CondNoLabels(c, EndIf, id);
    Unlabelled(t.lines, n, id);
    Unlabelled(t.lines, id, id);
    if t.ok {
      var b := StmtCode(body, id);
      StmtLabels(body, id);
      ComposeLabels(t.lines, id, id, b.lines, id, b.next);
      if b.ok {
        PrintNoLabels();
        Unlabelled([Line("")], id, id);
        LabelLine(EndIf, id);
        ComposeLabels([Line("")], id, id, [Line(dest + ":")], n, id);
        ComposeLabels(t.lines + b.lines, id, b.next, [Line(""), Line(dest + ":")], n, id);
        assert [Line("")] + [Line(dest + ":")] == [Line(""), Line(dest + ":")];
      }
    }
  }

  lemma {:induction false} WhileLabels(c: Condition, body: Stmt, n: nat)
    requires StmtPlain(While(c, body))
    ensures LabelsIn(StmtCode(While(c, body), n).lines, n, StmtCode(While(c, body), n).next)
    ensures DistinctLabels(StmtCode(While(c, body), n).lines)
    decreases While(c, body), 0, 0
  {
    var id := n + 1;
    var begin, end := LabelName(BeginWhile, id), LabelName(EndWhile, id);
    var head := [Line(begin + ":")];
    var t := CondCode(c, end);
    CondNoLabels(c, EndWhile, id);
    LabelLine(BeginWhile, id);
    Unlabelled(t.lines, id, id);
    if !t.ok {
      ComposeLabels(head, n, id, t.lines, id, id);
    } else {
      var b := StmtCode(body, id);
      StmtLabels(body, id);
      ComposeLabels(t.lines, id, id, b.lines, id, b.next);
      if !b.ok {
        ComposeLabels(head, n, id, t.lines + b.lines, id, b.next);
        Associative(head, t.lines, b.lines);
      } else {
        var jump := "j " + begin + "\n";
        LineKeepsLabels(jump);
        assert jump[|jump| - 1] == '\n';
        LabelLine(EndWhile, id);
        WhileShape(id, t.lines + b.lines, b.next, [Line(jump), Line(end + ":")]);
        Associative(head, t.lines, b.lines);
      }
    }
  }

  /**
   * While.java:51-55: `beginwhileN:` and `endwhileN:` differ from each other
   * by their kind and from the body's labels by their id.
   */
  lemma WhileShape(id: nat, mid: seq<string>, hi: nat, tail: seq<string>)
    requires 0 < id <= hi && LabelsIn(mid, id, hi) && DistinctLabels(mid)
    requires |tail| == 2 && !EndsWithColon(tail[0]) && tail[1] == LabelName(EndWhile, id) + ":"
    ensures var c := [LabelName(BeginWhile, id) + ":"] + mid + tail;
      DistinctLabels(c) && LabelsIn(c, id - 1, hi)
  {
    var first, last := LabelName(BeginWhile, id) + ":", LabelName(EndWhile, id) + ":";
    assert Numbered(first, id - 1, id) && Numbered(last, id - 1, id);
    assert first != last by {
      if first == last { LabelNameInjective(BeginWhile, id, EndWhile, id); }
    }
    WhileTailLabels(id, tail);
    ComposeLabels(mid, id, hi, tail, id - 1, id);
    var rest := mid + tail;
    assert LabelsIn(rest, id - 1, hi);
    BeginApart(first, mid, tail, id, hi);
    Widen(first, id - 1, id, id - 1, hi);
    LabelCons(first, rest, id - 1, hi);
    assert [first] + mid + tail == [first] + rest;
  }

  /** While.java:51-55: `beginwhileN:` is not defined again by the body or the tail. */
  lemma BeginApart(first: string, mid: seq<string>, tail: seq<string>, id: nat, hi: nat)
    requires 0 < id <= hi && Numbered(first, id - 1, id) && LabelsIn(mid, id, hi)
    requires |tail| == 2 && !EndsWithColon(tail[0]) && tail[1] != first
    ensures var rest := mid + tail; forall j :: 0 <= j < |rest| && EndsWithColon(rest[j]) ==> rest[j] != first
  {
    var rest := mid + tail;
    forall j | 0 <= j < |rest| && EndsWithColon(rest[j])
      ensures rest[j] != first
    {
      if j < |mid| {
        assert rest[j] == mid[j];
        NumberedApart(first, rest[j], id - 1, id, id, hi);
      } else {
        assert rest[j] == tail[j - |mid|];
      }
    }
  }

  /** While.java:54-55: the jump back and `endwhileN:`. */
  lemma WhileTailLabels(id: nat, tail: seq<string>)
    requires 0 < id && |tail| == 2 && !EndsWithColon(tail[0]) && tail[1] == LabelName(EndWhile, id) + ":"
    ensures LabelsIn(tail, id - 1, id) && DistinctLabels(tail)
  {
    assert Numbered(tail[1], id - 1, id);
  }

  /** A label put before code in which it is not defined. */
  lemma LabelCons(x: string, rest: seq<string>, lo: nat, hi: nat)
    requires Numbered(x, lo, hi) && LabelsIn(rest, lo, hi) && DistinctLabels(rest)
    requires forall j :: 0 <= j < |rest| && EndsWithColon(rest[j]) ==> rest[j] != x
    ensures LabelsIn([x] + rest, lo, hi) && DistinctLabels([x] + rest)
  {
    var c := [x] + rest;
    assert forall j :: 1 <= j < |c| ==> c[j] == rest[j - 1];
  }

  /** Labels whose ids lie in ranges that do not overlap are different lines. */
  lemma NumberedApart(a: string, b: string, lo1: nat, hi1: nat, lo2: nat, hi2: nat)
    requires Numbered(a, lo1, hi1) && Numbered(b, lo2, hi2) && hi1 <= lo2
    ensures a != b
  {
    if a == b { NumberedDisjoint(a, lo1, hi1, lo2, hi2); }
  }

  /** Block.java:44-50. */
  lemma {:induction false} BlockLabels(ss: seq<Stmt>, i: nat, n: nat)
    requires i <= |ss| && forall j :: 0 <= j < |ss| ==> StmtPlain(ss[j])
    ensures LabelsIn(BlockCode(ss, i, n).lines, n, BlockCode(ss, i, n).next)
    ensures DistinctLabels(BlockCode(ss, i, n).lines)
    decreases ss, 1, |ss| - i
  {
    if i < |ss| {
      var a := StmtCode(ss[i], n);
      StmtLabels(ss[i], n);
      if a.ok {
        var rest := BlockCode(ss, i + 1, a.next);
        BlockLabels(ss, i + 1, a.next);
        ComposeLabels(a.lines, n, a.next, rest.lines, a.next, rest.next);
      }
    }
  }

  // ---------------------------------------------------------------------------
  // Labels, whatever the names
  //
  // Parser.java:218-226 takes any token as an assignment target, and the
  // scanner returns `:` as a token of its own (Scanner.java:317-336). Such a
  // name puts a colon at the end of the comment and `la` lines that embed it,
  // so those lines look like labels. The lemmas below set them apart and
  // state, for every statement, what If.java:47 and While.java:48-50 promise
  // of the labels the compiler defines itself.
  // ---------------------------------------------------------------------------

  /** A comment or `la` line: the only lines of the code section that embed a name. */
  predicate NameLine(l: string)
  {
    |l| > 0 && (l[0] == '#' || l[0] == 'l')
  }

  /** A label line of the compiler's own: it ends with a colon and embeds no name. */
  predicate Defines(l: string)
  {
    EndsWithColon(l) && !NameLine(l)
  }

  /** Every label of the compiler's own in `lines` is numbered with an id in (lo, hi]. */
  predicate OwnLabelsIn(lines: seq<string>, lo: nat, hi: nat)
  {
    forall i :: 0 <= i < |lines| && Defines(lines[i]) ==> Numbered(lines[i], lo, hi)
  }

  /** No label of the compiler's own is defined twice. */
  predicate OwnLabelsDistinct(lines: seq<string>)
  {
    forall i, j :: 0 <= i < j < |lines| && Defines(lines[i]) ==> lines[i] != lines[j]
  }

  /** No line is a label of the compiler's own. */
  predicate NoOwnLabels(lines: seq<string>)
  {
    forall i :: 0 <= i < |lines| ==> !Defines(lines[i])
  }

  /** Code that defines no label has no label of the compiler's own, in any range. */
  lemma NoLabelsNoOwn(a: seq<string>, lo: nat, hi: nat)
    requires NoLabels(a)
    ensures NoOwnLabels(a) && OwnLabelsIn(a, lo, hi) && OwnLabelsDistinct(a)
  {
  }

  /** Code without labels of the compiler's own has them in any range, all distinct. */
  lemma Unowned(a: seq<string>, lo: nat, hi: nat)
    requires NoOwnLabels(a)
    ensures OwnLabelsIn(a, lo, hi) && OwnLabelsDistinct(a)
  {
  }

  /** What holds of all labels holds of the compiler's own. */
  lemma OwnOfAll(a: seq<string>, lo: nat, hi: nat)
    requires LabelsIn(a, lo, hi) && DistinctLabels(a)
    ensures OwnLabelsIn(a, lo, hi) && OwnLabelsDistinct(a)
  {
  }

  /** Appending keeps `NoOwnLabels`. */
  lemma NoOwnAppend(a: seq<string>, b: seq<string>)
    requires NoOwnLabels(a) && NoOwnLabels(b)
    ensures NoOwnLabels(a + b)
  {
    assert forall i :: |a| <= i < |a + b| ==> (a + b)[i] == b[i - |a|];
  }

  /** A comment or `la` line is no label of the compiler's own, whatever name it ends with. */
  lemma NamedLine(p: string, x: string)
    requires |p| > 0 && (p[0] == '#' || p[0] == 'l')
    ensures !Defines(Line(p + x))
  {
    LineKeepsLabels(p + x);
    assert (p + x)[0] == p[0];
  }

  /** A numbered label's line is a label of the compiler's own. */
  lemma LabelDefines(k: LabelKind, id: nat)
    ensures Defines(LabelName(k, id) + ":")
  {
    LabelSignature(k, id);
    assert (LabelName(k, id) + ":")[0] == LabelName(k, id)[0];
  }

  /** Variable.java:41-46: loading a variable, whatever its name, defines no label of the compiler's own. */
  lemma VariableNoOwnLabels(x: string)
    ensures NoOwnLabels(VariableCode(x))
  {
    NamedLine("# Sets $v0 to ", Symbol(x));
    NamedLine("la $t0 ", Symbol(x));
    LineKeepsLabels("lw $v0 ($t0)\n");
    ThreeUnowned(Line("# Sets $v0 to " + Symbol(x)), Line("la $t0 " + Symbol(x)), Line("lw $v0 ($t0)\n"));
  }

  /** Assignment.java:46-48: storing into any target defines no label of the compiler's own. */
  lemma StoreNoOwnLabels(x: string)
    ensures NoOwnLabels(StoreCode(x))
  {
    NamedLine("# Assigns $v0 to ", Symbol(x));
    NamedLine("la $t0 ", Symbol(x));
    LineKeepsLabels("sw $v0 ($t0)\n");
    ThreeUnowned(Line("# Assigns $v0 to " + Symbol(x)), Line("la $t0 " + Symbol(x)), Line("sw $v0 ($t0)\n"));
  }

  lemma ThreeUnowned(a: string, b: string, c: string)
    requires !Defines(a) && !Defines(b) && !Defines(c)
    ensures NoOwnLabels([a, b, c])
  {
  }

  /** Number.java, Variable.java, BinOp.java: no expression defines a label of the compiler's own. */
  lemma {:induction false} ExprNoOwnLabels(e: Expr)
    ensures NoOwnLabels(ExprCode(e).lines)
    decreases e
  {
    match e
    case Number(n) =>
      NumberNoLabels(n);
      NoLabelsNoOwn(NumberCode(n), 0, 0);
    case Variable(x) => VariableNoOwnLabels(x);
    case BinOp(op, left, right) =>
      ExprNoOwnLabels(left);
      ExprNoOwnLabels(right);
      OperandsNoOwnLabels(ExprCode(left), ExprCode(right), op);
    case ProcedureCall(_, _) =>
  }

  lemma OperandsNoOwnLabels(a: Emitted, b: Emitted, op: string)
    requires NoOwnLabels(a.lines) && NoOwnLabels(b.lines)
    ensures NoOwnLabels(Operands(a, b).lines) && NoOwnLabels(Operands(a, b).lines + OperatorCode(op))
  {
    StackLinesNoLabels();
    OperatorNoLabels(op);
    NoLabelsNoOwn(PushCode("$v0"), 0, 0);
    NoLabelsNoOwn(PopCode("$t0"), 0, 0);
    NoLabelsNoOwn(OperatorCode(op), 0, 0);
    NoOwnAppend(a.lines, PushCode("$v0"));
    NoOwnAppend(a.lines + PushCode("$v0"), b.lines);
    NoOwnAppend(a.lines + PushCode("$v0") + b.lines, PopCode("$t0"));
    NoOwnAppend(Operands(a, b).lines, OperatorCode(op));
  }

  /** Condition.java:79-113: no condition defines a label of the compiler's own. */
  lemma CondNoOwnLabels(c: Condition, k: LabelKind, id: nat)
    ensures NoOwnLabels(CondCode(c, LabelName(k, id)).lines)
  {
    var dest := LabelName(k, id);
    ExprNoOwnLabels(c.left);
    ExprNoOwnLabels(c.right);
    OperandsNoOwnLabels(ExprCode(c.left), ExprCode(c.right), "");
    var o := Operands(ExprCode(c.left), ExprCode(c.right));
    PrintNoLabels();
    LabelEndsWithDigit(k, id);
    EndsLike(Mnemonic(c.relop) + " $t0 $v0 ", dest);
    NoLabelsNoOwn(BranchCode(c.relop, dest), 0, 0);
    NoLabelsNoOwn([Line("")], 0, 0);
    NoOwnAppend(o.lines, BranchCode(c.relop, dest));
    NoOwnAppend(o.lines + BranchCode(c.relop, dest), [Line("")]);
  }

  /** `ComposeLabels` for the labels of the compiler's own. */
  lemma ComposeOwn(a: seq<string>, la: nat, ha: nat, b: seq<string>, lb: nat, hb: nat)
    requires OwnLabelsIn(a, la, ha) && OwnLabelsDistinct(a)
    requires OwnLabelsIn(b, lb, hb) && OwnLabelsDistinct(b)
    requires ha <= lb || hb <= la
    ensures OwnLabelsDistinct(a + b)
    ensures forall lo: nat, hi: nat :: lo <= la && lo <= lb && ha <= hi && hb <= hi ==> OwnLabelsIn(a + b, lo, hi)
  {
    var c := a + b;
    forall i, j | 0 <= i < j < |c| && Defines(c[i])
      ensures c[i] != c[j]
    {
      if i < |a| && |a| <= j {
        assert c[i] == a[i] && c[j] == b[j - |a|];
        if c[i] == c[j] {
          NumberedDisjoint(c[i], la, ha, lb, hb);
        }
      } else if |a| <= i {
        assert c[i] == b[i - |a|] && c[j] == b[j - |a|];
      } else {
        assert c[i] == a[i] && c[j] == a[j];
      }
    }
    forall lo: nat, hi: nat, i | lo <= la && lo <= lb && ha <= hi && hb <= hi && 0 <= i < |c| && Defines(c[i])
      ensures Numbered(c[i], lo, hi)
    {
      if i < |a| {
        assert c[i] == a[i];
        var k: LabelKind, id: nat :| la < id <= ha && a[i] == LabelName(k, id) + ":";
      } else {
        assert c[i] == b[i - |a|];
        var k: LabelKind, id: nat :| lb < id <= hb && b[i - |a|] == LabelName(k, id) + ":";
      }
    }
  }

  /**
   * If.java:45-52 and While.java:46-57, with Emitter.java:78-82, for every
   * statement: the labels of the compiler's own are numbered with the ids
   * the statement drew, and no two of them are the same.
   */
  lemma {:induction false} StmtOwnLabels(s: Stmt, n: nat)
    ensures OwnLabelsIn(StmtCode(s, n).lines, n, StmtCode(s, n).next)
    ensures OwnLabelsDistinct(StmtCode(s, n).lines)
    decreases s, 1, 0
  {
    match s
    case Writeln(e) =>
      ExprNoOwnLabels(e);
      PrintNoLabels();
      NoLabelsNoOwn(PrintCode, 0, 0);
      NoOwnAppend(ExprCode(e).lines, PrintCode);
    case Block(ss) =>
      BlockOwnLabels(ss, 0, n);
    case Assignment(x, e) =>
      ExprNoOwnLabels(e);
      StoreNoOwnLabels(x);
      NoOwnAppend(ExprCode(e).lines, StoreCode(x));
    case If(c, body) =>
      IfOwnLabels(c, body, n);
    case While(c, body) =>
      WhileOwnLabels(c, body, n);
  }

  lemma {:induction false} IfOwnLabels(c: Condition, body: Stmt, n: nat)
    ensures OwnLabelsIn(StmtCode(If(c, body), n).lines, n, StmtCode(If(c, body), n).next)
    ensures OwnLabelsDistinct(StmtCode(If(c, body), n).lines)
    decreases If(c, body), 0, 0
  {
    var id := n + 1;
    var dest := LabelName(EndIf, id);
    var t := CondCode(c, dest);
    CondNoOwnLabels(c, EndIf, id);
    Unowned(t.lines, n, id);
    Unowned(t.lines, id, id);
    if t.ok {
      var b := StmtCode(body, id);
      StmtOwnLabels(body, id);
      ComposeOwn(t.lines, id, id, b.lines, id, b.next);
      if b.ok {
        IfTailOwn(n, id);
        ComposeOwn(t.lines + b.lines, id, b.next, [Line(""), Line(dest + ":")], n, id);
      }
    }
  }

  /** If.java:50-51: the empty line and `endifN:`. */
  lemma IfTailOwn(n: nat, id: nat)
    requires id == n + 1
    ensures var tail := [Line(""), Line(LabelName(EndIf, id) + ":")];
      OwnLabelsIn(tail, n, id) && OwnLabelsDistinct(tail)
  {
    var dest := LabelName(EndIf, id);
    PrintNoLabels();
    NoLabelsNoOwn([Line("")], id, id);
    LabelLine(EndIf, id);
    OwnOfAll([Line(dest + ":")], n, id);
    ComposeOwn([Line("")], id, id, [Line(dest + ":")], n, id);
    assert [Line("")] + [Line(dest + ":")] == [Line(""), Line(dest + ":")];
  }

  lemma {:induction false} WhileOwnLabels(c: Condition, body: Stmt, n: nat)
    ensures OwnLabelsIn(StmtCode(While(c, body), n).lines, n, StmtCode(While(c, body), n).next)
    ensures OwnLabelsDistinct(StmtCode(While(c, body), n).lines)
    decreases While(c, body), 0, 0
  {
    var id := n + 1;
    var begin, end := LabelName(BeginWhile, id), LabelName(EndWhile, id);
    var head := [Line(begin + ":")];
    var t := CondCode(c, end);
    CondNoOwnLabels(c, EndWhile, id);
    LabelLine(BeginWhile, id);
    OwnOfAll(head, n, id);
    Unowned(t.lines, id, id);
    if !t.ok {
      ComposeOwn(head, n, id, t.lines, id, id);
    } else {
      var b := StmtCode(body, id);
      StmtOwnLabels(body, id);
      ComposeOwn(t.lines, id, id, b.lines, id, b.next);
      if !b.ok {
        ComposeOwn(head, n, id, t.lines + b.lines, id, b.next);
        Associative(head, t.lines, b.lines);
      } else {
        var jump := "j " + begin + "\n";
        LineKeepsLabels(jump);
        assert jump[|jump| - 1] == '\n';
        LabelLine(EndWhile, id);
        WhileShapeOwn(id, t.lines + b.lines, b.next, [Line(jump), Line(end + ":")]);
        Associative(head, t.lines, b.lines);
      }
    }
  }

  /** `WhileShape` for the labels of the compiler's own. */
  lemma WhileShapeOwn(id: nat, mid: seq<string>, hi: nat, tail: seq<string>)
    requires 0 < id <= hi && OwnLabelsIn(mid, id, hi) && OwnLabelsDistinct(mid)
    requires |tail| == 2 && !EndsWithColon(tail[0]) && tail[1] == LabelName(EndWhile, id) + ":"
    ensures var c := [LabelName(BeginWhile, id) + ":"] + mid + tail;
      OwnLabelsDistinct(c) && OwnLabelsIn(c, id - 1, hi)
  {
    var first, last := LabelName(BeginWhile, id) + ":", LabelName(EndWhile, id) + ":";
    assert Numbered(first, id - 1, id) && Numbered(last, id - 1, id);
    LabelDefines(BeginWhile, id);
    assert first != last by {
      if first == last { LabelNameInjective(BeginWhile, id, EndWhile, id); }
    }
    WhileTailOwn(id, tail);
    ComposeOwn(mid, id, hi, tail, id - 1, id);
    var rest := mid + tail;
    assert OwnLabelsIn(rest, id - 1, hi);
    BeginOwnApart(first, mid, tail, id, hi);
    Widen(first, id - 1, id, id - 1, hi);
    OwnCons(first, rest, id - 1, hi);
    assert [first] + mid + tail == [first] + rest;
  }

  /** While.java:51-55: `beginwhileN:` is not defined again by the body or the tail. */
  lemma BeginOwnApart(first: string, mid: seq<string>, tail: seq<string>, id: nat, hi: nat)
    requires 0 < id <= hi && Numbered(first, id - 1, id) && OwnLabelsIn(mid, id, hi)
    requires |tail| == 2 && !EndsWithColon(tail[0]) && tail[1] != first
    ensures var rest := mid + tail; forall j :: 0 <= j < |rest| && Defines(rest[j]) ==> rest[j] != first
  {
    var rest := mid + tail;
    forall j | 0 <= j < |rest| && Defines(rest[j])
      ensures rest[j] != first
    {
      if j < |mid| {
        assert rest[j] == mid[j];
        NumberedApart(first, rest[j], id - 1, id, id, hi);
      } else {
        assert rest[j] == tail[j - |mid|];
      }
    }
  }

  /** While.java:54-55: the jump back and `endwhileN:`. */
  lemma WhileTailOwn(id: nat, tail: seq<string>)
    requires 0 < id && |tail| == 2 && !EndsWithColon(tail[0]) && tail[1] == LabelName(EndWhile, id) + ":"
    ensures OwnLabelsIn(tail, id - 1, id) && OwnLabelsDistinct(tail)
  {
    assert Numbered(tail[1], id - 1, id);
  }

  /** A label of the compiler's own, put before code in whose labels it does not occur. */
  lemma OwnCons(x: string, rest: seq<string>, lo: nat, hi: nat)
    requires Numbered(x, lo, hi) && OwnLabelsIn(rest, lo, hi) && OwnLabelsDistinct(rest)
    requires forall j :: 0 <= j < |rest| && Defines(rest[j]) ==> rest[j] != x
    ensures OwnLabelsIn([x] + rest, lo, hi) && OwnLabelsDistinct([x] + rest)
  {
    var c := [x] + rest;
    assert forall j :: 1 <= j < |c| ==> c[j] == rest[j - 1];
  }

  /** Block.java:44-50, for every statement list. */
  lemma {:induction false} BlockOwnLabels(ss: seq<Stmt>, i: nat, n: nat)
    requires i <= |ss|
    ensures OwnLabelsIn(BlockCode(ss, i, n).lines, n, BlockCode(ss, i, n).next)
    ensures OwnLabelsDistinct(BlockCode(ss, i, n).lines)
    decreases ss, 1, |ss| - i
  {
    if i < |ss| {
      var a := StmtCode(ss[i], n);
      StmtOwnLabels(ss[i], n);
      if a.ok {
        var rest := BlockCode(ss, i + 1, a.next);
        BlockOwnLabels(ss, i + 1, a.next);
        ComposeOwn(a.lines, n, a.next, rest.lines, a.next, rest.next);
      }
    }
  }

  // ---------------------------------------------------------------------------
  // The whole file
  // ---------------------------------------------------------------------------

  /** A loop over `xs` writes exactly one line per element, in order. */
  lemma {:induction false} EachWritesOne(f: string -> string, xs: seq<string>)
    ensures |Each(f, xs)| == |xs|
    ensures forall i {:trigger Each(f, xs)[i]} :: 0 <= i < |xs| ==> Each(f, xs)[i] == f(xs[i])
    decreases |xs|
  {
    if |xs| > 0 {
      var front := xs[..|xs| - 1];
      EachWritesOne(f, front);
      assert Each(f, xs) == Each(f, front) + [f(xs[|xs| - 1])];
      forall i | 0 <= i < |front|
        ensures Each(f, xs)[i] == f(xs[i])
      {
        assert front[i] == xs[i];
      }
    }
  }

  /** Program.java:69-72: one `.word 0` per variable, in the order they are declared. */
  lemma DataDeclaresEach(vs: seq<string>)
    ensures |DataCode(vs)| == |vs|
    ensures forall i {:trigger DataCode(vs)[i]} :: 0 <= i < |vs| ==> DataCode(vs)[i] == WordLine(vs[i])
  {
    EachWritesOne(WordLine, vs);
  }

  /** Program.java:71: a variable's word is not a label, whatever the variable is called. */
  lemma WordNotLabel(x: string)
    ensures !EndsWithColon(WordLine(x))
  {
    var code := WordCode(x);
    assert code[|code| - 1] == '0';
    LineKeepsLabels(code);
  }

  /** Program.java:65-72: the halt sequence and the data section define no label. */
  lemma TrailerNoLabels(vs: seq<string>)
    ensures NoLabels(Epilogue) && NoLabels(DataCode(vs))
  {
    LineKeepsLabels("li $v0 10");
    LineKeepsLabels("syscall #halt");
    LineKeepsLabels(".data");
    LineKeepsLabels("newline: .asciiz \"\\n\" ");
    DataDeclaresEach(vs);
    forall i | 0 <= i < |vs|
      ensures !EndsWithColon(DataCode(vs)[i])
    {
      WordNotLabel(vs[i]);
    }
  }

  /** Program.java:63: `main:` is none of the numbered labels. */
  lemma MainNotNumbered(lo: nat, hi: nat)
    ensures !Numbered("main:", lo, hi)
  {
    if Numbered("main:", lo, hi) {
      var k: LabelKind, id: nat :| lo < id <= hi && "main:" == LabelName(k, id) + ":";
      LabelSignature(k, id);
    }
  }

  /** Program.java:60-63 followed by the code of the main statement. */
  lemma PrologueLabels(body: seq<string>, lo: nat, hi: nat)
    requires LabelsIn(body, lo, hi) && DistinctLabels(body)
    ensures DistinctLabels(Prologue + body)
  {
    var c := Prologue + body;
    MainNotNumbered(lo, hi);
    LineKeepsLabels("# @author Gabriel Chai");
    LineKeepsLabels(".text");
    LineKeepsLabels(".globl main");
    LineKeepsLabels("main:");
    forall i, j | 0 <= i < j < |c| && EndsWithColon(c[i])
      ensures c[i] != c[j]
    {
      if 4 <= i {
        assert c[i] == body[i - 4] && c[j] == body[j - 4];
      } else if 4 <= j {
        assert i == 3 && c[j] == body[j - 4];
      }
    }
  }

  /** Appending code without labels keeps the labels distinct. */
  lemma DistinctThenUnlabelled(a: seq<string>, b: seq<string>)
    requires DistinctLabels(a) && NoLabels(b)
    ensures DistinctLabels(a + b)
  {
    var c := a + b;
    forall i, j | 0 <= i < j < |c| && EndsWithColon(c[i])
      ensures c[i] != c[j]
    {
      assert i < |a| && c[i] == a[i];
      if j < |a| {
        assert c[j] == a[j];
      }
    }
  }

  /**
   * Program.java:57-74, If.java:47, While.java:48-50, Emitter.java:78-82:
   * in the file a compile writes, no label is defined twice, because every
   * If and While draws its own id from the one emitter of the run. Stated
   * for names that do not end in `:`; `ProgramOwnLabels` holds for all.
   */
  lemma ProgramLabelsDistinct(p: Program)
    requires StmtPlain(p.stmt)
    ensures DistinctLabels(ProgramCode(p).lines)
  {
    var b := StmtCode(p.stmt, 0);
    StmtLabels(p.stmt, 0);
    PrologueLabels(b.lines, 0, b.next);
    if b.ok {
      TrailerNoLabels(p.variables);
      NoLabelsAppend(Epilogue, DataCode(p.variables));
      DistinctThenUnlabelled(Prologue + b.lines, Epilogue + DataCode(p.variables));
      Associative(Prologue + b.lines, Epilogue, DataCode(p.variables));
    }
  }

  /**
   * Every label the compiled file defines is `main:` or a numbered label of
   * the main statement, for names that do not end in `:`.
   */
  lemma ProgramLabelLines(p: Program)
    requires StmtPlain(p.stmt)
    ensures var lines := ProgramCode(p).lines;
      forall k :: 0 <= k < |lines| && EndsWithColon(lines[k]) ==>
        lines[k] == "main:" || Numbered(lines[k], 0, StmtCode(p.stmt, 0).next)
  {
    var b := StmtCode(p.stmt, 0);
    var lines := ProgramCode(p).lines;
    StmtLabels(p.stmt, 0);
    TrailerNoLabels(p.variables);
    LineKeepsLabels("# @author Gabriel Chai");
    LineKeepsLabels(".text");
    LineKeepsLabels(".globl main");
    LineKeepsLabels("main:");
    NoLabelsAppend(Epilogue, DataCode(p.variables));
    var tail := if b.ok then Epilogue + DataCode(p.variables) else [];
    assert lines == Prologue + b.lines + tail;
    forall k | 0 <= k < |lines|
      ensures EndsWithColon(lines[k]) ==> lines[k] == "main:" || Numbered(lines[k], 0, b.next)
    {
      if k < 4 {
        assert lines[k] == Prologue[k];
      } else if k < 4 + |b.lines| {
        assert lines[k] == b.lines[k - 4];
      } else {
        assert lines[k] == tail[k - 4 - |b.lines|];
      }
    }
  }

  /**
   * Program.java:57-74, If.java:47, While.java:48-50, Emitter.java:78-82, for
   * every program: every label line of the file is `main:`, a numbered label
   * drawn by the main statement, or a comment or `la` line that embeds a name
   * ending in `:`; and apart from those last, no label is defined twice.
   */
  lemma ProgramOwnLabels(p: Program)
    ensures var lines := ProgramCode(p).lines;
      && OwnLabelsDistinct(lines)
      && forall k :: 0 <= k < |lines| && EndsWithColon(lines[k]) ==>
        lines[k] == "main:" || Numbered(lines[k], 0, StmtCode(p.stmt, 0).next) || NameLine(lines[k])
  {
    var b := StmtCode(p.stmt, 0);
    var lines := ProgramCode(p).lines;
    StmtOwnLabels(p.stmt, 0);
    TrailerNoLabels(p.variables);
    NoLabelsAppend(Epilogue, DataCode(p.variables));
    var tail := if b.ok then Epilogue + DataCode(p.variables) else [];
    NoLabelsNoOwn(tail, 0, 0);
    OwnPrologue(b.lines, b.next);
    ComposeOwnTail(Prologue + b.lines, tail);
    assert lines == Prologue + b.lines + tail;
    forall k | 0 <= k < |lines|
      ensures EndsWithColon(lines[k]) ==> lines[k] == "main:" || Numbered(lines[k], 0, b.next) || NameLine(lines[k])
    {
      if k < 4 {
        assert lines[k] == Prologue[k];
        LineKeepsLabels("# @author Gabriel Chai");
        LineKeepsLabels(".text");
        LineKeepsLabels(".globl main");
        LineKeepsLabels("main:");
      } else if k < 4 + |b.lines| {
        assert lines[k] == b.lines[k - 4];
      } else {
        assert lines[k] == tail[k - 4 - |b.lines|];
      }
    }
  }

  /** Program.java:60-63 followed by the main statement's code: `main:` is no numbered label. */
  lemma OwnPrologue(body: seq<string>, hi: nat)
    requires OwnLabelsIn(body, 0, hi) && OwnLabelsDistinct(body)
    ensures OwnLabelsDistinct(Prologue + body)
  {
    var c := Prologue + body;
    MainNotNumbered(0, hi);
    LineKeepsLabels("# @author Gabriel Chai");
    LineKeepsLabels(".text");
    LineKeepsLabels(".globl main");
    LineKeepsLabels("main:");
    forall i, j | 0 <= i < j < |c| && Defines(c[i])
      ensures c[i] != c[j]
    {
      if 4 <= i {
        assert c[i] == body[i - 4] && c[j] == body[j - 4];
      } else if 4 <= j {
        assert i == 3 && c[j] == body[j - 4];
      }
    }
  }

  /** Appending code without labels of the compiler's own keeps them distinct. */
  lemma ComposeOwnTail(a: seq<string>, b: seq<string>)
    requires OwnLabelsDistinct(a) && NoOwnLabels(b)
    ensures OwnLabelsDistinct(a + b)
  {
    var c := a + b;
    forall i, j | 0 <= i < j < |c| && Defines(c[i])
      ensures c[i] != c[j]
    {
      assert i < |a| && c[i] == a[i];
      if j < |a| {
        assert c[j] == a[j];
      }
    }
  }

  /** Different names give different data symbols. */
  lemma SymbolInjective(x: string, y: string)
    requires Symbol(x) == Symbol(y)
    ensures x == y
  {
    assert x == Symbol(x)[3..] && y == Symbol(y)[3..];
  }

  /**
   * Program.java:65-72: the data section defines the symbol `newline` and
   * one `var<name>` per variable. When the VAR names are pairwise distinct,
   * these symbols are pairwise distinct and none of them is also defined as
   * a label of the code section, so no symbol of the file is defined twice.
   */
  lemma DataSymbolsDistinct(p: Program)
    requires forall i, j :: 0 <= i < j < |p.variables| ==> p.variables[i] != p.variables[j]
    ensures forall i, j :: 0 <= i < j < |p.variables| ==> Symbol(p.variables[i]) != Symbol(p.variables[j])
    ensures forall i :: 0 <= i < |p.variables| ==> Symbol(p.variables[i]) != "newline"
    ensures var lines := ProgramCode(p).lines;
      forall k :: 0 <= k < |lines| && EndsWithColon(lines[k]) ==>
        lines[k] != "newline:" && forall i :: 0 <= i < |p.variables| ==> lines[k] != Symbol(p.variables[i]) + ":"
  {
    var vs := p.variables;
    forall i, j | 0 <= i < j < |vs|
      ensures Symbol(vs[i]) != Symbol(vs[j])
    {
      if Symbol(vs[i]) == Symbol(vs[j]) {
        SymbolInjective(vs[i], vs[j]);
      }
    }
    forall i | 0 <= i < |vs|
      ensures Symbol(vs[i]) != "newline"
    {
      assert Symbol(vs[i])[0] == 'v';
    }
    var lines := ProgramCode(p).lines;
    ProgramOwnLabels(p);
    forall k | 0 <= k < |lines| && EndsWithColon(lines[k])
      ensures lines[k] != "newline:" && forall i :: 0 <= i < |vs| ==> lines[k] != Symbol(vs[i]) + ":"
    {
      if lines[k] != "main:" && !NameLine(lines[k]) {
        var kind: LabelKind, id: nat :| 0 < id <= StmtCode(p.stmt, 0).next && lines[k] == LabelName(kind, id) + ":";
        LabelSignature(kind, id);
        assert lines[k][0] == LabelName(kind, id)[0];
      }
      assert lines[k][0] != 'v' && lines[k][0] != 'n';
      forall i | 0 <= i < |vs|
        ensures lines[k] != Symbol(vs[i]) + ":"
      {
        assert (Symbol(vs[i]) + ":")[0] == 'v';
      }
    }
  }

  /**
   * Parser.java:139-148 accepts `VAR x, x;`: the data section of such a
   * program then defines the symbol `varx` twice, in its last two lines.
   */
  lemma DuplicateVariableDefinedTwice(p: Program)
    requires |p.variables| == 2 && p.variables[0] == p.variables[1] && ProgramCode(p).ok
    ensures var lines := ProgramCode(p).lines;
      |lines| >= 2 && lines[|lines| - 2] == lines[|lines| - 1] == WordLine(p.variables[0])
  {
    DataDeclaresEach(p.variables);
    var b := StmtCode(p.stmt, 0);
    assert ProgramCode(p).lines == (Prologue + b.lines + Epilogue) + DataCode(p.variables);
  }

  /**
   * Parser.java:218-226 takes the scanner's `:` (Scanner.java:317-336) as an
   * assignment target, so `BEGIN : := 1; : := 2; END;` compiles. Each store
   * writes the line `la $t0 var:`, which Emitter.java:39-44 leaves flush
   * left as it ends with a colon, so that line is defined twice.
   */
  lemma ColonTargetDefinedTwice(p: Program)
    requires p == Program([], [], Block([Assignment(":", Number(1)), Assignment(":", Number(2))]))
    ensures ProgramCode(p).ok
    ensures var lines := ProgramCode(p).lines;
      |lines| > 12 && lines[7] == lines[12] == "la $t0 var:" && EndsWithColon(lines[7])
    ensures !DistinctLabels(ProgramCode(p).lines)
  {
    var s1, s2 := Assignment(":", Number(1)), Assignment(":", Number(2));
    var c1, c2 := StmtCode(s1, 0), StmtCode(s2, 0);
    assert c1.lines == NumberCode(1) + StoreCode(":") && c1.ok && c1.next == 0;
    assert c2.lines == NumberCode(2) + StoreCode(":") && c2.ok && c2.next == 0;
    assert BlockCode([s1, s2], 2, 0) == Code([], 0, true);
    assert BlockCode([s1, s2], 1, 0) == Code(c2.lines, 0, true);
    var b := StmtCode(p.stmt, 0);
    assert b == Code(c1.lines + c2.lines, 0, true);
    var lines := ProgramCode(p).lines;
    assert lines == Prologue + b.lines + Epilogue + DataCode([]);
    assert Symbol(":") == "var:";
    LineKeepsLabels("la $t0 var:");
    assert StoreCode(":")[1] == "la $t0 var:";
    SecondLineTwice(Prologue, NumberCode(1), StoreCode(":"), NumberCode(2), Epilogue + DataCode([]));
    Associative(Prologue, c1.lines, c2.lines);
  }

  /** Where the second line of a three-line piece written twice ends up. */
  lemma SecondLineTwice(pre: seq<string>, a: seq<string>, st: seq<string>, b: seq<string>, post: seq<string>)
    requires |pre| == 4 && |a| == 2 && |st| == 3 && |b| == 2
    ensures var c := pre + (a + st + (b + st)) + post; |c| > 12 && c[7] == c[12] == st[1]
  {
    var c := pre + (a + st + (b + st)) + post;
    assert c[7] == (a + st + (b + st))[3] == st[1];
    assert c[12] == (a + st + (b + st))[8] == (b + st)[3] == st[1];
  }
}
