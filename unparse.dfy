/**
 * A printer from syntax trees to token sequences, and the theorem that the
 * parser of module Grammar reads the printed tokens back as the same tree.
 *
 * The printer uses as few parentheses as the grammar allows: `+ -` chains and
 * `* /` chains are printed flat when they nest to the left, and a nested
 * operand is parenthesised only when it would otherwise be read differently.
 * So the theorem states, at once, that `+ -` and `* /` associate to the left,
 * that `* /` bind tighter than `+ -`, that parentheses leave no node of their
 * own, and that an identifier followed by "(" is a call.
 */
module Unparse {
  import opened JavaInt
  import opened Ast
  import Scanner
  import opened Grammar

  const Keywords: set<string> := {"VAR", "PROCEDURE", "WRITELN", "BEGIN", "END", "IF", "THEN", "WHILE", "DO"}

  /** A name the printer may use for a variable, procedure or parameter. */
  predicate IsName(x: string)
  {
    |x| > 0 && Scanner.IsLetter(x[0]) && x !in Keywords
  }

  // ---------------------------------------------------------------------------
  // Trees the parser can produce

  predicate WfExpr(e: Expr)
  {
    match e
    case Number(n) => n >= 0
    case Variable(x) => IsName(x)
    case BinOp(op, l, r) => (IsAdditive(op) || IsMultiplicative(op)) && WfExpr(l) && WfExpr(r)
    case ProcedureCall(f, args) => IsName(f) && forall i :: 0 <= i < |args| ==> WfExpr(args[i])
  }

  /** A token at which the parser's `+ -` and `* /` loops stop and after which a name stays a variable. */
  predicate StopsExpression(t: string)
  {
    t != "(" && t != "+" && t != "-" && t != "*" && t != "/"
  }

  /**
   * `parseCondition` takes whatever token follows the left side as the
   * operator, one of the six relational operators or not.
   */
  predicate WfCondition(c: Condition)
  {
    StopsExpression(c.relop) && WfExpr(c.left) && WfExpr(c.right)
  }

  predicate WfStmt(s: Stmt)
  {
    match s
    case Writeln(e) => WfExpr(e)
    case Block(ss) => forall i :: 0 <= i < |ss| ==> WfStmt(ss[i])
    case Assignment(x, e) => IsName(x) && WfExpr(e)
    case If(c, b) => WfCondition(c) && WfStmt(b)
    case While(c, b) => WfCondition(c) && WfStmt(b)
  }

  predicate AllNames(ns: seq<string>)
  {
    forall i :: 0 <= i < |ns| ==> IsName(ns[i])
  }

  predicate WfDeclaration(d: ProcedureDeclaration)
  {
    IsName(d.name) && AllNames(d.params) && WfStmt(d.body)
  }

  predicate WfProgram(p: Program)
  {
    && AllNames(p.variables)
    && (forall i :: 0 <= i < |p.procedures| ==> WfDeclaration(p.procedures[i]))
    && WfStmt(p.stmt)
  }

  // ---------------------------------------------------------------------------
  // The printer

  /** `x t y`: two token runs joined by one token. */
  function Infix(x: seq<string>, t: string, y: seq<string>): seq<string>
  {
    x + ([t] + y)
  }

  /** `t x u`: a token run between two tokens. */
  function Bracket(t: string, x: seq<string>, u: string): seq<string>
  {
    [t] + (x + [u])
  }

  /** An expression at the `+ -` level. */
  function ExprTokens(e: Expr): seq<string>
    decreases e, 2
  {
    if e.BinOp? && IsAdditive(e.op) then Infix(ExprTokens(e.left), e.op, TermTokens(e.right))
    else TermTokens(e)
  }

  /** An expression at the `* /` level. */
  function TermTokens(e: Expr): seq<string>
    decreases e, 1
  {
    if e.BinOp? && !IsAdditive(e.op) then Infix(TermTokens(e.left), e.op, FactorTokens(e.right))
    else FactorTokens(e)
  }

  /** An expression as a factor: an operation is parenthesised. */
  function FactorTokens(e: Expr): seq<string>
    decreases e, 0
  {
    match e
    case Number(n) => [IntToString(n as int)]
    case Variable(x) => [x]
    case ProcedureCall(f, args) => [f] + Bracket("(", ArgTokens(args), ")")
    case BinOp(op, l, r) =>
      Bracket("(", if IsAdditive(op) then Infix(ExprTokens(l), op, TermTokens(r)) else Infix(TermTokens(l), op, FactorTokens(r)), ")")
  }

  /** Arguments separated by commas. */
  function ArgTokens(args: seq<Expr>): seq<string>
    decreases args, 0
  {
    if |args| == 0 then []
    else if |args| == 1 then ExprTokens(args[0])
    else Infix(ExprTokens(args[0]), ",", ArgTokens(args[1..]))
  }

  function CondTokens(c: Condition): seq<string>
  {
    Infix(ExprTokens(c.left), c.relop, ExprTokens(c.right))
  }

  function StmtTokens(s: Stmt): seq<string>
  {
    match s
    case Writeln(e) => ["WRITELN"] + (Bracket("(", ExprTokens(e), ")") + [";"])
    case Block(ss) => ["BEGIN"] + (StmtsTokens(ss) + (["END"] + [";"]))
    case Assignment(x, e) => [x] + ([":="] + (ExprTokens(e) + [";"]))
    case If(c, b) => ["IF"] + Infix(CondTokens(c), "THEN", StmtTokens(b))
    case While(c, b) => ["WHILE"] + Infix(CondTokens(c), "DO", StmtTokens(b))
  }

  function StmtsTokens(ss: seq<Stmt>): seq<string>
  {
    if |ss| == 0 then [] else StmtTokens(ss[0]) + StmtsTokens(ss[1..])
  }

  /** Names separated by commas. */
  function NameList(ns: seq<string>): seq<string>
  {
    if |ns| == 0 then []
    else if |ns| == 1 then [ns[0]]
    else Infix([ns[0]], ",", NameList(ns[1..]))
  }

  /** A comma, or nothing. */
  function Comma(b: bool): seq<string>
  {
    if b then [","] else []
  }

  /** Names, the one at index `i` followed by a comma exactly when `commas[i]` holds. */
  function FlaggedNames(ns: seq<string>, commas: seq<bool>): seq<string>
    requires |commas| == |ns|
  {
    if |ns| == 0 then [] else [ns[0]] + (Comma(commas[0]) + FlaggedNames(ns[1..], commas[1..]))
  }

  /** Arguments, the one at index `i` followed by a comma exactly when `commas[i]` holds. */
  function FlaggedArgs(args: seq<Expr>, commas: seq<bool>): seq<string>
    requires |commas| == |args|
  {
    if |args| == 0 then [] else ExprTokens(args[0]) + (Comma(commas[0]) + FlaggedArgs(args[1..], commas[1..]))
  }

  /** Comma flags fitting a list of groups. */
  predicate FlagsFit(gs: seq<seq<string>>, commas: seq<seq<bool>>)
  {
    |commas| == |gs| && forall i :: 0 <= i < |gs| ==> |commas[i]| == |gs[i]|
  }

  /** Several `VAR … ;` groups, each with its own comma flags. */
  function VarGroups(gs: seq<seq<string>>, commas: seq<seq<bool>>): seq<string>
    requires FlagsFit(gs, commas)
  {
    if |gs| == 0 then [] else ["VAR"] + (FlaggedNames(gs[0], commas[0]) + [";"]) + VarGroups(gs[1..], commas[1..])
  }

  /** The groups' names, in order. */
  function Flatten(gs: seq<seq<string>>): seq<string>
  {
    if |gs| == 0 then [] else gs[0] + Flatten(gs[1..])
  }

  /** The `VAR` section, left out when there are no variables. */
  function VarTokens(vs: seq<string>): seq<string>
  {
    if |vs| == 0 then [] else ["VAR"] + (NameList(vs) + [";"])
  }

  function HeaderTokens(d: ProcedureDeclaration): seq<string>
  {
    ["PROCEDURE"] + ([d.name] + (Bracket("(", NameList(d.params), ")") + [";"]))
  }

  function DeclarationTokens(d: ProcedureDeclaration): seq<string>
  {
    HeaderTokens(d) + StmtTokens(d.body)
  }

  function DeclarationsTokens(ds: seq<ProcedureDeclaration>): seq<string>
  {
    if |ds| == 0 then [] else DeclarationTokens(ds[0]) + DeclarationsTokens(ds[1..])
  }

  function ProgramTokens(p: Program): seq<string>
  {
    VarTokens(p.variables) + (DeclarationsTokens(p.procedures) + StmtTokens(p.stmt))
  }

  // ---------------------------------------------------------------------------
  // Token positions
  //
  // The lemmas below say where the parts of a printed construct lie and what
  // the parser sees at each of them.

  /** The stream holds `toks` from position `pos` on. */
  predicate At(ts: Scanner.TokenStream, pos: nat, toks: seq<string>)
  {
    pos + |toks| <= |ts.tokens| && forall k :: 0 <= k < |toks| ==> ts.tokens[pos + k] == toks[k]
  }

  lemma AtConcat(ts: Scanner.TokenStream, pos: nat, a: seq<string>, b: seq<string>)
    requires At(ts, pos, a + b)
    ensures At(ts, pos, a) && At(ts, pos + |a|, b) && pos + |a + b| == pos + |a| + |b|
  {
    forall k | 0 <= k < |a| ensures ts.tokens[pos + k] == a[k] {
      assert (a + b)[k] == a[k];
    }
    forall k | 0 <= k < |b| ensures ts.tokens[pos + |a| + k] == b[k] {
      assert (a + b)[|a| + k] == b[k];
    }
  }

  /** The token at `pos` is `t`, and eating it leaves the rest. */
  lemma AtCons(ts: Scanner.TokenStream, pos: nat, t: string, rest: seq<string>)
    requires ts.end.EndForever? && At(ts, pos, [t] + rest)
    ensures Avail(ts, pos) && Cur(ts, pos) == t && pos < |ts.tokens|
    ensures Eat(ts, pos, t) == POk((), pos + 1) && At(ts, pos + 1, rest)
    ensures pos + |[t] + rest| == pos + 1 + |rest|
  {
    assert ([t] + rest)[0] == t;
    forall k | 0 <= k < |rest| ensures ts.tokens[pos + 1 + k] == rest[k] {
      assert ([t] + rest)[1 + k] == rest[k];
    }
  }

  /** A single token: it is current, and eating it moves on by one. */
  lemma AtOne(ts: Scanner.TokenStream, pos: nat, t: string)
    requires ts.end.EndForever? && At(ts, pos, [t])
    ensures Avail(ts, pos) && Cur(ts, pos) == t && pos < |ts.tokens|
    ensures Eat(ts, pos, t) == POk((), pos + 1) && Avail(ts, pos + 1)
  {
    assert ts.tokens[pos + 0] == [t][0];
  }

  lemma AtFirst(ts: Scanner.TokenStream, pos: nat, toks: seq<string>)
    requires At(ts, pos, toks) && |toks| > 0
    ensures pos < |ts.tokens| && Avail(ts, pos) && Cur(ts, pos) == toks[0]
  {
    assert ts.tokens[pos + 0] == toks[0];
  }

  /** `x t y`. */
  lemma AtInfix(ts: Scanner.TokenStream, pos: nat, x: seq<string>, t: string, y: seq<string>)
    requires ts.end.EndForever? && At(ts, pos, Infix(x, t, y))
    ensures At(ts, pos, x) && At(ts, pos + |x| + 1, y) && pos + |Infix(x, t, y)| == pos + |x| + 1 + |y|
    ensures Avail(ts, pos + |x|) && Cur(ts, pos + |x|) == t && Eat(ts, pos + |x|, t) == POk((), pos + |x| + 1)
  {
    AtConcat(ts, pos, x, [t] + y);
    AtCons(ts, pos + |x|, t, y);
  }

  /** `t x u`. */
  lemma AtBracket(ts: Scanner.TokenStream, pos: nat, t: string, x: seq<string>, u: string)
    requires ts.end.EndForever? && At(ts, pos, Bracket(t, x, u))
    ensures Avail(ts, pos) && Cur(ts, pos) == t && Eat(ts, pos, t) == POk((), pos + 1)
    ensures At(ts, pos + 1, x) && pos + |Bracket(t, x, u)| == pos + 1 + |x| + 1
    ensures Avail(ts, pos + 1 + |x|) && Cur(ts, pos + 1 + |x|) == u && Eat(ts, pos + 1 + |x|, u) == POk((), pos + 1 + |x| + 1)
    ensures Avail(ts, pos + 1 + |x| + 1)
  {
    AtCons(ts, pos, t, x + [u]);
    AtConcat(ts, pos + 1, x, [u]);
    AtOne(ts, pos + 1 + |x|, u);
  }

  /** `k x t y`, as IF and WHILE print. */
  lemma AtKeywordInfix(ts: Scanner.TokenStream, pos: nat, k: string, x: seq<string>, t: string, y: seq<string>)
    requires ts.end.EndForever? && At(ts, pos, [k] + Infix(x, t, y))
    ensures Avail(ts, pos) && Cur(ts, pos) == k && Eat(ts, pos, k) == POk((), pos + 1)
    ensures At(ts, pos + 1, x) && At(ts, pos + 1 + |x| + 1, y)
    ensures pos + |[k] + Infix(x, t, y)| == pos + 1 + |x| + 1 + |y|
    ensures Avail(ts, pos + 1 + |x|) && Cur(ts, pos + 1 + |x|) == t && Eat(ts, pos + 1 + |x|, t) == POk((), pos + 1 + |x| + 1)
  {
    AtCons(ts, pos, k, Infix(x, t, y));
    AtInfix(ts, pos + 1, x, t, y);
  }

  /** `k x ;`, as WRITELN, VAR and assignment print. */
  lemma AtKeywordSemicolon(ts: Scanner.TokenStream, pos: nat, k: string, x: seq<string>)
    requires ts.end.EndForever? && At(ts, pos, [k] + (x + [";"]))
    ensures Avail(ts, pos) && Cur(ts, pos) == k && Eat(ts, pos, k) == POk((), pos + 1)
    ensures At(ts, pos + 1, x) && pos + |[k] + (x + [";"])| == pos + 1 + |x| + 1
    ensures Avail(ts, pos + 1 + |x|) && Cur(ts, pos + 1 + |x|) == ";" && Eat(ts, pos + 1 + |x|, ";") == POk((), pos + 1 + |x| + 1)
  {
    AtCons(ts, pos, k, x + [";"]);
    AtConcat(ts, pos + 1, x, [";"]);
    AtOne(ts, pos + 1 + |x|, ";");
  }

  // ---------------------------------------------------------------------------
  // First tokens

  /** What an expression can start with: none of the tokens that close or continue something. */
  predicate StartsFactor(t: string)
  {
    t == "(" || IsName(t) || (|t| > 0 && IsAsciiDigit(t[0]))
  }

  lemma FactorStart(e: Expr)
    requires WfExpr(e)
    ensures |FactorTokens(e)| > 0 && StartsFactor(FactorTokens(e)[0])
  {
    if e.Number? {
      assert IntToString(e.value as int) == NatToString(e.value as nat);
    }
  }

  lemma {:induction false} TermStart(e: Expr)
    requires WfExpr(e)
    ensures |TermTokens(e)| > 0 && StartsFactor(TermTokens(e)[0])
  {
    if e.BinOp? && !IsAdditive(e.op) {
      TermStart(e.left);
    } else {
      FactorStart(e);
    }
  }

  lemma {:induction false} ExprStart(e: Expr)
    requires WfExpr(e)
    ensures |ExprTokens(e)| > 0 && StartsFactor(ExprTokens(e)[0])
  {
    if e.BinOp? && IsAdditive(e.op) {
      ExprStart(e.left);
    } else {
      TermStart(e);
    }
  }

  /** What a statement can start with. */
  lemma StmtStart(s: Stmt)
    requires WfStmt(s)
    ensures |StmtTokens(s)| > 0 && StmtTokens(s)[0] !in {"END", "PROCEDURE", "VAR"}
  {
  }

  /** The current token where a printed statement lies. */
  lemma StmtFirst(ts: Scanner.TokenStream, pos: nat, s: Stmt)
    requires WfStmt(s) && At(ts, pos, StmtTokens(s))
    ensures Avail(ts, pos) && Cur(ts, pos) != "END" && Cur(ts, pos) != "PROCEDURE" && Cur(ts, pos) != "VAR"
  {
    StmtStart(s);
    AtFirst(ts, pos, StmtTokens(s));
  }

  // ---------------------------------------------------------------------------
  // The parser's rules, one step at a time
  //
  // Each lemma unfolds one parsing function once. Every position after the
  // first is a parameter, so that a caller passes the very variables its other
  // facts are stated with.

  lemma ParenRule(ts: Scanner.TokenStream, pos: nat, e: Expr, q: nat, next: nat)
    requires Avail(ts, pos) && Cur(ts, pos) == "(" && Eat(ts, pos, "(") == POk((), pos + 1)
    requires ParseExpression(ts, pos + 1) == POk(e, q) && Eat(ts, q, ")") == POk((), next)
    ensures ParseFactor(ts, pos) == POk(e, next)
  {
  }

  lemma CallRule(ts: Scanner.TokenStream, pos: nat, f: string, args: seq<Expr>, q: nat, next: nat)
    requires Avail(ts, pos) && Cur(ts, pos) == f && IsName(f) && Eat(ts, pos, f) == POk((), pos + 1)
    requires Cur(ts, pos + 1) == "(" && Eat(ts, pos + 1, "(") == POk((), pos + 1 + 1)
    requires ParseArgs(ts, pos + 1 + 1, []) == POk(args, q) && Eat(ts, q, ")") == POk((), next)
    ensures ParseFactor(ts, pos) == POk(ProcedureCall(f, args), next)
  {
  }

  lemma ArgsStop(ts: Scanner.TokenStream, pos: nat, acc: seq<Expr>, next: nat)
    requires next == pos && Avail(ts, next) && Cur(ts, next) == ")"
    ensures ParseArgs(ts, pos, acc) == POk(acc, next)
  {
  }

  lemma ArgsRule(ts: Scanner.TokenStream, pos: nat, acc: seq<Expr>, e: Expr, q: nat, next: nat)
    requires Avail(ts, pos) && pos < |ts.tokens| && Cur(ts, pos) != ")" && ParseExpression(ts, pos) == POk(e, q)
    requires if Cur(ts, q) == "," then Eat(ts, q, ",") == POk((), next) else next == q
    ensures Avail(ts, next) && ParseArgs(ts, pos, acc) == ParseArgs(ts, next, acc + [e])
  {
  }

  lemma TermRule(ts: Scanner.TokenStream, pos: nat, e: Expr, q: nat)
    requires Avail(ts, pos) && ParseFactor(ts, pos) == POk(e, q)
    ensures ParseTerm(ts, pos) == ParseWhileTerm(ts, q, e)
  {
  }

  lemma ExpressionRule(ts: Scanner.TokenStream, pos: nat, e: Expr, q: nat)
    requires Avail(ts, pos) && ParseTerm(ts, pos) == POk(e, q)
    ensures ParseExpression(ts, pos) == ParseWhileExpression(ts, q, e)
  {
  }

  lemma WhileTermStop(ts: Scanner.TokenStream, pos: nat, e: Expr)
    requires Avail(ts, pos) && Cur(ts, pos) != "*" && Cur(ts, pos) != "/"
    ensures ParseWhileTerm(ts, pos, e) == POk(e, pos)
  {
  }

  lemma WhileExpressionStop(ts: Scanner.TokenStream, pos: nat, e: Expr)
    requires Avail(ts, pos) && Cur(ts, pos) != "+" && Cur(ts, pos) != "-"
    ensures ParseWhileExpression(ts, pos, e) == POk(e, pos)
  {
  }

  /** One round of the `* /` loop. */
  lemma WhileTermRound(ts: Scanner.TokenStream, pos: nat, acc: Expr, op: string, right: Expr, next: nat)
    requires Avail(ts, pos) && Cur(ts, pos) == op && IsMultiplicative(op) && Eat(ts, pos, op) == POk((), pos + 1)
    requires ParseFactor(ts, pos + 1) == POk(right, next)
    ensures ParseWhileTerm(ts, pos, acc) == ParseWhileTerm(ts, next, BinOp(op, acc, right))
  {
  }

  /** One round of the `+ -` loop. */
  lemma WhileExpressionRound(ts: Scanner.TokenStream, pos: nat, acc: Expr, op: string, right: Expr, next: nat)
    requires Avail(ts, pos) && Cur(ts, pos) == op && IsAdditive(op) && Eat(ts, pos, op) == POk((), pos + 1)
    requires ParseTerm(ts, pos + 1) == POk(right, next)
    ensures ParseWhileExpression(ts, pos, acc) == ParseWhileExpression(ts, next, BinOp(op, acc, right))
  {
  }

  lemma ConditionRule(ts: Scanner.TokenStream, pos: nat, l: Expr, relop: string, r: Expr, q: nat, next: nat)
    requires Avail(ts, pos) && ParseExpression(ts, pos) == POk(l, q)
    requires Cur(ts, q) == relop && Eat(ts, q, relop) == POk((), q + 1)
    requires ParseExpression(ts, q + 1) == POk(r, next)
    ensures ParseCondition(ts, pos) == POk(Condition(l, relop, r), next)
  {
  }

  lemma WritelnRule(ts: Scanner.TokenStream, pos: nat, e: Expr, q: nat, next: nat)
    requires Avail(ts, pos) && Cur(ts, pos) == "WRITELN" && Eat(ts, pos, "WRITELN") == POk((), pos + 1)
    requires Eat(ts, pos + 1, "(") == POk((), pos + 1 + 1) && ParseExpression(ts, pos + 1 + 1) == POk(e, q)
    requires Eat(ts, q, ")") == POk((), q + 1) && Eat(ts, q + 1, ";") == POk((), next)
    ensures ParseStatement(ts, pos) == POk(Writeln(e), next)
  {
  }

  lemma BlockRule(ts: Scanner.TokenStream, pos: nat, ss: seq<Stmt>, next: nat)
    requires Avail(ts, pos) && Cur(ts, pos) == "BEGIN" && Eat(ts, pos, "BEGIN") == POk((), pos + 1)
    requires ParseWhileBegin(ts, pos + 1, []) == POk(ss, next)
    ensures ParseStatement(ts, pos) == POk(Block(ss), next)
  {
  }

  lemma AssignmentRule(ts: Scanner.TokenStream, pos: nat, x: string, e: Expr, q: nat, next: nat)
    requires Avail(ts, pos) && Cur(ts, pos) == x && x != "WRITELN" && x != "BEGIN" && x != "IF" && x != "WHILE"
    requires Eat(ts, pos, x) == POk((), pos + 1)
    requires Eat(ts, pos + 1, ":=") == POk((), pos + 1 + 1) && ParseExpression(ts, pos + 1 + 1) == POk(e, q)
    requires Eat(ts, q, ";") == POk((), next)
    ensures ParseStatement(ts, pos) == POk(Assignment(x, e), next)
  {
  }

  lemma IfRule(ts: Scanner.TokenStream, pos: nat, c: Condition, b: Stmt, q: nat, next: nat)
    requires Avail(ts, pos) && Cur(ts, pos) == "IF" && Eat(ts, pos, "IF") == POk((), pos + 1)
    requires ParseCondition(ts, pos + 1) == POk(c, q) && Eat(ts, q, "THEN") == POk((), q + 1)
    requires ParseStatement(ts, q + 1) == POk(b, next)
    ensures ParseStatement(ts, pos) == POk(If(c, b), next)
  {
  }

  lemma WhileRule(ts: Scanner.TokenStream, pos: nat, c: Condition, b: Stmt, q: nat, next: nat)
    requires Avail(ts, pos) && Cur(ts, pos) == "WHILE" && Eat(ts, pos, "WHILE") == POk((), pos + 1)
    requires ParseCondition(ts, pos + 1) == POk(c, q) && Eat(ts, q, "DO") == POk((), q + 1)
    requires ParseStatement(ts, q + 1) == POk(b, next)
    ensures ParseStatement(ts, pos) == POk(While(c, b), next)
  {
  }

  lemma WhileBeginStop(ts: Scanner.TokenStream, pos: nat, acc: seq<Stmt>, q: nat, next: nat)
    requires q == pos && Avail(ts, q) && Cur(ts, q) == "END" && Eat(ts, q, "END") == POk((), q + 1)
    requires Eat(ts, q + 1, ";") == POk((), next)
    ensures ParseWhileBegin(ts, pos, acc) == POk(acc, next)
  {
  }

  lemma WhileBeginRule(ts: Scanner.TokenStream, pos: nat, acc: seq<Stmt>, s: Stmt, q: nat)
    requires Avail(ts, pos) && Cur(ts, pos) != "END" && ParseStatement(ts, pos) == POk(s, q)
    ensures ParseWhileBegin(ts, pos, acc) == ParseWhileBegin(ts, q, acc + [s])
  {
  }

  lemma NamesStop(ts: Scanner.TokenStream, pos: nat, close: string, acc: seq<string>, next: nat)
    requires next == pos && Avail(ts, next) && Cur(ts, next) == close
    ensures ParseNames(ts, pos, close, acc) == POk(acc, next)
  {
  }

  lemma NamesRule(ts: Scanner.TokenStream, pos: nat, close: string, acc: seq<string>, x: string, next: nat)
    requires Avail(ts, pos) && pos < |ts.tokens| && Cur(ts, pos) == x && x != close && Eat(ts, pos, x) == POk((), pos + 1)
    requires if Cur(ts, pos + 1) == "," then Eat(ts, pos + 1, ",") == POk((), next) else next == pos + 1
    ensures Avail(ts, next) && ParseNames(ts, pos, close, acc) == ParseNames(ts, next, close, acc + [x])
  {
  }

  lemma VarsStop(ts: Scanner.TokenStream, pos: nat, vs: seq<string>, next: nat)
    requires next == pos && Avail(ts, next) && Cur(ts, next) != "VAR"
    ensures ParseVars(ts, pos, vs) == POk(vs, next)
  {
  }

  lemma VarsRule(ts: Scanner.TokenStream, pos: nat, vs: seq<string>, q: nat, next: nat)
    requires Avail(ts, pos) && Cur(ts, pos) == "VAR" && Eat(ts, pos, "VAR") == POk((), pos + 1)
    requires ParseNames(ts, pos + 1, ";", []) == POk(vs, q) && Eat(ts, q, ";") == POk((), next)
    ensures ParseVars(ts, pos, []) == ParseVars(ts, next, vs)
  {
  }

  lemma HeaderRule(ts: Scanner.TokenStream, pos: nat, name: string, params: seq<string>, q: nat, next: nat)
    requires Avail(ts, pos) && Cur(ts, pos) == "PROCEDURE" && Eat(ts, pos, "PROCEDURE") == POk((), pos + 1)
    requires Cur(ts, pos + 1) == name && Eat(ts, pos + 1, name) == POk((), pos + 1 + 1)
    requires Eat(ts, pos + 1 + 1, "(") == POk((), pos + 1 + 1 + 1) && ParseNames(ts, pos + 1 + 1 + 1, ")", []) == POk(params, q)
    requires Eat(ts, q, ")") == POk((), q + 1) && Eat(ts, q + 1, ";") == POk((), next)
    ensures ParseProcedureHeader(ts, pos) == POk((name, params), next)
  {
  }

  lemma DeclarationRule(ts: Scanner.TokenStream, pos: nat, d: ProcedureDeclaration, q: nat, next: nat)
    requires Avail(ts, pos) && Cur(ts, pos) == "PROCEDURE"
    requires ParseProcedureHeader(ts, pos) == POk((d.name, d.params), q) && ParseStatement(ts, q) == POk(d.body, next)
    ensures ParseProcedureDeclaration(ts, pos) == POk(d, next)
  {
  }

  lemma ProceduresStop(ts: Scanner.TokenStream, pos: nat, acc: seq<ProcedureDeclaration>, next: nat)
    requires next == pos && Avail(ts, next) && Cur(ts, next) != "PROCEDURE"
    ensures ParseProcedures(ts, pos, acc) == POk(acc, next)
  {
  }

  lemma ProceduresRule(ts: Scanner.TokenStream, pos: nat, acc: seq<ProcedureDeclaration>, d: ProcedureDeclaration, q: nat)
    requires Avail(ts, pos) && Cur(ts, pos) == "PROCEDURE" && ParseProcedureDeclaration(ts, pos) == POk(d, q)
    ensures ParseProcedures(ts, pos, acc) == ParseProcedures(ts, q, acc + [d])
  {
  }

  lemma ProgramRule(ts: Scanner.TokenStream, pos: nat, p: Program, q1: nat, q2: nat, q3: nat)
    requires Avail(ts, pos) && ParseVars(ts, pos, []) == POk(p.variables, q1)
    requires ParseProcedures(ts, q1, []) == POk(p.procedures, q2) && ParseStatement(ts, q2) == POk(p.stmt, q3)
    ensures ParseProgram(ts, pos) == POk(p, q3)
  {
  }

  // ---------------------------------------------------------------------------
  // Expressions read back
  //
  // A round trip lemma for a construct printed from `pos` takes its end
  // position `next` and says the parser reads the construct and stops there.
  // Its layout lemma returns the positions inside the construct and states
  // what the parser sees at each of them.

  /** Which of the three printing levels an expression starts at. */
  function Kind(e: Expr): nat
  {
    if !e.BinOp? then 0 else if IsAdditive(e.op) then 1 else 2
  }

  // The lemmas below call each other on the same expression, in an order that
  // depends on its kind (a name or number, a `+ -` operation, a `* /`
  // operation); these ranks make every such call go down.
  function FactorRank(e: Expr): nat { [2, 3, 4][Kind(e)] }
  function ParenRank(e: Expr): nat { [0, 2, 3][Kind(e)] }
  function CallRank(e: Expr): nat { [1, 0, 0][Kind(e)] }
  function TermRank(e: Expr): nat { [3, 4, 1][Kind(e)] }
  function ExprRank(e: Expr): nat { [4, 1, 2][Kind(e)] }

  lemma NumberRoundTrip(ts: Scanner.TokenStream, pos: nat, n: i32, next: nat)
    requires ts.end.EndForever? && n >= 0 && At(ts, pos, FactorTokens(Number(n)))
    requires next == pos + |FactorTokens(Number(n))|
    ensures ParseFactor(ts, pos) == POk(Number(n), next)
  {
    var s := IntToString(n as int);
    assert s == NatToString(n as nat);
    assert FactorTokens(Number(n)) == [s];
    AtOne(ts, pos, s);
    IntToStringRoundTrip(n);
    assert IsAsciiDigit(s[0]);
  }

  lemma VariableRoundTrip(ts: Scanner.TokenStream, pos: nat, x: string, next: nat)
    requires ts.end.EndForever? && IsName(x) && At(ts, pos, FactorTokens(Variable(x)))
    requires next == pos + |FactorTokens(Variable(x))| && Avail(ts, next) && Cur(ts, next) != "("
    ensures ParseFactor(ts, pos) == POk(Variable(x), next)
  {
    assert FactorTokens(Variable(x)) == [x];
    AtOne(ts, pos, x);
  }

  /** A printed factor parses back as itself, unless "(" follows (it would make a name a call). */
  lemma {:induction false} FactorRoundTrip(ts: Scanner.TokenStream, pos: nat, e: Expr, next: nat)
    requires ts.end.EndForever? && WfExpr(e) && At(ts, pos, FactorTokens(e))
    requires next == pos + |FactorTokens(e)| && Avail(ts, next) && Cur(ts, next) != "("
    ensures ParseFactor(ts, pos) == POk(e, next)
    decreases e, FactorRank(e)
  {
    match e
    case Number(n) => NumberRoundTrip(ts, pos, n, next);
    case Variable(x) => VariableRoundTrip(ts, pos, x, next);
    case ProcedureCall(f, args) => CallRoundTrip(ts, pos, e, next);
    case BinOp(op, l, r) => ParenRoundTrip(ts, pos, e, next);
  }

  lemma {:induction false} CallRoundTrip(ts: Scanner.TokenStream, pos: nat, e: Expr, next: nat)
    requires ts.end.EndForever? && e.ProcedureCall? && WfExpr(e) && At(ts, pos, FactorTokens(e))
    requires next == pos + |FactorTokens(e)|
    ensures ParseFactor(ts, pos) == POk(e, next)
    decreases e, CallRank(e)
  {
    var q := CallLayout(ts, pos, e, next);
    ArgsRoundTrip(ts, pos + 1 + 1, [], e.args, q);
    assert [] + e.args == e.args;
    CallRule(ts, pos, e.name, e.args, q, next);
  }

  /** A printed call: the name, "(", the arguments from `pos + 2` to `q`, ")". */
  lemma CallLayout(ts: Scanner.TokenStream, pos: nat, e: Expr, next: nat) returns (q: nat)
    requires ts.end.EndForever? && e.ProcedureCall? && WfExpr(e) && At(ts, pos, FactorTokens(e))
    requires next == pos + |FactorTokens(e)|
    ensures e == ProcedureCall(e.name, e.args) && IsName(e.name)
    ensures forall i :: 0 <= i < |e.args| ==> WfExpr(e.args[i])
    ensures Avail(ts, pos) && Cur(ts, pos) == e.name && Eat(ts, pos, e.name) == POk((), pos + 1)
    ensures Avail(ts, pos + 1) && Cur(ts, pos + 1) == "(" && Eat(ts, pos + 1, "(") == POk((), pos + 1 + 1)
    ensures At(ts, pos + 1 + 1, ArgTokens(e.args)) && q == pos + 1 + 1 + |ArgTokens(e.args)|
    ensures Avail(ts, q) && Cur(ts, q) == ")" && Eat(ts, q, ")") == POk((), next)
  {
    var inner := ArgTokens(e.args);
    AtCons(ts, pos, e.name, Bracket("(", inner, ")"));
    AtBracket(ts, pos + 1, "(", inner, ")");
    q := pos + 1 + 1 + |inner|;
  }

  /** The tokens inside the parentheses around an operation are the operation printed as an expression. */
  lemma OperationTokens(e: Expr)
    requires e.BinOp?
    ensures FactorTokens(e) == Bracket("(", ExprTokens(e), ")")
  {
    if !IsAdditive(e.op) {
      assert ExprTokens(e) == TermTokens(e);
    }
  }

  lemma {:induction false} ParenRoundTrip(ts: Scanner.TokenStream, pos: nat, e: Expr, next: nat)
    requires ts.end.EndForever? && e.BinOp? && WfExpr(e) && At(ts, pos, FactorTokens(e))
    requires next == pos + |FactorTokens(e)|
    ensures ParseFactor(ts, pos) == POk(e, next)
    decreases e, ParenRank(e)
  {
    var q := ParenLayout(ts, pos, e, next);
    ExprStep(ts, pos + 1, e, q);
    WhileExpressionStop(ts, q, e);
    ParenRule(ts, pos, e, q, next);
  }

  /** A parenthesised operation: "(", the operation from `pos + 1` to `q`, ")". */
  lemma ParenLayout(ts: Scanner.TokenStream, pos: nat, e: Expr, next: nat) returns (q: nat)
    requires ts.end.EndForever? && e.BinOp? && At(ts, pos, FactorTokens(e))
    requires next == pos + |FactorTokens(e)|
    ensures Avail(ts, pos) && Cur(ts, pos) == "(" && Eat(ts, pos, "(") == POk((), pos + 1)
    ensures At(ts, pos + 1, ExprTokens(e)) && q == pos + 1 + |ExprTokens(e)|
    ensures Avail(ts, q) && Cur(ts, q) == ")" && Eat(ts, q, ")") == POk((), next)
    ensures Cur(ts, q) != "(" && Cur(ts, q) != "+" && Cur(ts, q) != "-" && Cur(ts, q) != "*" && Cur(ts, q) != "/"
  {
    OperationTokens(e);
    AtBracket(ts, pos, "(", ExprTokens(e), ")");
    q := pos + 1 + |ExprTokens(e)|;
  }

  /** Arguments printed with commas parse back, in order, appended to those read so far. */
  lemma {:induction false} ArgsRoundTrip(ts: Scanner.TokenStream, pos: nat, acc: seq<Expr>, args: seq<Expr>, next: nat)
    requires ts.end.EndForever? && (forall i :: 0 <= i < |args| ==> WfExpr(args[i]))
    requires At(ts, pos, ArgTokens(args)) && next == pos + |ArgTokens(args)|
    requires Avail(ts, next) && Cur(ts, next) == ")"
    ensures ParseArgs(ts, pos, acc) == POk(acc + args, next)
    decreases args, 1
  {
    if |args| == 0 {
      assert ArgTokens(args) == [];
      ArgsStop(ts, pos, acc, next);
      assert acc + args == acc;
    } else {
      var q := ArgsFirst(ts, pos, acc, args, next);
      ArgsRoundTrip(ts, q, acc + [args[0]], args[1..], next);
      assert acc + [args[0]] + args[1..] == acc + args;
    }
  }

  /** The first argument parses back, and the parser moves past its comma. */
  lemma {:induction false} ArgsFirst(ts: Scanner.TokenStream, pos: nat, acc: seq<Expr>, args: seq<Expr>, next: nat) returns (q: nat)
    requires ts.end.EndForever? && |args| > 0 && (forall i :: 0 <= i < |args| ==> WfExpr(args[i]))
    requires At(ts, pos, ArgTokens(args)) && next == pos + |ArgTokens(args)|
    requires Avail(ts, next) && Cur(ts, next) == ")"
    ensures forall i :: 0 <= i < |args[1..]| ==> WfExpr(args[1..][i])
    ensures At(ts, q, ArgTokens(args[1..])) && next == q + |ArgTokens(args[1..])|
    ensures ParseArgs(ts, pos, acc) == ParseArgs(ts, q, acc + [args[0]])
    decreases args, 0
  {
    var p;
    p, q := ArgsLayout(ts, pos, args, next);
    ExprRoundTrip(ts, pos, args[0], p);
    ArgsRule(ts, pos, acc, args[0], p, q);
  }

  /** Printed arguments: the first from `pos` to `p`, a comma unless it is the last, the rest from `q`. */
  lemma ArgsLayout(ts: Scanner.TokenStream, pos: nat, args: seq<Expr>, next: nat) returns (p: nat, q: nat)
    requires ts.end.EndForever? && |args| > 0 && (forall i :: 0 <= i < |args| ==> WfExpr(args[i]))
    requires At(ts, pos, ArgTokens(args)) && next == pos + |ArgTokens(args)|
    requires Avail(ts, next) && Cur(ts, next) == ")"
    ensures WfExpr(args[0]) && forall i :: 0 <= i < |args[1..]| ==> WfExpr(args[1..][i])
    ensures Avail(ts, pos) && pos < |ts.tokens| && Cur(ts, pos) != ")"
    ensures At(ts, pos, ExprTokens(args[0])) && p == pos + |ExprTokens(args[0])|
    ensures Avail(ts, p) && Cur(ts, p) != "(" && Cur(ts, p) != "+" && Cur(ts, p) != "-" && Cur(ts, p) != "*" && Cur(ts, p) != "/"
    ensures if Cur(ts, p) == "," then Eat(ts, p, ",") == POk((), q) else q == p
    ensures At(ts, q, ArgTokens(args[1..])) && next == q + |ArgTokens(args[1..])|
  {
    var first := ExprTokens(args[0]);
    assert WfExpr(args[0]);
    ExprStart(args[0]);
    p := pos + |first|;
    if |args| > 1 {
      AtInfix(ts, pos, first, ",", ArgTokens(args[1..]));
      q := p + 1;
    } else {
      assert ArgTokens(args) == first && ArgTokens(args[1..]) == [];
      q := p;
    }
    AtFirst(ts, pos, first);
  }

  /** A printed term parses back; the `* /` loop then goes on from where it ends. */
  lemma {:induction false} TermStep(ts: Scanner.TokenStream, pos: nat, e: Expr, next: nat)
    requires ts.end.EndForever? && WfExpr(e) && At(ts, pos, TermTokens(e))
    requires next == pos + |TermTokens(e)| && Avail(ts, next) && Cur(ts, next) != "("
    ensures ParseTerm(ts, pos) == ParseWhileTerm(ts, next, e)
    decreases e, TermRank(e)
  {
    if e.BinOp? && !IsAdditive(e.op) {
      TermStepOp(ts, pos, e, next);
    } else {
      assert TermTokens(e) == FactorTokens(e);
      FactorRoundTrip(ts, pos, e, next);
      TermRule(ts, pos, e, next);
    }
  }

  lemma {:induction false} TermStepOp(ts: Scanner.TokenStream, pos: nat, e: Expr, next: nat)
    requires ts.end.EndForever? && e.BinOp? && !IsAdditive(e.op) && WfExpr(e) && At(ts, pos, TermTokens(e))
    requires next == pos + |TermTokens(e)| && Avail(ts, next) && Cur(ts, next) != "("
    ensures ParseTerm(ts, pos) == ParseWhileTerm(ts, next, e)
    decreases e, 0
  {
    var q := TermLayout(ts, pos, e, next);
    TermStep(ts, pos, e.left, q);
    TermRight(ts, q, e, next);
  }

  /** The operator and right operand of a `* /` operation are read by one round of the loop. */
  lemma {:induction false} TermRight(ts: Scanner.TokenStream, q: nat, e: Expr, next: nat)
    requires ts.end.EndForever? && e.BinOp? && IsMultiplicative(e.op) && WfExpr(e.right)
    requires Avail(ts, q) && Cur(ts, q) == e.op && Eat(ts, q, e.op) == POk((), q + 1)
    requires At(ts, q + 1, FactorTokens(e.right)) && next == q + 1 + |FactorTokens(e.right)|
    requires Avail(ts, next) && Cur(ts, next) != "("
    ensures ParseWhileTerm(ts, q, e.left) == ParseWhileTerm(ts, next, e)
    decreases e.right, FactorRank(e.right) + 1
  {
    FactorRoundTrip(ts, q + 1, e.right, next);
    WhileTermRound(ts, q, e.left, e.op, e.right, next);
  }

  /** `l * r` printed: the term `l` from `pos` to `q`, the operator, the factor `r` up to `next`. */
  lemma TermLayout(ts: Scanner.TokenStream, pos: nat, e: Expr, next: nat) returns (q: nat)
    requires ts.end.EndForever? && e.BinOp? && !IsAdditive(e.op) && WfExpr(e) && At(ts, pos, TermTokens(e))
    requires next == pos + |TermTokens(e)|
    ensures e == BinOp(e.op, e.left, e.right) && IsMultiplicative(e.op) && WfExpr(e.left) && WfExpr(e.right)
    ensures At(ts, pos, TermTokens(e.left)) && q == pos + |TermTokens(e.left)|
    ensures Avail(ts, q) && Cur(ts, q) == e.op && Cur(ts, q) != "(" && Eat(ts, q, e.op) == POk((), q + 1)
    ensures At(ts, q + 1, FactorTokens(e.right)) && next == q + 1 + |FactorTokens(e.right)|
  {
    AtInfix(ts, pos, TermTokens(e.left), e.op, FactorTokens(e.right));
    q := pos + |TermTokens(e.left)|;
  }

  /** A printed expression parses back; the `+ -` loop then goes on from where it ends. */
  lemma {:induction false} ExprStep(ts: Scanner.TokenStream, pos: nat, e: Expr, next: nat)
    requires ts.end.EndForever? && WfExpr(e) && At(ts, pos, ExprTokens(e))
    requires next == pos + |ExprTokens(e)| && Avail(ts, next)
    requires Cur(ts, next) != "(" && Cur(ts, next) != "*" && Cur(ts, next) != "/"
    ensures ParseExpression(ts, pos) == ParseWhileExpression(ts, next, e)
    decreases e, ExprRank(e)
  {
    if e.BinOp? && IsAdditive(e.op) {
      ExprStepOp(ts, pos, e, next);
    } else {
      assert ExprTokens(e) == TermTokens(e);
      TermStep(ts, pos, e, next);
      WhileTermStop(ts, next, e);
      ExpressionRule(ts, pos, e, next);
    }
  }

  lemma {:induction false} ExprStepOp(ts: Scanner.TokenStream, pos: nat, e: Expr, next: nat)
    requires ts.end.EndForever? && e.BinOp? && IsAdditive(e.op) && WfExpr(e) && At(ts, pos, ExprTokens(e))
    requires next == pos + |ExprTokens(e)| && Avail(ts, next)
    requires Cur(ts, next) != "(" && Cur(ts, next) != "*" && Cur(ts, next) != "/"
    ensures ParseExpression(ts, pos) == ParseWhileExpression(ts, next, e)
    decreases e, 0
  {
    var q := ExprLayout(ts, pos, e, next);
    ExprStep(ts, pos, e.left, q);
    ExprRight(ts, q, e, next);
  }

  /** The operator and right operand of a `+ -` operation are read by one round of the loop. */
  lemma {:induction false} ExprRight(ts: Scanner.TokenStream, q: nat, e: Expr, next: nat)
    requires ts.end.EndForever? && e.BinOp? && IsAdditive(e.op) && WfExpr(e.right)
    requires Avail(ts, q) && Cur(ts, q) == e.op && Eat(ts, q, e.op) == POk((), q + 1)
    requires At(ts, q + 1, TermTokens(e.right)) && next == q + 1 + |TermTokens(e.right)|
    requires Avail(ts, next) && Cur(ts, next) != "(" && Cur(ts, next) != "*" && Cur(ts, next) != "/"
    ensures ParseWhileExpression(ts, q, e.left) == ParseWhileExpression(ts, next, e)
    decreases e.right, TermRank(e.right) + 1
  {
    TermStep(ts, q + 1, e.right, next);
    WhileTermStop(ts, next, e.right);
    WhileExpressionRound(ts, q, e.left, e.op, e.right, next);
  }

  /** `l + r` printed: the expression `l` from `pos` to `q`, the operator, the term `r` up to `next`. */
  lemma ExprLayout(ts: Scanner.TokenStream, pos: nat, e: Expr, next: nat) returns (q: nat)
    requires ts.end.EndForever? && e.BinOp? && IsAdditive(e.op) && WfExpr(e) && At(ts, pos, ExprTokens(e))
    requires next == pos + |ExprTokens(e)|
    ensures e == BinOp(e.op, e.left, e.right) && WfExpr(e.left) && WfExpr(e.right)
    ensures At(ts, pos, ExprTokens(e.left)) && q == pos + |ExprTokens(e.left)|
    ensures Avail(ts, q) && Cur(ts, q) == e.op && Eat(ts, q, e.op) == POk((), q + 1)
    ensures Cur(ts, q) != "(" && Cur(ts, q) != "*" && Cur(ts, q) != "/"
    ensures At(ts, q + 1, TermTokens(e.right)) && next == q + 1 + |TermTokens(e.right)|
  {
    AtInfix(ts, pos, ExprTokens(e.left), e.op, TermTokens(e.right));
    q := pos + |ExprTokens(e.left)|;
  }

  /**
   * A printed expression parses back as itself when what follows cannot
   * continue it: no "(" and no operator.
   */
  lemma {:induction false} ExprRoundTrip(ts: Scanner.TokenStream, pos: nat, e: Expr, next: nat)
    requires ts.end.EndForever? && WfExpr(e) && At(ts, pos, ExprTokens(e))
    requires next == pos + |ExprTokens(e)| && Avail(ts, next)
    requires Cur(ts, next) != "(" && Cur(ts, next) != "+" && Cur(ts, next) != "-" && Cur(ts, next) != "*" && Cur(ts, next) != "/"
    ensures ParseExpression(ts, pos) == POk(e, next)
    decreases e, 5
  {
    ExprStep(ts, pos, e, next);
    WhileExpressionStop(ts, next, e);
  }

  // ---------------------------------------------------------------------------
  // Statements read back

  lemma CondRoundTrip(ts: Scanner.TokenStream, pos: nat, c: Condition, next: nat)
    requires ts.end.EndForever? && WfCondition(c) && At(ts, pos, CondTokens(c))
    requires next == pos + |CondTokens(c)| && Avail(ts, next)
    requires Cur(ts, next) != "(" && Cur(ts, next) != "+" && Cur(ts, next) != "-" && Cur(ts, next) != "*" && Cur(ts, next) != "/"
    ensures ParseCondition(ts, pos) == POk(c, next)
  {
    var q := CondLayout(ts, pos, c, next);
    ExprRoundTrip(ts, pos, c.left, q);
    ExprRoundTrip(ts, q + 1, c.right, next);
    ConditionRule(ts, pos, c.left, c.relop, c.right, q, next);
  }

  /** A printed condition: the left side from `pos` to `q`, the relational operator, the right side. */
  lemma CondLayout(ts: Scanner.TokenStream, pos: nat, c: Condition, next: nat) returns (q: nat)
    requires ts.end.EndForever? && WfCondition(c) && At(ts, pos, CondTokens(c))
    requires next == pos + |CondTokens(c)|
    ensures c == Condition(c.left, c.relop, c.right) && WfExpr(c.left) && WfExpr(c.right)
    ensures Avail(ts, pos) && At(ts, pos, ExprTokens(c.left)) && q == pos + |ExprTokens(c.left)|
    ensures Avail(ts, q) && Cur(ts, q) == c.relop && Eat(ts, q, c.relop) == POk((), q + 1)
    ensures Cur(ts, q) != "(" && Cur(ts, q) != "+" && Cur(ts, q) != "-" && Cur(ts, q) != "*" && Cur(ts, q) != "/"
    ensures At(ts, q + 1, ExprTokens(c.right)) && next == q + 1 + |ExprTokens(c.right)|
  {
    AtInfix(ts, pos, ExprTokens(c.left), c.relop, ExprTokens(c.right));
    ExprStart(c.left);
    AtFirst(ts, pos, ExprTokens(c.left));
    q := pos + |ExprTokens(c.left)|;
  }

  lemma WritelnRoundTrip(ts: Scanner.TokenStream, pos: nat, s: Stmt, next: nat)
    requires ts.end.EndForever? && s.Writeln? && WfStmt(s) && At(ts, pos, StmtTokens(s))
    requires next == pos + |StmtTokens(s)|
    ensures ParseStatement(ts, pos) == POk(s, next)
  {
    var q := WritelnLayout(ts, pos, s, next);
    ExprRoundTrip(ts, pos + 1 + 1, s.exp, q);
    WritelnRule(ts, pos, s.exp, q, next);
  }

  /** `WRITELN ( e ) ;` printed, with the expression from `pos + 2` to `q`. */
  lemma WritelnLayout(ts: Scanner.TokenStream, pos: nat, s: Stmt, next: nat) returns (q: nat)
    requires ts.end.EndForever? && s.Writeln? && WfStmt(s) && At(ts, pos, StmtTokens(s))
    requires next == pos + |StmtTokens(s)|
    ensures s == Writeln(s.exp) && WfExpr(s.exp)
    ensures Avail(ts, pos) && Cur(ts, pos) == "WRITELN" && Eat(ts, pos, "WRITELN") == POk((), pos + 1)
    ensures Eat(ts, pos + 1, "(") == POk((), pos + 1 + 1)
    ensures At(ts, pos + 1 + 1, ExprTokens(s.exp)) && q == pos + 1 + 1 + |ExprTokens(s.exp)|
    ensures Avail(ts, q) && Cur(ts, q) == ")" && Eat(ts, q, ")") == POk((), q + 1)
    ensures Cur(ts, q) != "(" && Cur(ts, q) != "+" && Cur(ts, q) != "-" && Cur(ts, q) != "*" && Cur(ts, q) != "/"
    ensures Eat(ts, q + 1, ";") == POk((), next)
  {
    var x := ExprTokens(s.exp);
    AtKeywordSemicolon(ts, pos, "WRITELN", Bracket("(", x, ")"));
    AtBracket(ts, pos + 1, "(", x, ")");
    q := pos + 1 + 1 + |x|;
  }

  lemma AssignmentRoundTrip(ts: Scanner.TokenStream, pos: nat, s: Stmt, next: nat)
    requires ts.end.EndForever? && s.Assignment? && WfStmt(s) && At(ts, pos, StmtTokens(s))
    requires next == pos + |StmtTokens(s)|
    ensures ParseStatement(ts, pos) == POk(s, next)
  {
    var q := AssignmentLayout(ts, pos, s, next);
    ExprRoundTrip(ts, pos + 1 + 1, s.exp, q);
    AssignmentRule(ts, pos, s.target, s.exp, q, next);
  }

  /** `x := e ;` printed, with the expression from `pos + 2` to `q`. */
  lemma AssignmentLayout(ts: Scanner.TokenStream, pos: nat, s: Stmt, next: nat) returns (q: nat)
    requires ts.end.EndForever? && s.Assignment? && WfStmt(s) && At(ts, pos, StmtTokens(s))
    requires next == pos + |StmtTokens(s)|
    ensures s == Assignment(s.target, s.exp) && IsName(s.target) && WfExpr(s.exp)
    ensures Avail(ts, pos) && Cur(ts, pos) == s.target && Eat(ts, pos, s.target) == POk((), pos + 1)
    ensures Eat(ts, pos + 1, ":=") == POk((), pos + 1 + 1)
    ensures At(ts, pos + 1 + 1, ExprTokens(s.exp)) && q == pos + 1 + 1 + |ExprTokens(s.exp)|
    ensures Avail(ts, q) && Cur(ts, q) == ";" && Eat(ts, q, ";") == POk((), next)
    ensures Cur(ts, q) != "(" && Cur(ts, q) != "+" && Cur(ts, q) != "-" && Cur(ts, q) != "*" && Cur(ts, q) != "/"
  {
    var x := ExprTokens(s.exp);
    AtCons(ts, pos, s.target, [":="] + (x + [";"]));
    AtKeywordSemicolon(ts, pos + 1, ":=", x);
    q := pos + 1 + 1 + |x|;
  }

  lemma {:induction false} BlockStmtRoundTrip(ts: Scanner.TokenStream, pos: nat, s: Stmt, next: nat)
    requires ts.end.EndForever? && s.Block? && WfStmt(s) && At(ts, pos, StmtTokens(s))
    requires next == pos + |StmtTokens(s)|
    ensures ParseStatement(ts, pos) == POk(s, next)
    decreases s, 1
  {
    var q := BlockStmtLayout(ts, pos, s, next);
    BlockRoundTrip(ts, pos + 1, [], s.stmts, q, next);
    assert [] + s.stmts == s.stmts;
    BlockRule(ts, pos, s.stmts, next);
  }

  /** `BEGIN ss END ;` printed, with the statements from `pos + 1` to `q`. */
  lemma BlockStmtLayout(ts: Scanner.TokenStream, pos: nat, s: Stmt, next: nat) returns (q: nat)
    requires ts.end.EndForever? && s.Block? && WfStmt(s) && At(ts, pos, StmtTokens(s))
    requires next == pos + |StmtTokens(s)|
    ensures s == Block(s.stmts) && forall i :: 0 <= i < |s.stmts| ==> WfStmt(s.stmts[i])
    ensures Avail(ts, pos) && Cur(ts, pos) == "BEGIN" && Eat(ts, pos, "BEGIN") == POk((), pos + 1)
    ensures At(ts, pos + 1, StmtsTokens(s.stmts)) && q == pos + 1 + |StmtsTokens(s.stmts)|
    ensures Avail(ts, q) && Cur(ts, q) == "END" && Eat(ts, q, "END") == POk((), q + 1)
    ensures Eat(ts, q + 1, ";") == POk((), next)
  {
    var x := StmtsTokens(s.stmts);
    AtCons(ts, pos, "BEGIN", x + (["END"] + [";"]));
    AtConcat(ts, pos + 1, x, ["END"] + [";"]);
    AtCons(ts, pos + 1 + |x|, "END", [";"]);
    AtOne(ts, pos + 1 + |x| + 1, ";");
    q := pos + 1 + |x|;
  }

  lemma {:induction false} IfRoundTrip(ts: Scanner.TokenStream, pos: nat, s: Stmt, next: nat)
    requires ts.end.EndForever? && s.If? && WfStmt(s) && At(ts, pos, StmtTokens(s))
    requires next == pos + |StmtTokens(s)|
    ensures ParseStatement(ts, pos) == POk(s, next)
    decreases s, 1
  {
    var q := GuardedHead(ts, pos, s, "IF", "THEN", next);
    StmtRoundTrip(ts, q + 1, s.body, next);
    IfRule(ts, pos, s.cond, s.body, q, next);
  }

  lemma {:induction false} WhileRoundTrip(ts: Scanner.TokenStream, pos: nat, s: Stmt, next: nat)
    requires ts.end.EndForever? && s.While? && WfStmt(s) && At(ts, pos, StmtTokens(s))
    requires next == pos + |StmtTokens(s)|
    ensures ParseStatement(ts, pos) == POk(s, next)
    decreases s, 1
  {
    var q := GuardedHead(ts, pos, s, "WHILE", "DO", next);
    StmtRoundTrip(ts, q + 1, s.body, next);
    WhileRule(ts, pos, s.cond, s.body, q, next);
  }

  /** `IF c THEN` or `WHILE c DO` printed: the keyword, the condition read back, the second keyword. */
  lemma GuardedHead(ts: Scanner.TokenStream, pos: nat, s: Stmt, k: string, t: string, next: nat) returns (q: nat)
    requires ts.end.EndForever? && WfStmt(s) && At(ts, pos, StmtTokens(s)) && next == pos + |StmtTokens(s)|
    requires (s.If? && k == "IF" && t == "THEN") || (s.While? && k == "WHILE" && t == "DO")
    ensures WfStmt(s.body)
    ensures s.If? ==> s == If(s.cond, s.body)
    ensures s.While? ==> s == While(s.cond, s.body)
    ensures Avail(ts, pos) && Cur(ts, pos) == k && Eat(ts, pos, k) == POk((), pos + 1)
    ensures ParseCondition(ts, pos + 1) == POk(s.cond, q)
    ensures Avail(ts, q) && Eat(ts, q, t) == POk((), q + 1)
    ensures At(ts, q + 1, StmtTokens(s.body)) && next == q + 1 + |StmtTokens(s.body)|
  {
    q := GuardedLayout(ts, pos, s, k, t, next);
    CondRoundTrip(ts, pos + 1, s.cond, q);
  }

  /** `IF c THEN b` or `WHILE c DO b` printed, with the condition from `pos + 1` to `q`. */
  lemma GuardedLayout(ts: Scanner.TokenStream, pos: nat, s: Stmt, k: string, t: string, next: nat) returns (q: nat)
    requires ts.end.EndForever? && WfStmt(s) && At(ts, pos, StmtTokens(s)) && next == pos + |StmtTokens(s)|
    requires (s.If? && k == "IF" && t == "THEN") || (s.While? && k == "WHILE" && t == "DO")
    ensures WfCondition(s.cond) && WfStmt(s.body)
    ensures s.If? ==> s == If(s.cond, s.body)
    ensures s.While? ==> s == While(s.cond, s.body)
    ensures Avail(ts, pos) && Cur(ts, pos) == k && Eat(ts, pos, k) == POk((), pos + 1)
    ensures At(ts, pos + 1, CondTokens(s.cond)) && q == pos + 1 + |CondTokens(s.cond)|
    ensures Avail(ts, q) && Cur(ts, q) == t && Eat(ts, q, t) == POk((), q + 1)
    ensures Cur(ts, q) != "(" && Cur(ts, q) != "+" && Cur(ts, q) != "-" && Cur(ts, q) != "*" && Cur(ts, q) != "/"
    ensures At(ts, q + 1, StmtTokens(s.body)) && next == q + 1 + |StmtTokens(s.body)|
  {
    assert StmtTokens(s) == [k] + Infix(CondTokens(s.cond), t, StmtTokens(s.body));
    AtKeywordInfix(ts, pos, k, CondTokens(s.cond), t, StmtTokens(s.body));
    q := pos + 1 + |CondTokens(s.cond)|;
  }

  /** A printed statement parses back as itself, whatever follows it. */
  lemma {:induction false} StmtRoundTrip(ts: Scanner.TokenStream, pos: nat, s: Stmt, next: nat)
    requires ts.end.EndForever? && WfStmt(s) && At(ts, pos, StmtTokens(s))
    requires next == pos + |StmtTokens(s)|
    ensures ParseStatement(ts, pos) == POk(s, next)
    decreases s, 2
  {
    match s
    case Writeln(_) => WritelnRoundTrip(ts, pos, s, next);
    case Block(_) => BlockStmtRoundTrip(ts, pos, s, next);
    case Assignment(_, _) => AssignmentRoundTrip(ts, pos, s, next);
    case If(_, _) => IfRoundTrip(ts, pos, s, next);
    case While(_, _) => WhileRoundTrip(ts, pos, s, next);
  }

  /**
   * The statements of a block, printed from `pos` to `q` and followed by
   * `END ;`, parse back in order, appended to those read so far.
   */
  lemma {:induction false} BlockRoundTrip(ts: Scanner.TokenStream, pos: nat, acc: seq<Stmt>, ss: seq<Stmt>, q: nat, next: nat)
    requires ts.end.EndForever? && (forall i :: 0 <= i < |ss| ==> WfStmt(ss[i]))
    requires At(ts, pos, StmtsTokens(ss)) && q == pos + |StmtsTokens(ss)|
    requires Avail(ts, q) && Cur(ts, q) == "END" && Eat(ts, q, "END") == POk((), q + 1)
    requires Eat(ts, q + 1, ";") == POk((), next)
    ensures ParseWhileBegin(ts, pos, acc) == POk(acc + ss, next)
    decreases ss, 1
  {
    if |ss| == 0 {
      assert StmtsTokens(ss) == [];
      WhileBeginStop(ts, pos, acc, q, next);
      assert acc + ss == acc;
    } else {
      BlockCons(ts, pos, acc, ss, q, next);
    }
  }

  lemma {:induction false} BlockCons(ts: Scanner.TokenStream, pos: nat, acc: seq<Stmt>, ss: seq<Stmt>, q: nat, next: nat)
    requires ts.end.EndForever? && |ss| > 0 && (forall i :: 0 <= i < |ss| ==> WfStmt(ss[i]))
    requires At(ts, pos, StmtsTokens(ss)) && q == pos + |StmtsTokens(ss)|
    requires Avail(ts, q) && Cur(ts, q) == "END" && Eat(ts, q, "END") == POk((), q + 1)
    requires Eat(ts, q + 1, ";") == POk((), next)
    ensures ParseWhileBegin(ts, pos, acc) == POk(acc + ss, next)
    decreases ss, 0
  {
    var p := BlockLayout(ts, pos, ss, q);
    BlockStep(ts, pos, acc, ss[0], p);
    BlockRoundTrip(ts, p, acc + [ss[0]], ss[1..], q, next);
    ConsParts(acc, ss);
  }

  /** Moving the first statement of `ss` onto the list read so far changes nothing. */
  lemma ConsParts(acc: seq<Stmt>, ss: seq<Stmt>)
    requires |ss| > 0
    ensures acc + [ss[0]] + ss[1..] == acc + ss
  {
  }

  /** Printed statements: the first from `pos` to `p`, the rest from `p` to `q`. */
  lemma BlockLayout(ts: Scanner.TokenStream, pos: nat, ss: seq<Stmt>, q: nat) returns (p: nat)
    requires |ss| > 0 && (forall i :: 0 <= i < |ss| ==> WfStmt(ss[i]))
    requires At(ts, pos, StmtsTokens(ss)) && q == pos + |StmtsTokens(ss)|
    ensures WfStmt(ss[0]) && forall i :: 0 <= i < |ss[1..]| ==> WfStmt(ss[1..][i])
    ensures At(ts, pos, StmtTokens(ss[0])) && p == pos + |StmtTokens(ss[0])|
    ensures At(ts, p, StmtsTokens(ss[1..])) && q == p + |StmtsTokens(ss[1..])|
  {
    assert WfStmt(ss[0]);
    AtConcat(ts, pos, StmtTokens(ss[0]), StmtsTokens(ss[1..]));
    p := pos + |StmtTokens(ss[0])|;
  }

  /** One statement of a block parses back, and the loop goes on after it. */
  lemma {:induction false} BlockStep(ts: Scanner.TokenStream, pos: nat, acc: seq<Stmt>, s: Stmt, p: nat)
    requires ts.end.EndForever? && WfStmt(s) && At(ts, pos, StmtTokens(s)) && p == pos + |StmtTokens(s)|
    ensures ParseWhileBegin(ts, pos, acc) == ParseWhileBegin(ts, p, acc + [s])
    decreases s, 3
  {
    StmtFirst(ts, pos, s);
    StmtRoundTrip(ts, pos, s, p);
    WhileBeginRule(ts, pos, acc, s, p);
  }

  // ---------------------------------------------------------------------------
  // Declarations and programs read back

  /** Names printed with commas and followed by `close` parse back, in order. */
  lemma {:induction false} NamesRoundTrip(ts: Scanner.TokenStream, pos: nat, close: string, acc: seq<string>, ns: seq<string>, next: nat)
    requires ts.end.EndForever? && AllNames(ns) && (close == ";" || close == ")")
    requires At(ts, pos, NameList(ns)) && next == pos + |NameList(ns)|
    requires Avail(ts, next) && Cur(ts, next) == close
    ensures ParseNames(ts, pos, close, acc) == POk(acc + ns, next)
    decreases ns
  {
    if |ns| == 0 {
      assert NameList(ns) == [];
      NamesStop(ts, pos, close, acc, next);
      assert acc + ns == acc;
    } else {
      var q := NamesLayout(ts, pos, close, ns, next);
      NamesRule(ts, pos, close, acc, ns[0], q);
      NamesRoundTrip(ts, q, close, acc + [ns[0]], ns[1..], next);
      assert acc + [ns[0]] + ns[1..] == acc + ns;
    }
  }

  /** Printed names: the first at `pos`, a comma unless it is the last, the rest from `q`. */
  lemma NamesLayout(ts: Scanner.TokenStream, pos: nat, close: string, ns: seq<string>, next: nat) returns (q: nat)
    requires ts.end.EndForever? && |ns| > 0 && AllNames(ns) && (close == ";" || close == ")")
    requires At(ts, pos, NameList(ns)) && next == pos + |NameList(ns)|
    requires Avail(ts, next) && Cur(ts, next) == close
    ensures AllNames(ns[1..]) && At(ts, q, NameList(ns[1..])) && next == q + |NameList(ns[1..])|
    ensures Avail(ts, pos) && pos < |ts.tokens| && Cur(ts, pos) == ns[0] && ns[0] != close
    ensures Eat(ts, pos, ns[0]) == POk((), pos + 1)
    ensures if Cur(ts, pos + 1) == "," then Eat(ts, pos + 1, ",") == POk((), q) else q == pos + 1
  {
    assert IsName(ns[0]);
    if |ns| > 1 {
      AtInfix(ts, pos, [ns[0]], ",", NameList(ns[1..]));
      q := pos + 1 + 1;
    } else {
      assert NameList(ns) == [ns[0]] && NameList(ns[1..]) == [];
      q := pos + 1;
    }
    AtFirst(ts, pos, [ns[0]]);
    AtOne(ts, pos, ns[0]);
  }

  lemma VarsRoundTrip(ts: Scanner.TokenStream, pos: nat, vs: seq<string>, next: nat)
    requires ts.end.EndForever? && AllNames(vs) && At(ts, pos, VarTokens(vs))
    requires next == pos + |VarTokens(vs)| && Avail(ts, next) && Cur(ts, next) != "VAR"
    ensures ParseVars(ts, pos, []) == POk(vs, next)
  {
    if |vs| == 0 {
      assert vs == [];
      VarsStop(ts, pos, [], next);
    } else {
      var q := VarsLayout(ts, pos, vs, next);
      NamesRoundTrip(ts, pos + 1, ";", [], vs, q);
      assert [] + vs == vs;
      VarsRule(ts, pos, vs, q, next);
      VarsStop(ts, next, vs, next);
    }
  }

  /** `VAR ns ;` printed, with the names from `pos + 1` to `q`. */
  lemma VarsLayout(ts: Scanner.TokenStream, pos: nat, vs: seq<string>, next: nat) returns (q: nat)
    requires ts.end.EndForever? && |vs| > 0 && At(ts, pos, VarTokens(vs)) && next == pos + |VarTokens(vs)|
    ensures Avail(ts, pos) && Cur(ts, pos) == "VAR" && Eat(ts, pos, "VAR") == POk((), pos + 1)
    ensures At(ts, pos + 1, NameList(vs)) && q == pos + 1 + |NameList(vs)|
    ensures Avail(ts, q) && Cur(ts, q) == ";" && Eat(ts, q, ";") == POk((), next)
  {
    AtKeywordSemicolon(ts, pos, "VAR", NameList(vs));
    q := pos + 1 + |NameList(vs)|;
  }

  // ---------------------------------------------------------------------------
  // Lists with optional commas and several VAR groups
  //
  // The name and argument loops (Parser.java:143-146, 281-284) eat a comma
  // after an element when there is one, and go on without it otherwise; the
  // VAR loop (Parser.java:136-150) reads any number of groups into one list.

  /** Names with a comma after any of them, or none, parse back in order. */
  lemma {:induction false} FlaggedNamesRoundTrip(ts: Scanner.TokenStream, pos: nat, close: string, acc: seq<string>, ns: seq<string>, commas: seq<bool>, next: nat)
    requires ts.end.EndForever? && AllNames(ns) && |commas| == |ns| && (close == ";" || close == ")")
    requires At(ts, pos, FlaggedNames(ns, commas)) && next == pos + |FlaggedNames(ns, commas)|
    requires Avail(ts, next) && Cur(ts, next) == close
    ensures ParseNames(ts, pos, close, acc) == POk(acc + ns, next)
    decreases |ns|
  {
    if |ns| == 0 {
      NamesStop(ts, pos, close, acc, next);
      assert acc + ns == acc;
    } else {
      var q := FlaggedNameStep(ts, pos, close, acc, ns, commas, next);
      FlaggedNamesRoundTrip(ts, q, close, acc + [ns[0]], ns[1..], commas[1..], next);
      assert acc + [ns[0]] + ns[1..] == acc + ns;
    }
  }

  /** The first name and its comma, if any, read from `pos` to `q`. */
  lemma FlaggedNameStep(ts: Scanner.TokenStream, pos: nat, close: string, acc: seq<string>, ns: seq<string>, commas: seq<bool>, next: nat)
    returns (q: nat)
    requires ts.end.EndForever? && AllNames(ns) && |ns| > 0 && |commas| == |ns| && (close == ";" || close == ")")
    requires At(ts, pos, FlaggedNames(ns, commas)) && next == pos + |FlaggedNames(ns, commas)|
    requires Avail(ts, next) && Cur(ts, next) == close
    ensures Avail(ts, q) && ParseNames(ts, pos, close, acc) == ParseNames(ts, q, close, acc + [ns[0]])
    ensures At(ts, q, FlaggedNames(ns[1..], commas[1..])) && next == q + |FlaggedNames(ns[1..], commas[1..])|
  {
    var c, rest := Comma(commas[0]), FlaggedNames(ns[1..], commas[1..]);
    AtCons(ts, pos, ns[0], c + rest);
    AtConcat(ts, pos + 1, c, rest);
    q := pos + 1 + |c|;
    if commas[0] {
      AtOne(ts, pos + 1, ",");
    } else if |ns| > 1 {
      AtFirst(ts, q, rest);
      assert IsName(ns[1]);
    }
    assert IsName(ns[0]);
    NamesRule(ts, pos, close, acc, ns[0], q);
  }

  /** The printed expression opens with a parenthesis. */
  predicate OpensParen(e: Expr)
  {
    |ExprTokens(e)| > 0 && ExprTokens(e)[0] == "("
  }

  /**
   * Arguments with a comma after any of them, or none, parse back in order,
   * provided an argument with no comma before it does not open with "("
   * (that "(" would turn a name ending the previous argument into a call).
   */
  lemma {:induction false} FlaggedArgsRoundTrip(ts: Scanner.TokenStream, pos: nat, acc: seq<Expr>, args: seq<Expr>, commas: seq<bool>, next: nat)
    requires ts.end.EndForever? && |commas| == |args| && (forall i :: 0 <= i < |args| ==> WfExpr(args[i]))
    requires forall i :: 0 <= i < |args| - 1 ==> commas[i] || !OpensParen(args[i + 1])
    requires At(ts, pos, FlaggedArgs(args, commas)) && next == pos + |FlaggedArgs(args, commas)|
    requires Avail(ts, next) && Cur(ts, next) == ")"
    ensures ParseArgs(ts, pos, acc) == POk(acc + args, next)
    decreases |args|
  {
    if |args| == 0 {
      ArgsStop(ts, pos, acc, next);
      assert acc + args == acc;
    } else {
      var p := ArgsJunction(ts, pos, args, commas, next);
      var q := p + |Comma(commas[0])|;
      ExprRoundTrip(ts, pos, args[0], p);
      ArgsRule(ts, pos, acc, args[0], p, q);
      assert forall i :: 0 <= i < |args[1..]| - 1 ==> commas[1..][i] || !OpensParen(args[1..][i + 1]) by {
        forall i | 0 <= i < |args[1..]| - 1 ensures commas[1..][i] || !OpensParen(args[1..][i + 1]) {
          assert commas[1..][i] == commas[i + 1] && args[1..][i + 1] == args[i + 2];
        }
      }
      FlaggedArgsRoundTrip(ts, q, acc + [args[0]], args[1..], commas[1..], next);
      assert acc + [args[0]] + args[1..] == acc + args;
    }
  }

  /** A call whose arguments carry any commas parses back as that call. */
  lemma FlaggedCallRoundTrip(ts: Scanner.TokenStream, pos: nat, f: string, args: seq<Expr>, commas: seq<bool>, next: nat)
    requires ts.end.EndForever? && IsName(f) && |commas| == |args| && (forall i :: 0 <= i < |args| ==> WfExpr(args[i]))
    requires forall i :: 0 <= i < |args| - 1 ==> commas[i] || !OpensParen(args[i + 1])
    requires At(ts, pos, [f] + Bracket("(", FlaggedArgs(args, commas), ")"))
    requires next == pos + |[f] + Bracket("(", FlaggedArgs(args, commas), ")")|
    ensures ParseFactor(ts, pos) == POk(ProcedureCall(f, args), next)
  {
    var inner := FlaggedArgs(args, commas);
    AtCons(ts, pos, f, Bracket("(", inner, ")"));
    AtBracket(ts, pos + 1, "(", inner, ")");
    FlaggedArgsRoundTrip(ts, pos + 1 + 1, [], args, commas, pos + 1 + 1 + |inner|);
    assert [] + args == args;
    CallRule(ts, pos, f, args, pos + 1 + 1 + |inner|, next);
  }

  /** The first argument runs from `pos` to `p`, where its comma or the next argument or ")" stands. */
  lemma ArgsJunction(ts: Scanner.TokenStream, pos: nat, args: seq<Expr>, commas: seq<bool>, next: nat) returns (p: nat)
    requires ts.end.EndForever? && |commas| == |args| > 0 && (forall i :: 0 <= i < |args| ==> WfExpr(args[i]))
    requires |args| > 1 ==> commas[0] || !OpensParen(args[1])
    requires At(ts, pos, FlaggedArgs(args, commas)) && next == pos + |FlaggedArgs(args, commas)|
    requires Avail(ts, next) && Cur(ts, next) == ")"
    ensures WfExpr(args[0]) && Avail(ts, pos) && pos < |ts.tokens| && Cur(ts, pos) != ")"
    ensures At(ts, pos, ExprTokens(args[0])) && p == pos + |ExprTokens(args[0])| && Avail(ts, p)
    ensures StopsExpression(Cur(ts, p))
    ensures if Cur(ts, p) == "," then commas[0] && Eat(ts, p, ",") == POk((), p + 1) else !commas[0]
    ensures var q := p + |Comma(commas[0])|;
      At(ts, q, FlaggedArgs(args[1..], commas[1..])) && next == q + |FlaggedArgs(args[1..], commas[1..])|
  {
    var first, c, rest := ExprTokens(args[0]), Comma(commas[0]), FlaggedArgs(args[1..], commas[1..]);
    assert WfExpr(args[0]);
    AtConcat(ts, pos, first, c + rest);
    AtConcat(ts, pos + |first|, c, rest);
    ExprStart(args[0]);
    AtFirst(ts, pos, first);
    p := pos + |first|;
    if commas[0] {
      AtOne(ts, p, ",");
    } else if |args| > 1 {
      assert WfExpr(args[1]);
      ExprStart(args[1]);
      assert rest == ExprTokens(args[1]) + (Comma(commas[1]) + FlaggedArgs(args[2..], commas[2..]));
      AtConcat(ts, p, ExprTokens(args[1]), Comma(commas[1]) + FlaggedArgs(args[2..], commas[2..]));
      AtFirst(ts, p, ExprTokens(args[1]));
    }
  }

  lemma VarsGroupRule(ts: Scanner.TokenStream, pos: nat, acc: seq<string>, vs: seq<string>, q: nat, next: nat)
    requires Avail(ts, pos) && Cur(ts, pos) == "VAR" && Eat(ts, pos, "VAR") == POk((), pos + 1)
    requires ParseNames(ts, pos + 1, ";", acc) == POk(vs, q) && Eat(ts, q, ";") == POk((), next)
    ensures ParseVars(ts, pos, acc) == ParseVars(ts, next, vs)
  {
  }

  /** Any number of VAR groups, with any commas, parse back as one list: the groups' names in order. */
  lemma {:induction false} VarGroupsRoundTrip(ts: Scanner.TokenStream, pos: nat, acc: seq<string>, gs: seq<seq<string>>, commas: seq<seq<bool>>, next: nat)
    requires ts.end.EndForever? && FlagsFit(gs, commas) && (forall i :: 0 <= i < |gs| ==> AllNames(gs[i]))
    requires At(ts, pos, VarGroups(gs, commas)) && next == pos + |VarGroups(gs, commas)|
    requires Avail(ts, next) && Cur(ts, next) != "VAR"
    ensures ParseVars(ts, pos, acc) == POk(acc + Flatten(gs), next)
    decreases |gs|
  {
    if |gs| == 0 {
      VarsStop(ts, pos, acc, next);
      assert acc + Flatten(gs) == acc;
    } else {
      VarGroupsTail(gs, commas);
      var q := VarGroupStep(ts, pos, acc, gs[0], commas[0], VarGroups(gs[1..], commas[1..]), next);
      VarGroupsRoundTrip(ts, q, acc + gs[0], gs[1..], commas[1..], next);
      FlattenCons(acc, gs);
    }
  }

  lemma FlattenCons(acc: seq<string>, gs: seq<seq<string>>)
    requires |gs| > 0
    ensures acc + gs[0] + Flatten(gs[1..]) == acc + Flatten(gs)
  {
  }

  /** One round of the VAR loop reads the first group's names, and the other groups start where it stops. */
  lemma VarGroupStep(ts: Scanner.TokenStream, pos: nat, acc: seq<string>, ns: seq<string>, commas: seq<bool>, rest: seq<string>, next: nat) returns (q: nat)
    requires ts.end.EndForever? && AllNames(ns) && |commas| == |ns|
    requires At(ts, pos, ["VAR"] + (FlaggedNames(ns, commas) + [";"]) + rest)
    requires next == pos + |["VAR"] + (FlaggedNames(ns, commas) + [";"]) + rest|
    ensures At(ts, q, rest) && next == q + |rest|
    ensures Avail(ts, pos) && ParseVars(ts, pos, acc) == ParseVars(ts, q, acc + ns)
  {
    var p := VarGroupAt(ts, pos, FlaggedNames(ns, commas), rest);
    VarGroupParsed(ts, pos, acc, ns, commas, p);
    q := p + 1;
  }

  /** The first group of a VAR section and the groups after it. */
  lemma VarGroupsTail(gs: seq<seq<string>>, commas: seq<seq<bool>>)
    requires FlagsFit(gs, commas) && |gs| > 0 && (forall i :: 0 <= i < |gs| ==> AllNames(gs[i]))
    ensures AllNames(gs[0]) && |commas[0]| == |gs[0]|
    ensures FlagsFit(gs[1..], commas[1..]) && forall i :: 0 <= i < |gs[1..]| ==> AllNames(gs[1..][i])
    ensures VarGroups(gs, commas) == ["VAR"] + (FlaggedNames(gs[0], commas[0]) + [";"]) + VarGroups(gs[1..], commas[1..])
  {
    forall i | 0 <= i < |gs[1..]| ensures AllNames(gs[1..][i]) && |commas[1..][i]| == |gs[1..][i]| {
      assert gs[1..][i] == gs[i + 1] && commas[1..][i] == commas[i + 1];
    }
  }

  /** "VAR" at `pos`, the names up to `q`, ";" at `q`, and whatever follows after it. */
  lemma VarGroupAt(ts: Scanner.TokenStream, pos: nat, names: seq<string>, rest: seq<string>) returns (q: nat)
    requires ts.end.EndForever? && At(ts, pos, ["VAR"] + (names + [";"]) + rest)
    ensures Avail(ts, pos) && Cur(ts, pos) == "VAR" && Eat(ts, pos, "VAR") == POk((), pos + 1)
    ensures At(ts, pos + 1, names) && q == pos + 1 + |names|
    ensures Avail(ts, q) && Cur(ts, q) == ";" && Eat(ts, q, ";") == POk((), q + 1)
    ensures At(ts, q + 1, rest)
  {
    AtConcat(ts, pos, ["VAR"] + (names + [";"]), rest);
    AtKeywordSemicolon(ts, pos, "VAR", names);
    q := pos + 1 + |names|;
  }

  /** `VAR`, one group's names and `;`: the loop goes on after the `;` with the names added. */
  lemma VarGroupParsed(ts: Scanner.TokenStream, pos: nat, acc: seq<string>, ns: seq<string>, commas: seq<bool>, p: nat)
    requires ts.end.EndForever? && AllNames(ns) && |commas| == |ns|
    requires Avail(ts, pos) && Cur(ts, pos) == "VAR" && Eat(ts, pos, "VAR") == POk((), pos + 1)
    requires At(ts, pos + 1, FlaggedNames(ns, commas)) && p == pos + 1 + |FlaggedNames(ns, commas)|
    requires Avail(ts, p) && Cur(ts, p) == ";" && Eat(ts, p, ";") == POk((), p + 1)
    ensures ParseVars(ts, pos, acc) == ParseVars(ts, p + 1, acc + ns)
  {
    FlaggedNamesRoundTrip(ts, pos + 1, ";", acc, ns, commas, p);
    VarsGroupRule(ts, pos, acc, acc + ns, p, p + 1);
  }

  lemma HeaderRoundTrip(ts: Scanner.TokenStream, pos: nat, d: ProcedureDeclaration, next: nat)
    requires ts.end.EndForever? && IsName(d.name) && AllNames(d.params) && At(ts, pos, HeaderTokens(d))
    requires next == pos + |HeaderTokens(d)|
    ensures Avail(ts, pos) && Cur(ts, pos) == "PROCEDURE"
    ensures ParseProcedureHeader(ts, pos) == POk((d.name, d.params), next)
  {
    var q := HeaderLayout(ts, pos, d, next);
    NamesRoundTrip(ts, pos + 1 + 1 + 1, ")", [], d.params, q);
    assert [] + d.params == d.params;
    HeaderRule(ts, pos, d.name, d.params, q, next);
  }

  /** `PROCEDURE name ( ps ) ;` printed, with the parameters from `pos + 3` to `q`. */
  lemma HeaderLayout(ts: Scanner.TokenStream, pos: nat, d: ProcedureDeclaration, next: nat) returns (q: nat)
    requires ts.end.EndForever? && At(ts, pos, HeaderTokens(d)) && next == pos + |HeaderTokens(d)|
    ensures Avail(ts, pos) && Cur(ts, pos) == "PROCEDURE" && Eat(ts, pos, "PROCEDURE") == POk((), pos + 1)
    ensures Cur(ts, pos + 1) == d.name && Eat(ts, pos + 1, d.name) == POk((), pos + 1 + 1)
    ensures Eat(ts, pos + 1 + 1, "(") == POk((), pos + 1 + 1 + 1)
    ensures At(ts, pos + 1 + 1 + 1, NameList(d.params)) && q == pos + 1 + 1 + 1 + |NameList(d.params)|
    ensures Avail(ts, q) && Cur(ts, q) == ")" && Eat(ts, q, ")") == POk((), q + 1)
    ensures Eat(ts, q + 1, ";") == POk((), next)
  {
    var x := NameList(d.params);
    var b := Bracket("(", x, ")");
    AtCons(ts, pos, "PROCEDURE", [d.name] + (b + [";"]));
    AtKeywordSemicolon(ts, pos + 1, d.name, b);
    AtBracket(ts, pos + 1 + 1, "(", x, ")");
    q := pos + 1 + 1 + 1 + |x|;
  }

  lemma DeclarationRoundTrip(ts: Scanner.TokenStream, pos: nat, d: ProcedureDeclaration, next: nat)
    requires ts.end.EndForever? && WfDeclaration(d) && At(ts, pos, DeclarationTokens(d))
    requires next == pos + |DeclarationTokens(d)|
    ensures Avail(ts, pos) && Cur(ts, pos) == "PROCEDURE"
    ensures ParseProcedureDeclaration(ts, pos) == POk(d, next)
  {
    var q := DeclarationLayout(ts, pos, d, next);
    HeaderRoundTrip(ts, pos, d, q);
    StmtRoundTrip(ts, q, d.body, next);
    DeclarationRule(ts, pos, d, q, next);
  }

  /** A printed declaration: the header from `pos` to `q`, then the body. */
  lemma DeclarationLayout(ts: Scanner.TokenStream, pos: nat, d: ProcedureDeclaration, next: nat) returns (q: nat)
    requires WfDeclaration(d) && At(ts, pos, DeclarationTokens(d)) && next == pos + |DeclarationTokens(d)|
    ensures IsName(d.name) && AllNames(d.params) && WfStmt(d.body)
    ensures At(ts, pos, HeaderTokens(d)) && q == pos + |HeaderTokens(d)|
    ensures At(ts, q, StmtTokens(d.body)) && next == q + |StmtTokens(d.body)|
  {
    AtConcat(ts, pos, HeaderTokens(d), StmtTokens(d.body));
    q := pos + |HeaderTokens(d)|;
  }

  /** Printed declarations followed by anything but PROCEDURE parse back, in order. */
  lemma {:induction false} DeclarationsRoundTrip(ts: Scanner.TokenStream, pos: nat, acc: seq<ProcedureDeclaration>, ds: seq<ProcedureDeclaration>, next: nat)
    requires ts.end.EndForever? && (forall i :: 0 <= i < |ds| ==> WfDeclaration(ds[i]))
    requires At(ts, pos, DeclarationsTokens(ds)) && next == pos + |DeclarationsTokens(ds)|
    requires Avail(ts, next) && Cur(ts, next) != "PROCEDURE"
    ensures ParseProcedures(ts, pos, acc) == POk(acc + ds, next)
    decreases ds
  {
    if |ds| == 0 {
      assert DeclarationsTokens(ds) == [];
      ProceduresStop(ts, pos, acc, next);
      assert acc + ds == acc;
    } else {
      var p := DeclarationsLayout(ts, pos, ds, next);
      DeclarationsStep(ts, pos, acc, ds[0], p);
      DeclarationsRoundTrip(ts, p, acc + [ds[0]], ds[1..], next);
      assert acc + [ds[0]] + ds[1..] == acc + ds;
    }
  }

  /** Printed declarations: the first from `pos` to `p`, the rest from `p` on. */
  lemma DeclarationsLayout(ts: Scanner.TokenStream, pos: nat, ds: seq<ProcedureDeclaration>, next: nat) returns (p: nat)
    requires |ds| > 0 && (forall i :: 0 <= i < |ds| ==> WfDeclaration(ds[i]))
    requires At(ts, pos, DeclarationsTokens(ds)) && next == pos + |DeclarationsTokens(ds)|
    ensures WfDeclaration(ds[0]) && forall i :: 0 <= i < |ds[1..]| ==> WfDeclaration(ds[1..][i])
    ensures At(ts, pos, DeclarationTokens(ds[0])) && p == pos + |DeclarationTokens(ds[0])|
    ensures At(ts, p, DeclarationsTokens(ds[1..])) && next == p + |DeclarationsTokens(ds[1..])|
  {
    assert WfDeclaration(ds[0]);
    AtConcat(ts, pos, DeclarationTokens(ds[0]), DeclarationsTokens(ds[1..]));
    p := pos + |DeclarationTokens(ds[0])|;
  }

  /** One declaration parses back, and the loop goes on after it. */
  lemma DeclarationsStep(ts: Scanner.TokenStream, pos: nat, acc: seq<ProcedureDeclaration>, d: ProcedureDeclaration, p: nat)
    requires ts.end.EndForever? && WfDeclaration(d) && At(ts, pos, DeclarationTokens(d))
    requires p == pos + |DeclarationTokens(d)|
    ensures ParseProcedures(ts, pos, acc) == ParseProcedures(ts, p, acc + [d])
  {
    DeclarationRoundTrip(ts, pos, d, p);
    ProceduresRule(ts, pos, acc, d, p);
  }

  lemma DeclarationsFirstToken(ds: seq<ProcedureDeclaration>)
    requires |ds| > 0
    ensures |DeclarationsTokens(ds)| > 0 && DeclarationsTokens(ds)[0] == "PROCEDURE"
  {
    assert DeclarationsTokens(ds) == HeaderTokens(ds[0]) + (StmtTokens(ds[0].body) + DeclarationsTokens(ds[1..]));
  }

  /** Where the three parts of a printed program lie: from 0 to `q1`, from `q1` to `q2`, and after `q2`. */
  lemma ProgramLayout(ts: Scanner.TokenStream, p: Program) returns (q1: nat, q2: nat)
    requires ts.tokens == ProgramTokens(p)
    ensures At(ts, 0, VarTokens(p.variables)) && q1 == 0 + |VarTokens(p.variables)|
    ensures At(ts, q1, DeclarationsTokens(p.procedures)) && q2 == q1 + |DeclarationsTokens(p.procedures)|
    ensures At(ts, q2, StmtTokens(p.stmt)) && |ProgramTokens(p)| == q2 + |StmtTokens(p.stmt)|
  {
    var v := VarTokens(p.variables);
    var d := DeclarationsTokens(p.procedures);
    assert At(ts, 0, ts.tokens);
    AtConcat(ts, 0, v, d + StmtTokens(p.stmt));
    AtConcat(ts, |v|, d, StmtTokens(p.stmt));
    q1 := |v|;
    q2 := q1 + |d|;
  }

  /** What follows the VAR section and the declarations of a printed program. */
  lemma ProgramJunctions(ts: Scanner.TokenStream, p: Program, q1: nat, q2: nat)
    requires ts.end.EndForever? && WfProgram(p)
    requires At(ts, q1, DeclarationsTokens(p.procedures)) && q2 == q1 + |DeclarationsTokens(p.procedures)|
    requires At(ts, q2, StmtTokens(p.stmt))
    ensures Avail(ts, q1) && Cur(ts, q1) != "VAR" && Avail(ts, q2) && Cur(ts, q2) != "PROCEDURE"
  {
    StmtFirst(ts, q2, p.stmt);
    if |p.procedures| > 0 {
      DeclarationsFirstToken(p.procedures);
      AtFirst(ts, q1, DeclarationsTokens(p.procedures));
    } else {
      assert q1 == q2;
    }
  }

  /** Laid out anywhere, the three printed parts read back as the program. */
  lemma ProgramParsed(ts: Scanner.TokenStream, p: Program, q1: nat, q2: nat, q3: nat)
    requires ts.end.EndForever? && WfProgram(p)
    requires At(ts, 0, VarTokens(p.variables)) && q1 == 0 + |VarTokens(p.variables)|
    requires At(ts, q1, DeclarationsTokens(p.procedures)) && q2 == q1 + |DeclarationsTokens(p.procedures)|
    requires At(ts, q2, StmtTokens(p.stmt)) && q3 == q2 + |StmtTokens(p.stmt)|
    ensures Avail(ts, 0) && ParseProgram(ts, 0) == POk(p, q3)
  {
    ProgramJunctions(ts, p, q1, q2);
    VarsRoundTrip(ts, 0, p.variables, q1);
    DeclarationsRoundTrip(ts, q1, [], p.procedures, q2);
    assert [] + p.procedures == p.procedures;
    StmtRoundTrip(ts, q2, p.stmt, q3);
    ProgramRule(ts, 0, p, q1, q2, q3);
  }

  /** Parsing a printed program gives back the program, and it reads exactly the printed tokens. */
  lemma ProgramRoundTrip(p: Program)
    requires WfProgram(p)
    ensures var ts := Scanner.TokenStream(ProgramTokens(p), Scanner.EndForever);
            ParseProgram(ts, 0) == POk(p, |ProgramTokens(p)|)
  {
    var ts := Scanner.TokenStream(ProgramTokens(p), Scanner.EndForever);
    var q1, q2 := ProgramLayout(ts, p);
    ProgramParsed(ts, p, q1, q2, |ProgramTokens(p)|);
  }

  // ---------------------------------------------------------------------------
  // Instances

  lemma NameTokens(x: string)
    ensures FactorTokens(Variable(x)) == [x] && TermTokens(Variable(x)) == [x] && ExprTokens(Variable(x)) == [x]
  {
  }

  /**
   * Parser.java:134-173: `parseProgram` returns as soon as its one statement
   * is read, and leaves whatever follows unread.
   */
  lemma ProgramEndsAtStatement(ts: Scanner.TokenStream, p: Program, rest: seq<string>)
    requires ts.end.EndForever? && WfProgram(p) && ts.tokens == ProgramTokens(p) + rest
    ensures ParseProgram(ts, 0) == POk(p, |ProgramTokens(p)|)
  {
    var v := VarTokens(p.variables);
    var d := DeclarationsTokens(p.procedures);
    assert At(ts, 0, ProgramTokens(p));
    AtConcat(ts, 0, v, d + StmtTokens(p.stmt));
    AtConcat(ts, |v|, d, StmtTokens(p.stmt));
    ProgramParsed(ts, p, |v|, |v| + |d|, |ProgramTokens(p)|);
  }

  /**
   * In `VAR x; x := 1; PROCEDURE p(); WRITELN(x); p();` the program is
   * `x := 1` alone: the declaration after the statement is never read.
   */
  lemma StatementEndsProgram()
    ensures var ts := Scanner.TokenStream(["VAR", "x", ";", "x", ":=", "1", ";", "PROCEDURE", "p", "(", ")", ";",
                                           "WRITELN", "(", "x", ")", ";", "p", "(", ")", ";"], Scanner.EndForever);
            ParseProgram(ts, 0) == POk(Program(["x"], [], Assignment("x", Number(1))), 7)
  {
    var ts := Scanner.TokenStream(["VAR", "x", ";", "x", ":=", "1", ";", "PROCEDURE", "p", "(", ")", ";",
                                   "WRITELN", "(", "x", ")", ";", "p", "(", ")", ";"], Scanner.EndForever);
    var rest := ["PROCEDURE", "p", "(", ")", ";", "WRITELN", "(", "x", ")", ";", "p", "(", ")", ";"];
    assert ts.tokens == ["VAR", "x", ";", "x", ":=", "1", ";"] + rest;
    OneAssignmentEnds(ts, rest);
  }

  /** `VAR x; x := 1;` followed by any tokens is the program `x := 1`. */
  lemma OneAssignmentEnds(ts: Scanner.TokenStream, rest: seq<string>)
    requires ts.end.EndForever? && ts.tokens == ["VAR", "x", ";", "x", ":=", "1", ";"] + rest
    ensures ParseProgram(ts, 0) == POk(Program(["x"], [], Assignment("x", Number(1))), 7)
  {
    OneAssignmentTokens();
    ProgramEndsAtStatement(ts, Program(["x"], [], Assignment("x", Number(1))), rest);
  }

  /** `VAR x; x := 1;` is how the program `x := 1` over `x` is written. */
  lemma OneAssignmentTokens()
    ensures ProgramTokens(Program(["x"], [], Assignment("x", Number(1)))) == ["VAR", "x", ";", "x", ":=", "1", ";"]
  {
    assert ExprTokens(Number(1)) == ["1"];
  }

  /** `VAR x y ; VAR z ;` declares `x`, `y` and `z`: commas are optional and the groups are joined. */
  lemma TwoVarGroups(ts: Scanner.TokenStream)
    requires ts == Scanner.TokenStream(["VAR", "x", "y", ";", "VAR", "z", ";"], Scanner.EndForever)
    ensures ParseVars(ts, 0, []) == POk(["x", "y", "z"], 7)
  {
    var gs, commas := [["x", "y"], ["z"]], [[false, false], [false]];
    assert FlaggedNames(["z"], [false]) == ["z"];
    assert FlaggedNames(["x", "y"], [false, false]) == ["x", "y"];
    assert VarGroups(gs, commas) == ts.tokens;
    assert Flatten(gs) == ["x", "y", "z"];
    VarGroupsRoundTrip(ts, 0, [], gs, commas, 7);
    assert [] + Flatten(gs) == ["x", "y", "z"];
  }

  /** `f(1 2)` is a call with the two arguments 1 and 2: no comma is needed between them. */
  lemma ArgumentsWithoutComma(ts: Scanner.TokenStream)
    requires ts == Scanner.TokenStream(["f", "(", "1", "2", ")"], Scanner.EndForever)
    ensures ParseFactor(ts, 0) == POk(ProcedureCall("f", [Number(1), Number(2)]), 5)
  {
    var args, commas := [Number(1), Number(2)], [false, false];
    assert ExprTokens(Number(1)) == ["1"] && ExprTokens(Number(2)) == ["2"];
    assert ["f"] + Bracket("(", FlaggedArgs(args, commas), ")") == ts.tokens;
    FlaggedCallRoundTrip(ts, 0, "f", args, commas, 5);
  }

  /**
   * `x == y` is a condition with operator "==": any token after the left
   * side is taken as the operator, one of the six or not.
   */
  lemma UnknownRelopParses(ts: Scanner.TokenStream)
    requires ts == Scanner.TokenStream(["x", "==", "y"], Scanner.EndForever)
    ensures ParseCondition(ts, 0) == POk(Condition(Variable("x"), "==", Variable("y")), 3)
  {
    var c := Condition(Variable("x"), "==", Variable("y"));
    NameTokens("x");
    NameTokens("y");
    assert CondTokens(c) == ts.tokens;
    CondRoundTrip(ts, 0, c, 3);
  }

  /**
   * Parser.java:218-226: a statement that starts with any token other than
   * the four statement keywords is an assignment to that token, a name or not.
   */
  lemma TargetRoundTrip(ts: Scanner.TokenStream, pos: nat, x: string, e: Expr, next: nat)
    requires ts.end.EndForever? && x != "WRITELN" && x != "BEGIN" && x != "IF" && x != "WHILE" && WfExpr(e)
    requires At(ts, pos, [x] + ([":="] + (ExprTokens(e) + [";"]))) && next == pos + |ExprTokens(e)| + 3
    ensures ParseStatement(ts, pos) == POk(Assignment(x, e), next)
  {
    var xs := ExprTokens(e);
    AtCons(ts, pos, x, [":="] + (xs + [";"]));
    AtKeywordSemicolon(ts, pos + 1, ":=", xs);
    ExprRoundTrip(ts, pos + 1 + 1, e, pos + 1 + 1 + |xs|);
    AssignmentRule(ts, pos, x, e, pos + 1 + 1 + |xs|, next);
  }

  /**
   * `BEGIN : := 1; : := 2; END;` is a block of two assignments to `:`, the
   * token the scanner returns for a colon not followed by `=`.
   */
  lemma ColonTargetParses(ts: Scanner.TokenStream)
    requires ts == Scanner.TokenStream(["BEGIN", ":", ":=", "1", ";", ":", ":=", "2", ";", "END", ";"], Scanner.EndForever)
    ensures ParseStatement(ts, 0) == POk(Block([Assignment(":", Number(1)), Assignment(":", Number(2))]), 11)
  {
    ColonBlockAt(ts);
  }

  lemma ColonBlockAt(ts: Scanner.TokenStream)
    requires ts.end.EndForever? && At(ts, 0, ["BEGIN"]) && At(ts, 1, [":", ":=", "1", ";"])
    requires At(ts, 5, [":", ":=", "2", ";"]) && At(ts, 9, ["END"]) && At(ts, 10, [";"])
    ensures ParseStatement(ts, 0) == POk(Block([Assignment(":", Number(1)), Assignment(":", Number(2))]), 11)
  {
    var s1, s2 := Assignment(":", Number(1)), Assignment(":", Number(2));
    assert ExprTokens(Number(1)) == ["1"] && ExprTokens(Number(2)) == ["2"];
    assert [":"] + ([":="] + (ExprTokens(Number(1)) + [";"])) == [":", ":=", "1", ";"];
    assert [":"] + ([":="] + (ExprTokens(Number(2)) + [";"])) == [":", ":=", "2", ";"];
    TargetRoundTrip(ts, 1, ":", Number(1), 5);
    TargetRoundTrip(ts, 5, ":", Number(2), 9);
    AtFirst(ts, 1, [":", ":=", "1", ";"]);
    AtFirst(ts, 5, [":", ":=", "2", ";"]);
    TwoStatementBlock(ts, 0, s1, 5, s2, 9, 11);
  }

  /** `BEGIN s1 s2 END ;`, with the two statements parsed from `pos + 1` to `p` and from `p` to `q`. */
  lemma TwoStatementBlock(ts: Scanner.TokenStream, pos: nat, s1: Stmt, p: nat, s2: Stmt, q: nat, next: nat)
    requires ts.end.EndForever? && At(ts, pos, ["BEGIN"]) && At(ts, q, ["END"]) && At(ts, q + 1, [";"]) && next == q + 2
    requires Avail(ts, pos + 1) && ParseStatement(ts, pos + 1) == POk(s1, p) && Cur(ts, pos + 1) != "END"
    requires Avail(ts, p) && ParseStatement(ts, p) == POk(s2, q) && Cur(ts, p) != "END"
    ensures ParseStatement(ts, pos) == POk(Block([s1, s2]), next)
  {
    AtOne(ts, pos, "BEGIN");
    TwoStatementsThenEnd(ts, pos + 1, s1, p, s2, q, next);
    BlockRule(ts, pos, [s1, s2], next);
  }

  lemma TwoStatementsThenEnd(ts: Scanner.TokenStream, pos: nat, s1: Stmt, p: nat, s2: Stmt, q: nat, next: nat)
    requires ts.end.EndForever? && At(ts, q, ["END"]) && At(ts, q + 1, [";"]) && next == q + 2
    requires Avail(ts, pos) && ParseStatement(ts, pos) == POk(s1, p) && Cur(ts, pos) != "END"
    requires Avail(ts, p) && ParseStatement(ts, p) == POk(s2, q) && Cur(ts, p) != "END"
    ensures ParseWhileBegin(ts, pos, []) == POk([s1, s2], next)
  {
    AtOne(ts, q, "END");
    AtOne(ts, q + 1, ";");
    WhileBeginRule(ts, pos, [], s1, p);
    WhileBeginRule(ts, p, [] + [s1], s2, q);
    WhileBeginStop(ts, q, [] + [s1] + [s2], q, next);
    assert [] + [s1] + [s2] == [s1, s2];
  }

  /** `x - y - z` groups to the left. */
  lemma MinusGroupsLeft(x: string, y: string, z: string)
    requires IsName(x) && IsName(y) && IsName(z)
    ensures var ts := Scanner.TokenStream([x, "-", y, "-", z], Scanner.EndForever);
            ParseExpression(ts, 0) == POk(BinOp("-", BinOp("-", Variable(x), Variable(y)), Variable(z)), 5)
  {
    var l := BinOp("-", Variable(x), Variable(y));
    var e := BinOp("-", l, Variable(z));
    var ts := Scanner.TokenStream([x, "-", y, "-", z], Scanner.EndForever);
    NameTokens(x);
    NameTokens(y);
    NameTokens(z);
    assert ExprTokens(l) == Infix([x], "-", [y]);
    assert ExprTokens(e) == Infix(ExprTokens(l), "-", [z]);
    assert ExprTokens(e) == ts.tokens;
    assert At(ts, 0, ExprTokens(e));
    ExprRoundTrip(ts, 0, e, 5);
  }

  /** `x + y * z` multiplies first. */
  lemma TimesBindsTighter(x: string, y: string, z: string)
    requires IsName(x) && IsName(y) && IsName(z)
    ensures var ts := Scanner.TokenStream([x, "+", y, "*", z], Scanner.EndForever);
            ParseExpression(ts, 0) == POk(BinOp("+", Variable(x), BinOp("*", Variable(y), Variable(z))), 5)
  {
    var r := BinOp("*", Variable(y), Variable(z));
    var e := BinOp("+", Variable(x), r);
    var ts := Scanner.TokenStream([x, "+", y, "*", z], Scanner.EndForever);
    NameTokens(x);
    NameTokens(y);
    NameTokens(z);
    assert TermTokens(r) == Infix([y], "*", [z]);
    assert ExprTokens(e) == Infix([x], "+", TermTokens(r));
    assert ExprTokens(e) == ts.tokens;
    assert At(ts, 0, ExprTokens(e));
    ExprRoundTrip(ts, 0, e, 5);
  }

  /**
   * Parser.java:265-269: a minus in front of any factor reads as `0 - factor`,
   * the factor being read exactly as it would be without the minus.
   */
  lemma UnaryMinus(ts: Scanner.TokenStream, pos: nat, f: Expr, next: nat)
    requires ts.end.EndForever? && WfExpr(f) && At(ts, pos, ["-"] + FactorTokens(f))
    requires next == pos + 1 + |FactorTokens(f)| && Avail(ts, next) && Cur(ts, next) != "("
    ensures ParseFactor(ts, pos) == POk(BinOp("-", Number(0), f), next)
  {
    AtCons(ts, pos, "-", FactorTokens(f));
    FactorRoundTrip(ts, pos + 1, f, next);
  }
}
