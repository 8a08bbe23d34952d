/**
 * The abstract syntax tree of src/ast. Every node is an immutable value: the
 * Java classes only store what their constructors receive, and the getters of
 * ProcedureDeclaration (ProcedureDeclaration.java:36-48) are the datatype's
 * destructors `params` and `body`.
 */
module Ast {
  import opened JavaInt

  /** Expression.java and its subclasses Number, Variable, BinOp, ProcedureCall. */
  datatype Expr =
    | Number(value: i32)
    | Variable(name: string)
    | BinOp(op: string, left: Expr, right: Expr)
    | ProcedureCall(name: string, args: seq<Expr>)

  /**
   * Condition.java. In Java it also extends Expression, but the parser only
   * ever builds one as the condition of IF and WHILE, so it has its own type.
   */
  datatype Condition = Condition(left: Expr, relop: string, right: Expr)

  /** The additive operators of an expression. */
  predicate IsAdditive(op: string) { op == "+" || op == "-" }

  /** The multiplicative operators of a term. */
  predicate IsMultiplicative(op: string) { op == "*" || op == "/" }

  /** The four operators BinOp.java:37-56 evaluates and BinOp.java:71-90 compiles. */
  predicate IsOperator(op: string) { IsAdditive(op) || IsMultiplicative(op) }

  /** The six relational operators Condition.java:42-64 and 86-109 know. */
  predicate IsRelop(r: string) { r in {"=", "<>", "<", "<=", ">", ">="} }

  /** Statement.java and its subclasses Writeln, Block, Assignment, If, While. */
  datatype Stmt =
    | Writeln(exp: Expr)
    | Block(stmts: seq<Stmt>)
    | Assignment(target: string, exp: Expr)
    | If(cond: Condition, body: Stmt)
    | While(cond: Condition, body: Stmt)

  /** ProcedureDeclaration.java:25-30. */
  datatype ProcedureDeclaration = ProcedureDeclaration(name: string, params: seq<string>, body: Stmt)

  /** Program.java:27-32: the VAR names, the procedure declarations and the main statement. */
  datatype Program = Program(variables: seq<string>, procedures: seq<ProcedureDeclaration>, stmt: Stmt)
}
