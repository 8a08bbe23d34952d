/**
 * The branch Condition.compile emits, read with the meaning MIPS gives its
 * signed branch instructions, against the comparison Condition.eval makes.
 * Only this one instruction is given a meaning; the rest of the generated
 * program is text.
 */
module Branching {
  import opened JavaInt
  import opened Ast
  import opened CodeGen
  import Interpreter

  /** The MIPS signed branches: the jump is taken exactly when the relation between $t0 and $v0 holds. */
  predicate Taken(mnemonic: string, t0: int, v0: int)
  {
    match mnemonic
    case "bne" => t0 != v0
    case "beq" => t0 == v0
    case "bge" => t0 >= v0
    case "ble" => t0 <= v0
    case "bgt" => t0 > v0
    case "blt" => t0 < v0
    case _ => false
  }

  /**
   * Condition.java:86-109: the branch jumps past the guarded code exactly
   * when the relation, in its ordinary meaning, does not hold between the
   * left operand ($t0) and the right ($v0).
   */
  lemma BranchNegates(relop: string, a: i32, b: i32)
    requires IsRelop(relop)
    ensures Taken(Mnemonic(relop), a as int, b as int) <==> !Interpreter.Holds(relop, a, b)
  {
  }

  /**
   * Condition.java:42-64 against 86-109: for five operators the compiled
   * code skips the body exactly when the interpreter does.
   */
  lemma CompiledAgreesWithInterpreter(relop: string, a: i32, b: i32)
    requires IsRelop(relop) && relop != ">"
    ensures Taken(Mnemonic(relop), a as int, b as int) <==> Interpreter.Compare(relop, a, b) != 1
  {
    BranchNegates(relop, a, b);
    Interpreter.CompareMeansHolds(relop, a, b);
  }

  /**
   * Condition.java:55-58 against 98-100: for `>` the interpreter computes
   * `>=` while the compiled `ble` tests the true `>`, so the two disagree
   * exactly when the operands are equal.
   */
  lemma CompiledGreaterDiffers(a: i32, b: i32)
    ensures Taken(Mnemonic(">"), a as int, b as int) == (Interpreter.Compare(">", a, b) == 1) <==> a == b
  {
    BranchNegates(">", a, b);
    Interpreter.CompareGreaterIsAtLeast(a, b);
  }

  /**
   * Condition.java:86-109: with an operator outside the six no branch is
   * emitted, so the compiled code always falls through into the body,
   * which is what the interpreter's 1 means too.
   */
  lemma UnknownRelopFallsThrough(c: Condition, dest: string, a: i32, b: i32)
    requires !IsRelop(c.relop)
    ensures BranchCode(c.relop, dest) == [] && Interpreter.Compare(c.relop, a, b) == 1
  {
    Interpreter.CompareUnknownHolds(c.relop, a, b);
  }
}
