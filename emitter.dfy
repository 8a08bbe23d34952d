/**
 * src/emitter/Emitter.java: the writer the compile methods print MIPS text
 * through. The output file is modelled as the sequence of lines `println`
 * has written; opening and closing the file are not part of this model.
 */
module Emission {

  /** A line of code that names a label: it ends with a colon. */
  predicate EndsWithColon(code: string)
  {
    |code| > 0 && code[|code| - 1] == ':'
  }

  /** Emitter.java:39-44: the line `emit(code)` writes. Labels stay flush left, everything else is indented by a tab. */
  function Line(code: string): string
  {
    if EndsWithColon(code) then code else "\t" + code
  }

  /**
   * Emitter.java:39-44: indenting never turns a line into a label or a
   * label into something else, and the code can be read back from the line.
   */
  lemma LineKeepsLabels(code: string)
    ensures EndsWithColon(Line(code)) <==> EndsWithColon(code)
    ensures EndsWithColon(code) ==> Line(code) == code
    ensures !EndsWithColon(code) ==> |Line(code)| == |code| + 1 && Line(code)[0] == '\t' && Line(code)[1..] == code
  {
  }

  /** Emitter.java:39-44: different code never gives the same line. */
  lemma LineInjective(a: string, b: string)
    requires Line(a) == Line(b)
    ensures a == b
  {
    LineKeepsLabels(a);
    LineKeepsLabels(b);
  }

  /** Emitter.java:58-62: make room on the stack, then store `reg` there. */
  function PushCode(reg: string): seq<string>
  {
    [Line("subu $sp $sp 4"), Line("sw " + reg + " ($sp)\n")]
  }

  /** Emitter.java:68-72: load `reg` from the top of the stack, then release it. */
  function PopCode(reg: string): seq<string>
  {
    [Line("lw " + reg + " ($sp)"), Line("addu $sp $sp 4\n")]
  }

  class Emitter {
    /** Every line written so far, oldest first. */
    var lines: seq<string>
    /** The last label id handed out; none has been handed out while it is 0. */
    var labelID: nat

    /** Emitter.java:22-33, without the file. */
    constructor ()
      ensures lines == [] && labelID == 0
    {
      lines := [];
      labelID := 0;
    }

    /** Emitter.java:39-44: exactly one line is added and nothing written before changes. */
    method Emit(code: string)
      modifies this
      ensures lines == old(lines) + [Line(code)] && labelID == old(labelID)
    {
      var l := code;
      if !EndsWithColon(code) {
        l := "\t" + code;
      }
      lines := lines + [l];
    }

    /** Emitter.java:58-62. */
    method EmitPush(reg: string)
      modifies this
      ensures lines == old(lines) + PushCode(reg) && labelID == old(labelID)
    {
      Emit("subu $sp $sp 4");
      Emit("sw " + reg + " ($sp)\n");
    }

    /** Emitter.java:68-72. */
    method EmitPop(reg: string)
      modifies this
      ensures lines == old(lines) + PopCode(reg) && labelID == old(labelID)
    {
      Emit("lw " + reg + " ($sp)");
      Emit("addu $sp $sp 4\n");
    }

    /**
     * Emitter.java:78-82: the counter goes up by one and the new value is
     * returned, so the ids one emitter hands out are 1, 2, 3, ... in order.
     */
    method NextLabelID() returns (id: nat)
      modifies this
      ensures id == old(labelID) + 1 && labelID == id && lines == old(lines)
    {
      labelID := labelID + 1;
      id := labelID;
    }
  }

  /** On a fresh emitter the first id is 1 and each later one is larger than all before it. */
  method LabelIdsIncrease() returns (first: nat, second: nat, third: nat)
    ensures first == 1 && first < second < third
  {
    var e := new Emitter();
    first := e.NextLabelID();
    second := e.NextLabelID();
    third := e.NextLabelID();
  }
}
