/**
 * The lexer of src/scanner/Scanner.java.
 *
 * The input is a string read one character at a time. `pos` is how much of it
 * the reader has consumed, `cur` is the lookahead character `currentChar` and
 * `eof` the end flag. Reading a period or reading past the end sets `eof` and
 * keeps the old `currentChar`. The reader still moves on after a period, so a
 * scanning loop that does not test `eof` reads whatever follows the period.
 *
 * The pure functions below are the reference semantics. The class `Scanner`
 * is the imperative model, and its methods are proved equal to them.
 */
module Scanner {

  // ---------------------------------------------------------------------------
  // Character classes (Scanner.java:195-244)

  predicate IsDigit(c: char) { '0' <= c <= '9' }

  predicate IsLetter(c: char) { ('a' <= c <= 'z') || ('A' <= c <= 'Z') }

  predicate IsWhiteSpace(c: char) { c == ' ' || c == '\t' || c == '\r' || c == '\n' }

  /** The one-character tokens of `scanOperand`. */
  predicate IsSingle(c: char) { c == '(' || c == ')' || c == '^' || c == ';' || c == ',' }

  /** The operator characters that may absorb a following `=`. */
  predicate IsCompound(c: char) {
    c == '<' || c == '>' || c == ':' || c == '+' || c == '-' || c == '*' || c == '%' || c == '='
  }

  predicate IsOperand(c: char) { IsSingle(c) || IsCompound(c) }

  /** The character classes `nextToken` dispatches on never overlap. */
  lemma CharClassesDisjoint(c: char)
    ensures !(IsDigit(c) && IsLetter(c)) && !(IsDigit(c) && IsOperand(c)) && !(IsLetter(c) && IsOperand(c))
    ensures IsWhiteSpace(c) ==> !IsDigit(c) && !IsLetter(c) && !IsOperand(c) && c != '/'
    ensures c == '/' ==> !IsDigit(c) && !IsLetter(c) && !IsOperand(c)
  {
  }

  // ---------------------------------------------------------------------------
  // Reader state and one-character reads

  datatype ScanState = ScanState(pos: nat, cur: char, eof: bool)

  /** Outcome of one `nextToken` call; the last two stand for System.exit and a loop that never ends. */
  datatype Scan = Token(text: string) | LexError | Diverges

  predicate Within(input: string, st: ScanState) { st.pos <= |input| }

  /** `getNextChar` (Scanner.java:68-83): a period or the end of input sets `eof` and keeps `cur`. */
  function Read(input: string, st: ScanState): (r: ScanState)
    requires Within(input, st)
    ensures Within(input, r)
    ensures st.pos < |input| && input[st.pos] != '.' ==> r == ScanState(st.pos + 1, input[st.pos], st.eof)
    ensures (st.pos == |input| || input[st.pos] == '.') ==> r.eof && r.cur == st.cur
  {
    if st.pos == |input| then st.(eof := true)
    else if input[st.pos] == '.' then ScanState(st.pos + 1, st.cur, true)
    else ScanState(st.pos + 1, input[st.pos], st.eof)
  }

  /**
   * What is left to read: two units per unread character and one for a clear
   * end flag. Every read lowers it, except in the one state where it is zero;
   * there a read changes nothing.
   */
  function Left(input: string, st: ScanState): nat
    requires Within(input, st)
  {
    2 * (|input| - st.pos) + (if st.eof then 0 else 1)
  }

  /** A loop that keeps reading from a state where nothing is left gets back the same state. */
  predicate Stuck(input: string, st: ScanState)
    requires Within(input, st)
  {
    Left(input, st) == 0
  }

  lemma ReadProgress(input: string, st: ScanState)
    requires Within(input, st)
    ensures Stuck(input, st) ==> Read(input, st) == st
    ensures !Stuck(input, st) ==> Left(input, Read(input, st)) < Left(input, st)
    ensures st.eof ==> Read(input, st).eof
  {
  }

  /** The state right after construction (Scanner.java:56-61); `currentChar` starts as Java's '\0'. */
  function Start(input: string): (st: ScanState)
    ensures Within(input, st)
  {
    Read(input, ScanState(0, '\0', false))
  }

  // ---------------------------------------------------------------------------
  // Reference semantics of the scanning routines

  /** The whitespace loops (Scanner.java:126-129, 154-157). */
  function SkipWhiteSpace(input: string, st: ScanState): (r: ScanState)
    requires Within(input, st)
    ensures Within(input, r) && Left(input, r) <= Left(input, st)
    ensures r.eof || !IsWhiteSpace(r.cur)
    ensures st.eof ==> r == st
    decreases Left(input, st)
  {
    if !st.eof && IsWhiteSpace(st.cur) then
      ReadProgress(input, st);
      SkipWhiteSpace(input, Read(input, st))
    else st
  }

  /** `scanSingleLineComment` (Scanner.java:348-358): through the newline, or to the end. */
  function SkipLineComment(input: string, st: ScanState): (r: ScanState)
    requires Within(input, st)
    ensures Within(input, r) && Left(input, r) <= Left(input, st)
    decreases Left(input, st)
  {
    ReadProgress(input, st);
    if !st.eof && st.cur != '\n' then SkipLineComment(input, Read(input, st))
    else if !st.eof then Read(input, st)
    else st
  }

  /** `scanMultiLineComment` (Scanner.java:366-384): through the first `*` followed by `/`, or to the end. */
  function SkipBlockComment(input: string, st: ScanState): (r: ScanState)
    requires Within(input, st)
    ensures Within(input, r) && Left(input, r) <= Left(input, st)
    decreases Left(input, st)
  {
    if st.eof then st
    else
      ReadProgress(input, st);
      var s1 := Read(input, st);
      if st.cur == '*' then
        ReadProgress(input, s1);
        if s1.cur == '/' then Read(input, s1) else SkipBlockComment(input, s1)
      else SkipBlockComment(input, s1)
  }

  /**
   * The comment loop of `nextToken` (Scanner.java:131-158). It either returns
   * the token `/` or `/=`, or gives back the state after the comments and the
   * whitespace that follows them.
   */
  function SkipComments(input: string, st: ScanState): (r: (Option<string>, ScanState))
    requires Within(input, st)
    ensures Within(input, r.1) && Left(input, r.1) <= Left(input, st)
    ensures r.0.Some? ==> r.0.value in {"/", "/="}
    ensures r.0.None? && !r.1.eof ==> r.1.cur != '/'
    ensures r.0.None? && (st.eof || !IsWhiteSpace(st.cur)) ==> r.1.eof || !IsWhiteSpace(r.1.cur)
    ensures r.0.None? && st.eof ==> r.1 == st
    decreases Left(input, st)
  {
    if !st.eof && st.cur == '/' then
      ReadProgress(input, st);
      var s1 := Read(input, st);
      if s1.cur == '/' then
        ReadProgress(input, s1);
        SkipComments(input, SkipWhiteSpace(input, SkipLineComment(input, Read(input, s1))))
      else if s1.cur == '*' then
        ReadProgress(input, s1);
        SkipComments(input, SkipWhiteSpace(input, SkipBlockComment(input, Read(input, s1))))
      else if s1.cur == '=' then
        ReadProgress(input, s1);
        (Some("/="), Read(input, s1))
      else (Some("/"), s1)
    else (None, st)
  }

  /**
   * The accumulating loop shared by `scanNumber` and the tail of
   * `scanIdentifier`: while `cur` is in the class, append it and read on. The
   * Java loop never tests `eof`; once nothing is left to read it spins forever
   * on the same state, reported here as Diverges.
   */
  function ScanRun(input: string, st: ScanState, acc: string, alnum: bool): (r: (Scan, ScanState))
    requires Within(input, st)
    ensures Within(input, r.1)
    ensures r.0.Token? ==> |r.0.text| >= |acc| && r.0.text[..|acc|] == acc && !InRun(r.1.cur, alnum)
    ensures r.0.Token? ==> forall i :: |acc| <= i < |r.0.text| ==> InRun(r.0.text[i], alnum)
    ensures r.0.Diverges? ==> Stuck(input, r.1) && InRun(r.1.cur, alnum)
    ensures !r.0.LexError?
    ensures Left(input, r.1) <= Left(input, st)
    decreases Left(input, st)
  {
    if InRun(st.cur, alnum) then
      if Stuck(input, st) then (Diverges, st)
      else
        ReadProgress(input, st);
        ScanRun(input, Read(input, st), acc + [st.cur], alnum)
    else (Token(acc), st)
  }

  predicate InRun(c: char, alnum: bool) { IsDigit(c) || (alnum && IsLetter(c)) }

  /** `scanNumber` (Scanner.java:253-266). */
  function ScanNumberF(input: string, st: ScanState): (r: (Scan, ScanState))
    requires Within(input, st)
    ensures Within(input, r.1) && Left(input, r.1) <= Left(input, st)
  {
    var (t, s) := ScanRun(input, st, "", false);
    if t == Token("") then (LexError, s) else (t, s)
  }

  /** `scanIdentifier` (Scanner.java:275-294). */
  function ScanIdentifierF(input: string, st: ScanState): (r: (Scan, ScanState))
    requires Within(input, st)
    ensures Within(input, r.1) && Left(input, r.1) <= Left(input, st)
  {
    if IsLetter(st.cur) then
      ReadProgress(input, st);
      ScanRun(input, Read(input, st), [st.cur], true)
    else (LexError, st)
  }

  /** `scanOperand` (Scanner.java:302-340). */
  function ScanOperandF(input: string, st: ScanState): (r: (Scan, ScanState))
    requires Within(input, st)
    ensures Within(input, r.1) && Left(input, r.1) <= Left(input, st)
  {
    ReadProgress(input, st);
    var c := st.cur;
    if IsSingle(c) then (Token([c]), Read(input, st))
    else if IsCompound(c) then
      var s1 := Read(input, st);
      ReadProgress(input, s1);
      if s1.cur == '=' then (Token([c, s1.cur]), Read(input, s1))
      else if c == '<' && s1.cur == '>' then (Token([c, s1.cur]), Read(input, s1))
      else (Token([c]), s1)
    else (LexError, st)
  }

  /** The state `nextToken` has reached when it looks at `cur` to classify the token. */
  function AfterSkipping(input: string, st: ScanState): (r: (Option<string>, ScanState))
    requires Within(input, st)
    ensures Within(input, r.1)
  {
    SkipComments(input, SkipWhiteSpace(input, st))
  }

  /** `nextToken` (Scanner.java:124-186). */
  function NextTokenF(input: string, st: ScanState): (r: (Scan, ScanState))
    requires Within(input, st)
    ensures Within(input, r.1) && Left(input, r.1) <= Left(input, st)
  {
    var (slash, s) := AfterSkipping(input, st);
    if slash.Some? then (Token(slash.value), s)
    else if s.eof then (Token("END"), s)
    else if IsDigit(s.cur) then ScanNumberF(input, s)
    else if IsLetter(s.cur) then ScanIdentifierF(input, s)
    else if IsOperand(s.cur) then ScanOperandF(input, s)
    else (LexError, s)
  }

  // ---------------------------------------------------------------------------
  // Properties of nextToken

  /** Once the end flag is set, `nextToken` answers "END" and reads nothing, so it keeps answering "END". */
  lemma EndIsSticky(input: string, st: ScanState)
    requires Within(input, st) && st.eof
    ensures NextTokenF(input, st) == (Token("END"), st)
  {
  }

  /** A call made before the end flag is set has consumed input when it returns a token. */
  lemma {:induction false} TokenConsumes(input: string, st: ScanState)
    requires Within(input, st) && !st.eof
    ensures NextTokenF(input, st).0.Token? ==> Left(input, NextTokenF(input, st).1) < Left(input, st)
  {
    var s0 := SkipWhiteSpace(input, st);
    var (slash, s) := AfterSkipping(input, st);
    var r := NextTokenF(input, st);
    if r.0.Token? && Left(input, s) == Left(input, st) {
      // Nothing was skipped: the token itself must have consumed something.
      assert s0 == st by { SkipWhiteStrict(input, st); }
      SkipCommentsStrict(input, s0);
      assert slash.None? && s == st;
      ReadProgress(input, st);
      if IsDigit(s.cur) {
        var (t, s') := ScanRun(input, s, "", false);
        assert t != Token("");
        ScanRunStrict(input, s, "", false);
      } else if IsLetter(s.cur) {
        ScanRunMono(input, Read(input, s), [s.cur], true);
      } else {
        assert IsOperand(s.cur);
        ReadProgress(input, Read(input, s));
      }
    }
  }

  lemma {:induction false} SkipWhiteStrict(input: string, st: ScanState)
    requires Within(input, st)
    ensures SkipWhiteSpace(input, st) == st || Left(input, SkipWhiteSpace(input, st)) < Left(input, st)
    decreases Left(input, st)
  {
    if !st.eof && IsWhiteSpace(st.cur) {
      ReadProgress(input, st);
    }
  }

  lemma SkipCommentsStrict(input: string, st: ScanState)
    requires Within(input, st)
    ensures SkipComments(input, st).0.None? ==> SkipComments(input, st).1 == st || Left(input, SkipComments(input, st).1) < Left(input, st)
    ensures SkipComments(input, st).0.Some? ==> Left(input, SkipComments(input, st).1) < Left(input, st)
  {
    if !st.eof && st.cur == '/' {
      ReadProgress(input, st);
    }
  }

  lemma ScanRunStrict(input: string, st: ScanState, acc: string, alnum: bool)
    requires Within(input, st)
    ensures var r := ScanRun(input, st, acc, alnum);
            r.0.Token? && |r.0.text| > |acc| ==> Left(input, r.1) < Left(input, st)
  {
    if InRun(st.cur, alnum) && !Stuck(input, st) {
      ReadProgress(input, st);
      ScanRunMono(input, Read(input, st), acc + [st.cur], alnum);
    }
  }

  lemma ScanRunMono(input: string, st: ScanState, acc: string, alnum: bool)
    requires Within(input, st)
    ensures Left(input, ScanRun(input, st, acc, alnum).1) <= Left(input, st)
  {
  }

  /** A number token is a non-empty run of digits, and the lookahead after it is not a digit. */
  lemma NumberTokenIsMaximal(input: string, st: ScanState)
    requires Within(input, st)
    requires !AfterSkipping(input, st).1.eof && AfterSkipping(input, st).0.None?
    requires IsDigit(AfterSkipping(input, st).1.cur)
    ensures var r := NextTokenF(input, st);
            r.0.Token? ==> |r.0.text| > 0 && (forall i :: 0 <= i < |r.0.text| ==> IsDigit(r.0.text[i])) && !IsDigit(r.1.cur)
    ensures NextTokenF(input, st).0 != LexError
  {
    var s := AfterSkipping(input, st).1;
    CharClassesDisjoint(s.cur);
    var (t, s') := ScanRun(input, s, "", false);
    assert t.Token? ==> |t.text| > 0 by {
      if t.Token? {
        assert InRun(s.cur, false);
        assert !Stuck(input, s);
        assert "" + [s.cur] == [s.cur];
        ScanRunStrict(input, s, "", false);
      }
    }
  }

  /** An identifier token is a letter followed by letters and digits, and the lookahead after it is neither. */
  lemma IdentifierTokenIsMaximal(input: string, st: ScanState)
    requires Within(input, st)
    requires !AfterSkipping(input, st).1.eof && AfterSkipping(input, st).0.None?
    requires IsLetter(AfterSkipping(input, st).1.cur)
    ensures var r := NextTokenF(input, st);
            r.0.Token? ==> |r.0.text| > 0 && IsLetter(r.0.text[0])
                           && (forall i :: 1 <= i < |r.0.text| ==> IsLetter(r.0.text[i]) || IsDigit(r.0.text[i]))
                           && !IsLetter(r.1.cur) && !IsDigit(r.1.cur)
    ensures NextTokenF(input, st).0 != LexError
  {
    var s := AfterSkipping(input, st).1;
    CharClassesDisjoint(s.cur);
  }

  /** The tokens `scanOperand` can produce: the single characters, and a compound character possibly followed by `=` (or `<>`). */
  predicate IsOperatorToken(t: string)
  {
    || (|t| == 1 && IsOperand(t[0]))
    || (|t| == 2 && IsCompound(t[0]) && t[1] == '=')
    || t == "<>"
  }

  lemma OperatorToken(input: string, st: ScanState)
    requires Within(input, st)
    requires !AfterSkipping(input, st).1.eof && AfterSkipping(input, st).0.None?
    requires IsOperand(AfterSkipping(input, st).1.cur)
    ensures var s := AfterSkipping(input, st).1;
            var r := NextTokenF(input, st);
            && r.0.Token? && IsOperatorToken(r.0.text) && r.0.text[0] == s.cur
            && (IsSingle(s.cur) ==> r.0.text == [s.cur])
            && (IsCompound(s.cur) && Read(input, s).cur == '=' ==> r.0.text == [s.cur, '='])
            && (IsCompound(s.cur) && Read(input, s).cur != '=' && !(s.cur == '<' && Read(input, s).cur == '>') ==> r.0.text == [s.cur])
            && (s.cur == '<' && Read(input, s).cur == '>' ==> r.0.text == "<>")
  {
    var s := AfterSkipping(input, st).1;
    CharClassesDisjoint(s.cur);
  }

  /**
   * A scan error happens exactly when, after whitespace and comments, the
   * lookahead is none of: a digit, a letter, an operator character.
   */
  lemma LexErrorExactly(input: string, st: ScanState)
    requires Within(input, st)
    ensures var (slash, s) := AfterSkipping(input, st);
            NextTokenF(input, st).0 == LexError <==>
              slash.None? && !s.eof && !IsDigit(s.cur) && !IsLetter(s.cur) && !IsOperand(s.cur)
    ensures var (slash, s) := AfterSkipping(input, st);
            NextTokenF(input, st).0 == LexError ==> !IsWhiteSpace(s.cur) && s.cur != '/'
  {
    var (slash, s) := AfterSkipping(input, st);
    CharClassesDisjoint(s.cur);
    if slash.None? && !s.eof && IsDigit(s.cur) {
      NumberTokenIsMaximal(input, st);
    }
    if slash.None? && !s.eof && IsLetter(s.cur) {
      IdentifierTokenIsMaximal(input, st);
    }
  }

  /** When `nextToken` is reported to diverge, the Java loop really does spin: the state is a fixed point of reading and the loop guard holds. */
  lemma DivergesIsGenuine(input: string, st: ScanState)
    requires Within(input, st)
    ensures var r := NextTokenF(input, st);
            r.0 == Diverges ==> Stuck(input, r.1) && Read(input, r.1) == r.1 && (IsDigit(r.1.cur) || IsLetter(r.1.cur))
  {
    var r := NextTokenF(input, st);
    ReadProgress(input, r.1);
  }

  // ---------------------------------------------------------------------------
  // Concrete consequences of the stale lookahead

  /** A lone `=` right before the terminator is read twice: the token is "==". */
  lemma EqualsBeforeTerminator()
    ensures NextTokenF("=.", Start("=.")).0 == Token("==")
  {
  }

  /** A digit run broken by the terminator repeats its last digit and goes on reading after it. */
  lemma DigitsAcrossTerminator()
    ensures NextTokenF("12.3;", Start("12.3;")).0 == Token("1223")
  {
  }

  /** A digit directly before the terminator, with nothing after it, makes the digit loop spin. */
  lemma DigitBeforeTerminatorDiverges()
    ensures NextTokenF("7.", Start("7.")).0 == Diverges
  {
  }

  // ---------------------------------------------------------------------------
  // The imperative scanner

  class Scanner {
    const input: string
    var pos: nat
    var currentChar: char
    var eof: bool

    ghost predicate Valid()
      reads this
    {
      pos <= |input|
    }

    function State(): ScanState
      reads this
    {
      ScanState(pos, currentChar, eof)
    }

    /** `Scanner(String)` (Scanner.java:56-61). */
    constructor (inString: string)
      ensures Valid() && input == inString && State() == Start(inString)
    {
      input := inString;
      pos := 0;
      currentChar := '\0';
      eof := false;
      new;
      GetNextChar();
    }

    /** Scanner.java:68-83. */
    method GetNextChar()
      requires Valid()
      modifies this
      ensures Valid() && State() == Read(input, old(State()))
    {
      if pos == |input| {
        eof := true;
      } else {
        var inp := input[pos];
        pos := pos + 1;
        if inp == '.' {
          eof := true;
        } else {
          currentChar := inp;
        }
      }
    }

    /** Scanner.java:91-103: reads on when the lookahead is the expected character, otherwise reports a scan error. */
    method Eat(expected: char) returns (ok: bool)
      requires Valid()
      modifies this
      ensures Valid() && ok == (expected == old(currentChar))
      ensures State() == if ok then Read(input, old(State())) else old(State())
    {
      ok := expected == currentChar;
      if ok {
        GetNextChar();
      }
    }

    /** Scanner.java:111-114. */
    predicate HasNext()
      reads this
    {
      !eof
    }

    method SkipWhiteSpaceLoop()
      requires Valid()
      modifies this
      ensures Valid() && State() == SkipWhiteSpace(input, old(State()))
    {
      while HasNext() && IsWhiteSpace(currentChar)
        invariant Valid()
        invariant SkipWhiteSpace(input, State()) == SkipWhiteSpace(input, old(State()))
        decreases Left(input, State())
      {
        ReadProgress(input, State());
        var ok := Eat(currentChar);
      }
    }

    /** Scanner.java:348-358. */
    method ScanSingleLineComment()
      requires Valid()
      modifies this
      ensures Valid() && State() == SkipLineComment(input, old(State()))
    {
      while HasNext() && currentChar != '\n'
        invariant Valid()
        invariant SkipLineComment(input, State()) == SkipLineComment(input, old(State()))
        decreases Left(input, State())
      {
        ReadProgress(input, State());
        var ok := Eat(currentChar);
      }
      if HasNext() {
        var ok := Eat(currentChar);
      }
    }

    /** Scanner.java:366-384. */
    method ScanMultiLineComment()
      requires Valid()
      modifies this
      ensures Valid() && State() == SkipBlockComment(input, old(State()))
    {
      while HasNext()
        invariant Valid()
        invariant SkipBlockComment(input, State()) == SkipBlockComment(input, old(State()))
        decreases Left(input, State())
      {
        ReadProgress(input, State());
        if currentChar == '*' {
          var ok := Eat(currentChar);
          if currentChar == '/' {
            ok := Eat(currentChar);
            return;
          }
        } else {
          var ok := Eat(currentChar);
        }
      }
    }

    /** The accumulating loop of Scanner.java:256-260 and 288-292; stops with Diverges where the Java loop would spin. */
    method ScanRunLoop(prefix: string, alnum: bool) returns (r: Scan)
      requires Valid()
      modifies this
      ensures Valid() && (r, State()) == ScanRun(input, old(State()), prefix, alnum)
    {
      var s := prefix;
      while InRun(currentChar, alnum)
        invariant Valid()
        invariant ScanRun(input, State(), s, alnum) == ScanRun(input, old(State()), prefix, alnum)
        decreases Left(input, State())
      {
        if Stuck(input, State()) {
          return Diverges;
        }
        ReadProgress(input, State());
        s := s + [currentChar];
        var ok := Eat(currentChar);
      }
      r := Token(s);
    }

    /** Scanner.java:253-266. */
    method ScanNumber() returns (r: Scan)
      requires Valid()
      modifies this
      ensures Valid() && (r, State()) == ScanNumberF(input, old(State()))
    {
      r := ScanRunLoop("", false);
      if r == Token("") {
        r := LexError;
      }
    }

    /** Scanner.java:275-294. */
    method ScanIdentifier() returns (r: Scan)
      requires Valid()
      modifies this
      ensures Valid() && (r, State()) == ScanIdentifierF(input, old(State()))
    {
      if IsLetter(currentChar) {
        var s := [currentChar];
        var ok := Eat(currentChar);
        r := ScanRunLoop(s, true);
      } else {
        r := LexError;
      }
    }

    /** Scanner.java:302-340. */
    method ScanOperand() returns (r: Scan)
      requires Valid()
      modifies this
      ensures Valid() && (r, State()) == ScanOperandF(input, old(State()))
    {
      var c := currentChar;
      if IsSingle(c) {
        var ok := Eat(currentChar);
        return Token([c]);
      }
      if IsCompound(c) {
        var s := [c];
        var ok := Eat(currentChar);
        if currentChar == '=' {
          s := [c, currentChar];
          ok := Eat(currentChar);
        } else if c == '<' && currentChar == '>' {
          s := [c, currentChar];
          ok := Eat(currentChar);
        }
        return Token(s);
      }
      r := LexError;
    }

    /** Scanner.java:124-186. */
    method NextToken() returns (r: Scan)
      requires Valid()
      modifies this
      ensures Valid() && (r, State()) == NextTokenF(input, old(State()))
    {
      SkipWhiteSpaceLoop();
      ghost var afterWhite := State();
      while HasNext() && currentChar == '/'
        invariant Valid()
        invariant SkipComments(input, State()) == SkipComments(input, afterWhite)
        decreases Left(input, State())
      {
        ReadProgress(input, State());
        var ok := Eat(currentChar);
        ReadProgress(input, State());
        if currentChar == '/' {
          ok := Eat(currentChar);
          ScanSingleLineComment();
        } else if currentChar == '*' {
          ok := Eat(currentChar);
          ScanMultiLineComment();
        } else if currentChar == '=' {
          ok := Eat(currentChar);
          return Token("/=");
        } else {
          return Token("/");
        }
        SkipWhiteSpaceLoop();
      }
      if !HasNext() {
        return Token("END");
      }
      if IsDigit(currentChar) {
        r := ScanNumber();
        return;
      }
      if IsLetter(currentChar) {
        r := ScanIdentifier();
        return;
      }
      if IsOperand(currentChar) {
        r := ScanOperand();
        return;
      }
      r := LexError;
    }
  }

  // ---------------------------------------------------------------------------
  // The token stream the parser pulls from

  /** How the stream of tokens ends: "END" for ever, or the failure met when the next token is requested. */
  datatype StreamEnd = EndForever | FailsWith(failure: Scan)

  datatype TokenStream = TokenStream(tokens: seq<string>, end: StreamEnd)

  /**
   * The tokens successive `nextToken` calls return, up to the first call made
   * with the end flag set (from then on every call answers "END"), or up to a
   * failing call.
   */
  function TokenizeFrom(input: string, st: ScanState, acc: seq<string>): (ts: TokenStream)
    requires Within(input, st)
    decreases Left(input, st)
  {
    if st.eof then TokenStream(acc, EndForever)
    else
      var (t, s) := NextTokenF(input, st);
      if t.Token? then
        TokenConsumes(input, st);
        TokenizeFrom(input, s, acc + [t.text])
      else TokenStream(acc, FailsWith(t))
  }

  function Tokenize(input: string): TokenStream
  {
    TokenizeFrom(input, Start(input), [])
  }

  /** The accumulator only prefixes what is scanned from `st` onward. */
  lemma {:induction false} TokenizePrefix(input: string, st: ScanState, acc: seq<string>)
    requires Within(input, st)
    ensures TokenizeFrom(input, st, acc) == TokenStream(acc + TokenizeFrom(input, st, []).tokens, TokenizeFrom(input, st, []).end)
    decreases Left(input, st)
  {
    if !st.eof {
      var (t, s) := NextTokenF(input, st);
      if t.Token? {
        TokenConsumes(input, st);
        assert TokenizeFrom(input, st, acc) == TokenizeFrom(input, s, acc + [t.text]);
        assert TokenizeFrom(input, st, []) == TokenizeFrom(input, s, [] + [t.text]);
        assert [] + [t.text] == [t.text];
        TokenizePrefix(input, s, acc + [t.text]);
        TokenizePrefix(input, s, [t.text]);
        assert acc + [t.text] + TokenizeFrom(input, s, []).tokens == acc + ([t.text] + TokenizeFrom(input, s, []).tokens);
      }
    }
  }

  /**
   * The token stream lists exactly what successive `nextToken` calls return:
   * one call from `st` yields the first token of the stream scanned from `st`
   * and leaves a state whose stream is the rest; a failing call is the
   * stream's failure; a call with the end flag set answers "END" and changes
   * nothing, and there the stream has no tokens left and ends in "END".
   */
  lemma NextTokenAgrees(input: string, st: ScanState)
    requires Within(input, st)
    ensures st.eof ==> TokenizeFrom(input, st, []) == TokenStream([], EndForever) && NextTokenF(input, st) == (Token("END"), st)
    ensures !st.eof && NextTokenF(input, st).0.Token? ==>
              var rest := TokenizeFrom(input, st, []);
              |rest.tokens| > 0 && rest.tokens[0] == NextTokenF(input, st).0.text
              && TokenizeFrom(input, NextTokenF(input, st).1, []) == TokenStream(rest.tokens[1..], rest.end)
    ensures !st.eof && !NextTokenF(input, st).0.Token? ==>
              TokenizeFrom(input, st, []) == TokenStream([], FailsWith(NextTokenF(input, st).0))
  {
    if !st.eof {
      var r := NextTokenF(input, st);
      if r.0.Token? {
        TokenConsumes(input, st);
        assert TokenizeFrom(input, st, []) == TokenizeFrom(input, r.1, [] + [r.0.text]);
        TokenizePrefix(input, r.1, [] + [r.0.text]);
      }
    }
  }

  /** Every scanned token is non-empty, so the parser's `charAt(0)` never fails on one. */
  lemma {:induction false} TokensNonEmpty(input: string, st: ScanState, acc: seq<string>)
    requires Within(input, st)
    requires forall i :: 0 <= i < |acc| ==> acc[i] != ""
    ensures var ts := TokenizeFrom(input, st, acc);
            forall i :: 0 <= i < |ts.tokens| ==> ts.tokens[i] != ""
    decreases Left(input, st)
  {
    if !st.eof {
      var (t, s) := NextTokenF(input, st);
      if t.Token? {
        TokenConsumes(input, st);
        TokenNonEmpty(input, st);
        assert TokenizeFrom(input, st, acc) == TokenizeFrom(input, s, acc + [t.text]);
        TokensNonEmpty(input, s, acc + [t.text]);
      }
    }
  }

  lemma TokenNonEmpty(input: string, st: ScanState)
    requires Within(input, st)
    ensures NextTokenF(input, st).0.Token? ==> NextTokenF(input, st).0.text != ""
  {
    var (slash, s) := AfterSkipping(input, st);
    if slash.None? && !s.eof && IsDigit(s.cur) {
      NumberTokenIsMaximal(input, st);
    }
    if slash.None? && !s.eof && IsLetter(s.cur) {
      IdentifierTokenIsMaximal(input, st);
    }
  }

  /** The scanner loop that builds the token stream, pulling tokens one `NextToken` call at a time. */
  method TokenizeLoop(sc: Scanner) returns (ts: TokenStream)
    requires sc.Valid()
    modifies sc
    ensures ts == TokenizeFrom(sc.input, old(sc.State()), [])
  {
    var acc: seq<string> := [];
    while sc.HasNext()
      invariant sc.Valid()
      invariant TokenizeFrom(sc.input, sc.State(), acc) == TokenizeFrom(sc.input, old(sc.State()), [])
      decreases Left(sc.input, sc.State())
    {
      ghost var before := sc.State();
      TokenConsumes(sc.input, before);
      var t := sc.NextToken();
      if !t.Token? {
        return TokenStream(acc, FailsWith(t));
      }
      acc := acc + [t.text];
    }
    ts := TokenStream(acc, EndForever);
  }

  datatype Option<T> = None | Some(value: T)
}
