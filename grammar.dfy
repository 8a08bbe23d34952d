/**
 * Reference semantics of the recursive-descent parser of
 * src/parser/Parser.java, as functions of a token stream and a position.
 *
 * The Java parser holds one token of lookahead, `currentToken`, and pulls the
 * next one from the scanner whenever it eats. Here the scanner's output is a
 * `TokenStream`: the tokens it produces, then either "END" for ever or the
 * failure met on the next request. Position `pos` means `currentToken` is the
 * `pos`-th token; position `|tokens|` is only reachable when the stream ends
 * in "END" for ever.
 *
 * Every routine returns the value it builds and the position after it, or the
 * error that ends the parse. On an error the Java program throws or exits, so
 * the position reached does not matter.
 */
module Grammar {
  import opened JavaInt
  import opened Ast
  import Scanner

  datatype ParseError =
    /** `eat` found another token: IllegalArgumentException (Parser.java:85-88). */
    | Mismatch(expected: string, found: string)
    /** The next token could not be scanned: the scanner exits or never returns (Scanner.java:180-185). */
    | ScanFailed(failure: Scanner.Scan)
    /** `Integer.parseInt` rejected the token: NumberFormatException (Parser.java:104). */
    | BadNumber(token: string)
    /** `charAt(0)` on an empty token (Parser.java:270). */
    | EmptyToken
    /**
     * A name or argument loop at the "END" that repeats for ever: it keeps
     * adding entries without consuming input, until memory runs out
     * (Parser.java:139-148, 159-167, 276-283).
     */
    | EndlessList

  datatype PResult<T> = POk(value: T, next: nat) | PErr(error: ParseError)

  function Fail<A, B>(r: PResult<A>): PResult<B>
    requires r.PErr?
  {
    PErr(r.error)
  }

  /** Positions the parser can stand on. */
  predicate Avail(ts: Scanner.TokenStream, pos: nat)
  {
    pos < |ts.tokens| || (pos == |ts.tokens| && ts.end.EndForever?)
  }

  /** `currentToken` at position `pos`. */
  function Cur(ts: Scanner.TokenStream, pos: nat): string
    requires Avail(ts, pos)
  {
    if pos < |ts.tokens| then ts.tokens[pos] else "END"
  }

  /** `currentToken = sc.nextToken()` (Parser.java:82). */
  function Advance(ts: Scanner.TokenStream, pos: nat): (r: PResult<()>)
    requires Avail(ts, pos)
    ensures r.POk? ==> Avail(ts, r.next) && r.next == if pos < |ts.tokens| then pos + 1 else pos
    ensures r.PErr? ==> pos == |ts.tokens| - 1 && ts.end.FailsWith? && r.error == ScanFailed(ts.end.failure)
  {
    if pos == |ts.tokens| then POk((), pos)
    else if pos + 1 < |ts.tokens| || ts.end.EndForever? then POk((), pos + 1)
    else PErr(ScanFailed(ts.end.failure))
  }

  /** `eat` (Parser.java:77-94). */
  function Eat(ts: Scanner.TokenStream, pos: nat, token: string): (r: PResult<()>)
    requires Avail(ts, pos)
    ensures r.POk? ==> Avail(ts, r.next) && r.next == if pos < |ts.tokens| then pos + 1 else pos
  {
    if token == Cur(ts, pos) then Advance(ts, pos) else PErr(Mismatch(token, Cur(ts, pos)))
  }

  /** `eat` fails exactly on a token other than the one expected, and reports both. */
  lemma EatMismatch(ts: Scanner.TokenStream, pos: nat, token: string)
    requires Avail(ts, pos)
    ensures token != Cur(ts, pos) <==> Eat(ts, pos, token) == PErr(Mismatch(token, Cur(ts, pos)))
    ensures token == Cur(ts, pos) ==> Eat(ts, pos, token) == Advance(ts, pos)
  { }

  /** What the expression routines promise about the position they return. */
  predicate Progress(ts: Scanner.TokenStream, pos: nat, next: nat)
  {
    pos <= next && Avail(ts, next) && (pos < |ts.tokens| ==> pos < next)
  }

  /** `parseNumber` (Parser.java:102-107). */
  function ParseNumber(ts: Scanner.TokenStream, pos: nat): (r: PResult<Expr>)
    requires Avail(ts, pos)
    ensures r.POk? ==> Progress(ts, pos, r.next) && pos < |ts.tokens|
  {
    var t := Cur(ts, pos);
    match ParseInt(t)
    case None => PErr(BadNumber(t))
    case Some(n) =>
      var r1 := Eat(ts, pos, t);
      if r1.PErr? then Fail(r1) else POk(Number(n), r1.next)
  }

  /** A number is the value `Integer.parseInt` gives the token; a token it rejects is an error. */
  lemma NumberValue(ts: Scanner.TokenStream, pos: nat)
    requires Avail(ts, pos)
    ensures var r := ParseNumber(ts, pos);
      && (r.POk? ==> r.value.Number? && ParseInt(Cur(ts, pos)) == Some(r.value.value))
      && (ParseInt(Cur(ts, pos)).None? ==> r == PErr(BadNumber(Cur(ts, pos))))
  { }

  /** `parseFactor` (Parser.java:256-298). */
  function ParseFactor(ts: Scanner.TokenStream, pos: nat): (r: PResult<Expr>)
    requires Avail(ts, pos)
    ensures r.POk? ==> Progress(ts, pos, r.next)
    decreases |ts.tokens| - pos, 0
  {
    var t := Cur(ts, pos);
    if t == "(" then
      var r1 := Eat(ts, pos, "(");
      if r1.PErr? then Fail(r1) else
      var r2 := ParseExpression(ts, r1.next);
      if r2.PErr? then Fail(r2) else
      var r3 := Eat(ts, r2.next, ")");
      if r3.PErr? then Fail(r3) else POk(r2.value, r3.next)
    else if t == "-" then
      var r1 := Eat(ts, pos, "-");
      if r1.PErr? then Fail(r1) else
      var r2 := ParseFactor(ts, r1.next);
      if r2.PErr? then Fail(r2) else POk(BinOp("-", Number(0), r2.value), r2.next)
    else if t == "" then PErr(EmptyToken)
    else if Scanner.IsLetter(t[0]) then
      var r1 := Eat(ts, pos, t);
      if r1.PErr? then Fail(r1)
      else if Cur(ts, r1.next) == "(" then
        var r2 := Eat(ts, r1.next, "(");
        if r2.PErr? then Fail(r2) else
        var r3 := ParseArgs(ts, r2.next, []);
        if r3.PErr? then Fail(r3) else
        var r4 := Eat(ts, r3.next, ")");
        if r4.PErr? then Fail(r4) else POk(ProcedureCall(t, r3.value), r4.next)
      else POk(Variable(t), r1.next)
    else ParseNumber(ts, pos)
  }

  /** The argument loop of `parseFactor` (Parser.java:276-286); commas between arguments are optional. */
  function ParseArgs(ts: Scanner.TokenStream, pos: nat, acc: seq<Expr>): (r: PResult<seq<Expr>>)
    requires Avail(ts, pos)
    ensures r.POk? ==> pos <= r.next && Avail(ts, r.next) && Cur(ts, r.next) == ")"
    decreases |ts.tokens| - pos, 5
  {
    if Cur(ts, pos) == ")" then POk(acc, pos)
    else if pos == |ts.tokens| then PErr(EndlessList)
    else
      var r1 := ParseExpression(ts, pos);
      if r1.PErr? then Fail(r1) else
      var r2 := if Cur(ts, r1.next) == "," then Eat(ts, r1.next, ",") else POk((), r1.next);
      if r2.PErr? then Fail(r2) else ParseArgs(ts, r2.next, acc + [r1.value])
  }

  /** `parseTerm` (Parser.java:305-309). */
  function ParseTerm(ts: Scanner.TokenStream, pos: nat): (r: PResult<Expr>)
    requires Avail(ts, pos)
    ensures r.POk? ==> Progress(ts, pos, r.next)
    decreases |ts.tokens| - pos, 2
  {
    var r1 := ParseFactor(ts, pos);
    if r1.PErr? then Fail(r1) else ParseWhileTerm(ts, r1.next, r1.value)
  }

  /** `parseWhileTerm` (Parser.java:317-332): folds `* factor` and `/ factor` onto the left operand. */
  function ParseWhileTerm(ts: Scanner.TokenStream, pos: nat, factor: Expr): (r: PResult<Expr>)
    requires Avail(ts, pos)
    ensures r.POk? ==> pos <= r.next && Avail(ts, r.next)
    decreases |ts.tokens| - pos, 1
  {
    var t := Cur(ts, pos);
    if t == "*" || t == "/" then
      var r1 := Eat(ts, pos, t);
      if r1.PErr? then Fail(r1) else
      var r2 := ParseFactor(ts, r1.next);
      if r2.PErr? then Fail(r2) else ParseWhileTerm(ts, r2.next, BinOp(t, factor, r2.value))
    else POk(factor, pos)
  }

  /** `parseExpression` (Parser.java:339-343). */
  function ParseExpression(ts: Scanner.TokenStream, pos: nat): (r: PResult<Expr>)
    requires Avail(ts, pos)
    ensures r.POk? ==> Progress(ts, pos, r.next)
    decreases |ts.tokens| - pos, 4
  {
    var r1 := ParseTerm(ts, pos);
    if r1.PErr? then Fail(r1) else ParseWhileExpression(ts, r1.next, r1.value)
  }

  /** `parseWhileExpression` (Parser.java:351-366): folds `+ term` and `- term` onto the left operand. */
  function ParseWhileExpression(ts: Scanner.TokenStream, pos: nat, term: Expr): (r: PResult<Expr>)
    requires Avail(ts, pos)
    ensures r.POk? ==> pos <= r.next && Avail(ts, r.next)
    decreases |ts.tokens| - pos, 3
  {
    var t := Cur(ts, pos);
    if t == "+" || t == "-" then
      var r1 := Eat(ts, pos, t);
      if r1.PErr? then Fail(r1) else
      var r2 := ParseTerm(ts, r1.next);
      if r2.PErr? then Fail(r2) else ParseWhileExpression(ts, r2.next, BinOp(t, term, r2.value))
    else POk(term, pos)
  }

  /** `parseCondition` (Parser.java:115-122): whatever token follows the first expression is the relational operator. */
  function ParseCondition(ts: Scanner.TokenStream, pos: nat): (r: PResult<Condition>)
    requires Avail(ts, pos)
    ensures r.POk? ==> pos <= r.next && Avail(ts, r.next)
    decreases |ts.tokens| - pos, 5
  {
    var r1 := ParseExpression(ts, pos);
    if r1.PErr? then Fail(r1) else
    var relop := Cur(ts, r1.next);
    var r2 := Eat(ts, r1.next, relop);
    if r2.PErr? then Fail(r2) else
    var r3 := ParseExpression(ts, r2.next);
    if r3.PErr? then Fail(r3) else POk(Condition(r1.value, relop, r3.value), r3.next)
  }

  /** `parseStatement` (Parser.java:182-227). */
  function ParseStatement(ts: Scanner.TokenStream, pos: nat): (r: PResult<Stmt>)
    requires Avail(ts, pos)
    ensures r.POk? ==> pos < r.next && Avail(ts, r.next)
    decreases |ts.tokens| - pos, 6
  {
    var t := Cur(ts, pos);
    if t == "WRITELN" then ParseWriteln(ts, pos)
    else if t == "BEGIN" then
      var r1 := Eat(ts, pos, "BEGIN");
      if r1.PErr? then Fail(r1) else
      var r2 := ParseWhileBegin(ts, r1.next, []);
      if r2.PErr? then Fail(r2) else POk(Block(r2.value), r2.next)
    else if t == "IF" || t == "WHILE" then
      var r1 := Eat(ts, pos, t);
      if r1.PErr? then Fail(r1) else
      var r2 := ParseCondition(ts, r1.next);
      if r2.PErr? then Fail(r2) else
      var r3 := Eat(ts, r2.next, if t == "IF" then "THEN" else "DO");
      if r3.PErr? then Fail(r3) else
      var r4 := ParseStatement(ts, r3.next);
      if r4.PErr? then Fail(r4)
      else if t == "IF" then POk(If(r2.value, r4.value), r4.next)
      else POk(While(r2.value, r4.value), r4.next)
    else ParseAssignment(ts, pos)
  }

  /** Parser.java:184-193: `WRITELN ( expression ) ;`. */
  function ParseWriteln(ts: Scanner.TokenStream, pos: nat): (r: PResult<Stmt>)
    requires Avail(ts, pos)
    ensures r.POk? ==> pos < r.next && Avail(ts, r.next)
    decreases |ts.tokens| - pos, 5
  {
    var r1 := Eat(ts, pos, "WRITELN");
    if r1.PErr? then Fail(r1) else
    var r2 := Eat(ts, r1.next, "(");
    if r2.PErr? then Fail(r2) else
    var r3 := ParseExpression(ts, r2.next);
    if r3.PErr? then Fail(r3) else
    var r4 := Eat(ts, r3.next, ")");
    if r4.PErr? then Fail(r4) else
    var r5 := Eat(ts, r4.next, ";");
    if r5.PErr? then Fail(r5) else POk(Writeln(r3.value), r5.next)
  }

  /** Parser.java:218-226: the current token, `:=`, an expression, `;`. */
  function ParseAssignment(ts: Scanner.TokenStream, pos: nat): (r: PResult<Stmt>)
    requires Avail(ts, pos)
    ensures r.POk? ==> pos < r.next && Avail(ts, r.next)
    decreases |ts.tokens| - pos, 5
  {
    var t := Cur(ts, pos);
    var r1 := Eat(ts, pos, t);
    if r1.PErr? then Fail(r1) else
    var r2 := Eat(ts, r1.next, ":=");
    if r2.PErr? then Fail(r2) else
    var r3 := ParseExpression(ts, r2.next);
    if r3.PErr? then Fail(r3) else
    var r4 := Eat(ts, r3.next, ";");
    if r4.PErr? then Fail(r4) else POk(Assignment(t, r3.value), r4.next)
  }

  /** `parseWhileBegin` (Parser.java:235-247): statements up to `END ;`, appended to the list passed in. */
  function ParseWhileBegin(ts: Scanner.TokenStream, pos: nat, statements: seq<Stmt>): (r: PResult<seq<Stmt>>)
    requires Avail(ts, pos)
    ensures r.POk? ==> pos < r.next && Avail(ts, r.next)
    decreases |ts.tokens| - pos, 7
  {
    if Cur(ts, pos) == "END" then
      var r1 := Eat(ts, pos, "END");
      if r1.PErr? then Fail(r1) else
      var r2 := Eat(ts, r1.next, ";");
      if r2.PErr? then Fail(r2) else POk(statements, r2.next)
    else
      var r1 := ParseStatement(ts, pos);
      if r1.PErr? then Fail(r1) else ParseWhileBegin(ts, r1.next, statements + [r1.value])
  }

  /**
   * The name loops of `parseProgram` (Parser.java:139-148 for VAR, 159-167 for
   * parameters): every token up to `close` is a name, each optionally
   * followed by a comma.
   */
  function ParseNames(ts: Scanner.TokenStream, pos: nat, close: string, names: seq<string>): (r: PResult<seq<string>>)
    requires Avail(ts, pos)
    ensures r.POk? ==> pos <= r.next && Avail(ts, r.next) && Cur(ts, r.next) == close
    decreases |ts.tokens| - pos
  {
    var t := Cur(ts, pos);
    if t == close then POk(names, pos)
    else if pos == |ts.tokens| then PErr(EndlessList)
    else
      var r1 := Eat(ts, pos, t);
      if r1.PErr? then Fail(r1) else
      var r2 := if Cur(ts, r1.next) == "," then Eat(ts, r1.next, ",") else POk((), r1.next);
      if r2.PErr? then Fail(r2) else ParseNames(ts, r2.next, close, names + [t])
  }

  /** The `VAR` loop of `parseProgram` (Parser.java:136-150): all groups feed one list. */
  function ParseVars(ts: Scanner.TokenStream, pos: nat, variables: seq<string>): (r: PResult<seq<string>>)
    requires Avail(ts, pos)
    ensures r.POk? ==> pos <= r.next && Avail(ts, r.next) && Cur(ts, r.next) != "VAR"
    decreases |ts.tokens| - pos
  {
    if Cur(ts, pos) == "VAR" then
      var r1 := Eat(ts, pos, "VAR");
      if r1.PErr? then Fail(r1) else
      var r2 := ParseNames(ts, r1.next, ";", variables);
      if r2.PErr? then Fail(r2) else
      var r3 := Eat(ts, r2.next, ";");
      if r3.PErr? then Fail(r3) else ParseVars(ts, r3.next, r2.value)
    else POk(variables, pos)
  }

  /** The `PROCEDURE` loop of `parseProgram` (Parser.java:151-171). */
  function ParseProcedures(ts: Scanner.TokenStream, pos: nat, procedures: seq<ProcedureDeclaration>): (r: PResult<seq<ProcedureDeclaration>>)
    requires Avail(ts, pos)
    ensures r.POk? ==> pos <= r.next && Avail(ts, r.next) && Cur(ts, r.next) != "PROCEDURE"
    decreases |ts.tokens| - pos
  {
    if Cur(ts, pos) == "PROCEDURE" then
      var r1 := ParseProcedureDeclaration(ts, pos);
      if r1.PErr? then Fail(r1) else ParseProcedures(ts, r1.next, procedures + [r1.value])
    else POk(procedures, pos)
  }

  /** One pass of that loop (Parser.java:153-170): a header and exactly one body statement. */
  function ParseProcedureDeclaration(ts: Scanner.TokenStream, pos: nat): (r: PResult<ProcedureDeclaration>)
    requires Avail(ts, pos) && Cur(ts, pos) == "PROCEDURE"
    ensures r.POk? ==> pos < r.next && Avail(ts, r.next)
  {
    var r1 := ParseProcedureHeader(ts, pos);
    if r1.PErr? then Fail(r1) else
    var r2 := ParseStatement(ts, r1.next);
    if r2.PErr? then Fail(r2) else POk(ProcedureDeclaration(r1.value.0, r1.value.1, r2.value), r2.next)
  }

  /** `PROCEDURE id ( names ) ;` (Parser.java:155-169): the name and the parameters. */
  function ParseProcedureHeader(ts: Scanner.TokenStream, pos: nat): (r: PResult<(string, seq<string>)>)
    requires Avail(ts, pos) && Cur(ts, pos) == "PROCEDURE"
    ensures r.POk? ==> pos < r.next && Avail(ts, r.next)
  {
    var r1 := Eat(ts, pos, "PROCEDURE");
    if r1.PErr? then Fail(r1) else
    var id := Cur(ts, r1.next);
    var r2 := Eat(ts, r1.next, id);
    if r2.PErr? then Fail(r2) else
    var r3 := Eat(ts, r2.next, "(");
    if r3.PErr? then Fail(r3) else
    var r4 := ParseNames(ts, r3.next, ")", []);
    if r4.PErr? then Fail(r4) else
    var r5 := Eat(ts, r4.next, ")");
    if r5.PErr? then Fail(r5) else
    var r6 := Eat(ts, r5.next, ";");
    if r6.PErr? then Fail(r6) else POk((id, r4.value), r6.next)
  }

  /** `parseProgram` (Parser.java:134-173). */
  function ParseProgram(ts: Scanner.TokenStream, pos: nat): (r: PResult<Program>)
    requires Avail(ts, pos)
    ensures r.POk? ==> pos < r.next && Avail(ts, r.next)
  {
    var r1 := ParseVars(ts, pos, []);
    if r1.PErr? then Fail(r1) else
    var r2 := ParseProcedures(ts, r1.next, []);
    if r2.PErr? then Fail(r2) else
    var r3 := ParseStatement(ts, r2.next);
    if r3.PErr? then Fail(r3) else POk(Program(r1.value, r2.value, r3.value), r3.next)
  }

  /**
   * Scanning and parsing a whole source text: the parser's constructor reads
   * the first token (Parser.java:65-69), then `parseProgram` runs.
   */
  function ParseText(input: string): PResult<Program>
  {
    var ts := Scanner.Tokenize(input);
    if !Avail(ts, 0) then PErr(ScanFailed(ts.end.failure)) else ParseProgram(ts, 0)
  }
}
