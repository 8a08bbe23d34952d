/**
 * The imperative parser of src/parser/Parser.java: an object holding the
 * scanner and one token of lookahead, `currentToken`, whose routines advance
 * it through `eat`. Each routine is proved to return what the corresponding
 * function of module Grammar computes, over the token stream the scanner
 * produces.
 */
module Parser {
  import opened JavaInt
  import opened Ast
  import Scanner
  import Grammar

  datatype Result<T> = Ok(value: T) | Err(error: Grammar.ParseError)

  /** What a routine returns to its caller: its value, or the error it raises. */
  function Outcome<T>(p: Grammar.PResult<T>): Result<T>
  {
    if p.POk? then Ok(p.value) else Err(p.error)
  }

  class Parser {
    const sc: Scanner.Scanner
    var currentToken: string
    /** The tokens the scanner produces from the state it had when the parser was built. */
    ghost const ts: Scanner.TokenStream
    /** How many of them have been eaten. */
    ghost var pos: nat

    /**
     * `currentToken` is the token at `pos`, and what the scanner will still
     * produce is the rest of the stream.
     */
    ghost predicate Valid()
      reads this, sc
    {
      && sc.Valid()
      && Grammar.Avail(ts, pos)
      && currentToken == Grammar.Cur(ts, pos)
      && (pos < |ts.tokens| ==>
            Scanner.TokenizeFrom(sc.input, sc.State(), []) == Scanner.TokenStream(ts.tokens[pos + 1..], ts.end))
      && (pos == |ts.tokens| ==> sc.eof)
    }

    /** Parser.java:65-69. The first token must scan: otherwise the Java constructor ends the process. */
    constructor (scanner: Scanner.Scanner)
      requires scanner.Valid()
      requires Grammar.Avail(Scanner.TokenizeFrom(scanner.input, scanner.State(), []), 0)
      modifies scanner
      ensures Valid() && sc == scanner && pos == 0
      ensures ts == Scanner.TokenizeFrom(scanner.input, old(scanner.State()), [])
    {
      sc := scanner;
      ts := Scanner.TokenizeFrom(scanner.input, scanner.State(), []);
      pos := 0;
      Scanner.NextTokenAgrees(scanner.input, scanner.State());
      var t := scanner.NextToken();
      currentToken := t.text;
      new;
      if |ts.tokens| > 0 {
        assert ts.tokens[1..] == ts.tokens[0 + 1..];
      }
    }

    /** Parser.java:77-94. */
    method Eat(token: string) returns (r: Result<()>)
      requires Valid()
      modifies this, sc
      ensures r == Outcome(Grammar.Eat(ts, old(pos), token))
      ensures r.Ok? ==> Valid() && pos == Grammar.Eat(ts, old(pos), token).next
    {
      if token != currentToken {
        return Err(Grammar.Mismatch(token, currentToken));
      }
      Scanner.NextTokenAgrees(sc.input, sc.State());
      var t := sc.NextToken();
      if !t.Token? {
        return Err(Grammar.ScanFailed(t));
      }
      currentToken := t.text;
      if pos < |ts.tokens| {
        pos := pos + 1;
        if pos < |ts.tokens| {
          assert ts.tokens[pos..][1..] == ts.tokens[pos + 1..];
        }
      }
      r := Ok(());
    }

    /**
     * With the scanner at its end and "END" as the current token, every
     * further token is "END" as well: the stream ends in "END" for ever and
     * at most this one token is left.
     */
    lemma AtEnd()
      requires Valid() && sc.eof
      ensures ts.end.EndForever? && |ts.tokens| - 1 <= pos <= |ts.tokens|
    {
      if pos < |ts.tokens| {
        Scanner.NextTokenAgrees(sc.input, sc.State());
        assert |ts.tokens[pos + 1..]| == 0;
      }
    }

    /** Parser.java:102-107. */
    method ParseNumber() returns (r: Result<Expr>)
      requires Valid()
      modifies this, sc
      ensures r == Outcome(Grammar.ParseNumber(ts, old(pos)))
      ensures r.Ok? ==> Valid() && pos == Grammar.ParseNumber(ts, old(pos)).next
    {
      var num := ParseInt(currentToken);
      if num.None? {
        return Err(Grammar.BadNumber(currentToken));
      }
      var e := Eat(currentToken);
      if e.Err? {
        return Err(e.error);
      }
      r := Ok(Number(num.value));
    }

    /** Parser.java:115-122. */
    method ParseCondition() returns (r: Result<Condition>)
      requires Valid()
      modifies this, sc
      ensures r == Outcome(Grammar.ParseCondition(ts, old(pos)))
      ensures r.Ok? ==> Valid() && pos == Grammar.ParseCondition(ts, old(pos)).next
      decreases |ts.tokens| - pos, 5, 0
    {
      var exp1 := ParseExpression();
      if exp1.Err? {
        return Err(exp1.error);
      }
      var relop := currentToken;
      var e := Eat(currentToken);
      if e.Err? {
        return Err(e.error);
      }
      var exp2 := ParseExpression();
      if exp2.Err? {
        return Err(exp2.error);
      }
      r := Ok(Condition(exp1.value, relop, exp2.value));
    }

    /**
     * The name loop of Parser.java:139-148 and 159-167. The Java loop never
     * ends once only "END" is left; that is reported as EndlessList.
     */
    method ParseNames(close: string, names: seq<string>) returns (r: Result<seq<string>>)
      requires Valid() && close != "END"
      modifies this, sc
      ensures r == Outcome(Grammar.ParseNames(ts, old(pos), close, names))
      ensures r.Ok? ==> Valid() && pos == Grammar.ParseNames(ts, old(pos), close, names).next
    {
      var list := names;
      while currentToken != close
        invariant Valid()
        invariant Grammar.ParseNames(ts, pos, close, list) == Grammar.ParseNames(ts, old(pos), close, names)
        decreases |ts.tokens| - pos
      {
        if !sc.HasNext() && currentToken == "END" {
          AtEnd();
          EndlessNames(close, list);
          return Err(Grammar.EndlessList);
        }
        var t := currentToken;
        list := list + [t];
        var e := Eat(t);
        if e.Err? {
          return Err(e.error);
        }
        if currentToken == "," {
          e := Eat(",");
          if e.Err? {
            return Err(e.error);
          }
        }
      }
      r := Ok(list);
    }

    lemma EndlessNames(close: string, list: seq<string>)
      requires Valid() && sc.eof && currentToken == "END" && close != "END"
      requires ts.end.EndForever? && |ts.tokens| - 1 <= pos <= |ts.tokens|
      ensures Grammar.ParseNames(ts, pos, close, list) == Grammar.PErr(Grammar.EndlessList)
    {
      if pos < |ts.tokens| {
        assert Grammar.ParseNames(ts, pos, close, list) == Grammar.ParseNames(ts, pos + 1, close, list + ["END"]);
      }
    }

    /** Parser.java:134-173. */
    method ParseProgram() returns (r: Result<Program>)
      requires Valid()
      modifies this, sc
      ensures r == Outcome(Grammar.ParseProgram(ts, old(pos)))
      ensures r.Ok? ==> Valid() && pos == Grammar.ParseProgram(ts, old(pos)).next
    {
      var variables := ParseVars();
      if variables.Err? { return Err(variables.error); }
      var procedures := ParseProcedures();
      if procedures.Err? { return Err(procedures.error); }
      var stmt := ParseStatement();
      if stmt.Err? { return Err(stmt.error); }
      r := Ok(Program(variables.value, procedures.value, stmt.value));
    }

    /** The `VAR` loop of Parser.java:136-150. */
    method ParseVars() returns (r: Result<seq<string>>)
      requires Valid()
      modifies this, sc
      ensures r == Outcome(Grammar.ParseVars(ts, old(pos), []))
      ensures r.Ok? ==> Valid() && pos == Grammar.ParseVars(ts, old(pos), []).next
    {
      var variables: seq<string> := [];
      while currentToken == "VAR"
        invariant Valid()
        invariant Grammar.ParseVars(ts, pos, variables) == Grammar.ParseVars(ts, old(pos), [])
        decreases |ts.tokens| - pos
      {
        var e := Eat("VAR");
        if e.Err? { return Err(e.error); }
        var names := ParseNames(";", variables);
        if names.Err? { return Err(names.error); }
        variables := names.value;
        e := Eat(";");
        if e.Err? { return Err(e.error); }
      }
      r := Ok(variables);
    }

    /** The `PROCEDURE` loop of Parser.java:151-171. */
    method ParseProcedures() returns (r: Result<seq<ProcedureDeclaration>>)
      requires Valid()
      modifies this, sc
      ensures r == Outcome(Grammar.ParseProcedures(ts, old(pos), []))
      ensures r.Ok? ==> Valid() && pos == Grammar.ParseProcedures(ts, old(pos), []).next
    {
      var procedures: seq<ProcedureDeclaration> := [];
      while currentToken == "PROCEDURE"
        invariant Valid()
        invariant Grammar.ParseProcedures(ts, pos, procedures) == Grammar.ParseProcedures(ts, old(pos), [])
        decreases |ts.tokens| - pos
      {
        var dec := ParseProcedureDeclaration();
        if dec.Err? { return Err(dec.error); }
        procedures := procedures + [dec.value];
      }
      r := Ok(procedures);
    }

    /** Parser.java:153-170. */
    method ParseProcedureDeclaration() returns (r: Result<ProcedureDeclaration>)
      requires Valid() && currentToken == "PROCEDURE"
      modifies this, sc
      ensures r == Outcome(Grammar.ParseProcedureDeclaration(ts, old(pos)))
      ensures r.Ok? ==> Valid() && pos == Grammar.ParseProcedureDeclaration(ts, old(pos)).next
    {
      var header := ParseProcedureHeader();
      if header.Err? { return Err(header.error); }
      var body := ParseStatement();
      if body.Err? { return Err(body.error); }
      r := Ok(ProcedureDeclaration(header.value.0, header.value.1, body.value));
    }

    /** Parser.java:155-169. */
    method ParseProcedureHeader() returns (r: Result<(string, seq<string>)>)
      requires Valid() && currentToken == "PROCEDURE"
      modifies this, sc
      ensures r == Outcome(Grammar.ParseProcedureHeader(ts, old(pos)))
      ensures r.Ok? ==> Valid() && pos == Grammar.ParseProcedureHeader(ts, old(pos)).next
    {
      var e := Eat("PROCEDURE");
      if e.Err? { return Err(e.error); }
      var id := currentToken;
      e := Eat(id);
      if e.Err? { return Err(e.error); }
      e := Eat("(");
      if e.Err? { return Err(e.error); }
      var parms := ParseNames(")", []);
      if parms.Err? { return Err(parms.error); }
      e := Eat(")");
      if e.Err? { return Err(e.error); }
      e := Eat(";");
      if e.Err? { return Err(e.error); }
      r := Ok((id, parms.value));
    }

    /** Parser.java:182-227: dispatches on the first token; each branch is a method of its own below. */
    method ParseStatement() returns (r: Result<Stmt>)
      requires Valid()
      modifies this, sc
      ensures r == Outcome(Grammar.ParseStatement(ts, old(pos)))
      ensures r.Ok? ==> Valid() && pos == Grammar.ParseStatement(ts, old(pos)).next
      decreases |ts.tokens| - pos, 6, 1
    {
      if currentToken == "WRITELN" {
        r := ParseWriteln();
      } else if currentToken == "BEGIN" {
        r := ParseBlock();
      } else if currentToken == "IF" {
        r := ParseIf();
      } else if currentToken == "WHILE" {
        r := ParseWhile();
      } else {
        r := ParseAssignment();
      }
    }

    /** Parser.java:184-193. */
    method ParseWriteln() returns (r: Result<Stmt>)
      requires Valid() && currentToken == "WRITELN"
      modifies this, sc
      ensures r == Outcome(Grammar.ParseWriteln(ts, old(pos)))
      ensures r.Ok? ==> Valid() && pos == Grammar.ParseWriteln(ts, old(pos)).next
      decreases |ts.tokens| - pos, 6, 0
    {
      var e := Eat("WRITELN");
      if e.Err? { return Err(e.error); }
      e := Eat("(");
      if e.Err? { return Err(e.error); }
      var exp := ParseExpression();
      if exp.Err? { return Err(exp.error); }
      e := Eat(")");
      if e.Err? { return Err(e.error); }
      e := Eat(";");
      if e.Err? { return Err(e.error); }
      r := Ok(Writeln(exp.value));
    }

    /** Parser.java:194-200. */
    method ParseBlock() returns (r: Result<Stmt>)
      requires Valid() && currentToken == "BEGIN"
      modifies this, sc
      ensures r == Outcome(Grammar.ParseStatement(ts, old(pos)))
      ensures r.Ok? ==> Valid() && pos == Grammar.ParseStatement(ts, old(pos)).next
      decreases |ts.tokens| - pos, 6, 0
    {
      var e := Eat("BEGIN");
      if e.Err? { return Err(e.error); }
      var statements := ParseWhileBegin([]);
      if statements.Err? { return Err(statements.error); }
      r := Ok(Block(statements.value));
    }

    /** Parser.java:201-208. */
    method ParseIf() returns (r: Result<Stmt>)
      requires Valid() && currentToken == "IF"
      modifies this, sc
      ensures r == Outcome(Grammar.ParseStatement(ts, old(pos)))
      ensures r.Ok? ==> Valid() && pos == Grammar.ParseStatement(ts, old(pos)).next
      decreases |ts.tokens| - pos, 6, 0
    {
      var e := Eat("IF");
      if e.Err? { return Err(e.error); }
      var cond := ParseCondition();
      if cond.Err? { return Err(cond.error); }
      e := Eat("THEN");
      if e.Err? { return Err(e.error); }
      var stmt := ParseStatement();
      if stmt.Err? { return Err(stmt.error); }
      r := Ok(If(cond.value, stmt.value));
    }

    /** Parser.java:209-217. */
    method ParseWhile() returns (r: Result<Stmt>)
      requires Valid() && currentToken == "WHILE"
      modifies this, sc
      ensures r == Outcome(Grammar.ParseStatement(ts, old(pos)))
      ensures r.Ok? ==> Valid() && pos == Grammar.ParseStatement(ts, old(pos)).next
      decreases |ts.tokens| - pos, 6, 0
    {
      var e := Eat("WHILE");
      if e.Err? { return Err(e.error); }
      var cond := ParseCondition();
      if cond.Err? { return Err(cond.error); }
      e := Eat("DO");
      if e.Err? { return Err(e.error); }
      var stmt := ParseStatement();
      if stmt.Err? { return Err(stmt.error); }
      r := Ok(While(cond.value, stmt.value));
    }

    /** Parser.java:218-226: any other first token is the target of an assignment. */
    method ParseAssignment() returns (r: Result<Stmt>)
      requires Valid() && currentToken !in {"WRITELN", "BEGIN", "IF", "WHILE"}
      modifies this, sc
      ensures r == Outcome(Grammar.ParseAssignment(ts, old(pos)))
      ensures r.Ok? ==> Valid() && pos == Grammar.ParseAssignment(ts, old(pos)).next
      decreases |ts.tokens| - pos, 6, 0
    {
      var v := currentToken;
      var e := Eat(v);
      if e.Err? { return Err(e.error); }
      e := Eat(":=");
      if e.Err? { return Err(e.error); }
      var exp := ParseExpression();
      if exp.Err? { return Err(exp.error); }
      e := Eat(";");
      if e.Err? { return Err(e.error); }
      r := Ok(Assignment(v, exp.value));
    }

    /** Parser.java:235-247; the list the Java code appends to is passed in and handed back. */
    method ParseWhileBegin(statements: seq<Stmt>) returns (r: Result<seq<Stmt>>)
      requires Valid()
      modifies this, sc
      ensures r == Outcome(Grammar.ParseWhileBegin(ts, old(pos), statements))
      ensures r.Ok? ==> Valid() && pos == Grammar.ParseWhileBegin(ts, old(pos), statements).next
      decreases |ts.tokens| - pos, 7, 0
    {
      if currentToken == "END" {
        var e := Eat("END");
        if e.Err? { return Err(e.error); }
        e := Eat(";");
        if e.Err? { return Err(e.error); }
        return Ok(statements);
      }
      var stmt := ParseStatement();
      if stmt.Err? { return Err(stmt.error); }
      r := ParseWhileBegin(statements + [stmt.value]);
    }

    /** Parser.java:256-298: dispatches on the current token; the longer branches are methods below. */
    method ParseFactor() returns (r: Result<Expr>)
      requires Valid()
      modifies this, sc
      ensures r == Outcome(Grammar.ParseFactor(ts, old(pos)))
      ensures r.Ok? ==> Valid() && pos == Grammar.ParseFactor(ts, old(pos)).next
      decreases |ts.tokens| - pos, 0, 1
    {
      if currentToken == "(" {
        r := ParseParenthesized();
      } else if currentToken == "-" {
        var e := Eat("-");
        if e.Err? { return Err(e.error); }
        var f := ParseFactor();
        if f.Err? { return Err(f.error); }
        r := Ok(BinOp("-", Number(0), f.value));
      } else if currentToken == "" {
        r := Err(Grammar.EmptyToken);
      } else if Scanner.IsLetter(currentToken[0]) {
        r := ParseIdentifier();
      } else {
        r := ParseNumber();
      }
    }

    /** Parser.java:258-264: the inner expression itself, with no node of its own. */
    method ParseParenthesized() returns (r: Result<Expr>)
      requires Valid() && currentToken == "("
      modifies this, sc
      ensures r == Outcome(Grammar.ParseFactor(ts, old(pos)))
      ensures r.Ok? ==> Valid() && pos == Grammar.ParseFactor(ts, old(pos)).next
      decreases |ts.tokens| - pos, 0, 0
    {
      var e := Eat("(");
      if e.Err? { return Err(e.error); }
      var exp := ParseExpression();
      if exp.Err? { return Err(exp.error); }
      e := Eat(")");
      if e.Err? { return Err(e.error); }
      r := exp;
    }

    /** Parser.java:270-293: a call when "(" follows the identifier, a variable otherwise. */
    method ParseIdentifier() returns (r: Result<Expr>)
      requires Valid() && currentToken !in {"(", "-", ""} && Scanner.IsLetter(currentToken[0])
      modifies this, sc
      ensures r == Outcome(Grammar.ParseFactor(ts, old(pos)))
      ensures r.Ok? ==> Valid() && pos == Grammar.ParseFactor(ts, old(pos)).next
      decreases |ts.tokens| - pos, 0, 0
    {
      var id := currentToken;
      var e := Eat(id);
      if e.Err? { return Err(e.error); }
      if currentToken != "(" {
        return Ok(Variable(id));
      }
      e := Eat("(");
      if e.Err? { return Err(e.error); }
      var args := ParseArgs();
      if args.Err? { return Err(args.error); }
      e := Eat(")");
      if e.Err? { return Err(e.error); }
      r := Ok(ProcedureCall(id, args.value));
    }

    /**
     * The argument loop of Parser.java:276-286. The Java loop never ends once
     * only "END" is left; that is reported as EndlessList.
     */
    method ParseArgs() returns (r: Result<seq<Expr>>)
      requires Valid()
      modifies this, sc
      ensures r == Outcome(Grammar.ParseArgs(ts, old(pos), []))
      ensures r.Ok? ==> Valid() && pos == Grammar.ParseArgs(ts, old(pos), []).next
      decreases |ts.tokens| - pos, 5, 0
    {
      var args: seq<Expr> := [];
      while currentToken != ")"
        invariant Valid() && old(pos) <= pos
        invariant Grammar.ParseArgs(ts, pos, args) == Grammar.ParseArgs(ts, old(pos), [])
        decreases |ts.tokens| - pos
      {
        if !sc.HasNext() && currentToken == "END" {
          AtEnd();
          EndlessArgs(args);
          return Err(Grammar.EndlessList);
        }
        var exp := ParseExpression();
        if exp.Err? { return Err(exp.error); }
        args := args + [exp.value];
        if currentToken == "," {
          var e := Eat(",");
          if e.Err? { return Err(e.error); }
        }
      }
      r := Ok(args);
    }

    lemma EndlessArgs(args: seq<Expr>)
      requires Valid() && sc.eof && currentToken == "END"
      requires ts.end.EndForever? && |ts.tokens| - 1 <= pos <= |ts.tokens|
      ensures Grammar.ParseArgs(ts, pos, args) == Grammar.PErr(Grammar.EndlessList)
    {
      if pos < |ts.tokens| {
        assert Grammar.ParseFactor(ts, pos) == Grammar.POk(Variable("END"), pos + 1);
        assert Grammar.ParseWhileTerm(ts, pos + 1, Variable("END")) == Grammar.POk(Variable("END"), pos + 1);
        assert Grammar.ParseTerm(ts, pos) == Grammar.POk(Variable("END"), pos + 1);
        assert Grammar.ParseWhileExpression(ts, pos + 1, Variable("END")) == Grammar.POk(Variable("END"), pos + 1);
        assert Grammar.ParseExpression(ts, pos) == Grammar.POk(Variable("END"), pos + 1);
        assert Grammar.ParseArgs(ts, pos, args) == Grammar.ParseArgs(ts, pos + 1, args + [Variable("END")]);
      }
    }

    /** Parser.java:305-309. */
    method ParseTerm() returns (r: Result<Expr>)
      requires Valid()
      modifies this, sc
      ensures r == Outcome(Grammar.ParseTerm(ts, old(pos)))
      ensures r.Ok? ==> Valid() && pos == Grammar.ParseTerm(ts, old(pos)).next
      decreases |ts.tokens| - pos, 2, 0
    {
      var factor := ParseFactor();
      if factor.Err? { return Err(factor.error); }
      r := ParseWhileTerm(factor.value);
    }

    /** Parser.java:317-332. */
    method ParseWhileTerm(factor: Expr) returns (r: Result<Expr>)
      requires Valid()
      modifies this, sc
      ensures r == Outcome(Grammar.ParseWhileTerm(ts, old(pos), factor))
      ensures r.Ok? ==> Valid() && pos == Grammar.ParseWhileTerm(ts, old(pos), factor).next
      decreases |ts.tokens| - pos, 1, 0
    {
      if currentToken == "*" || currentToken == "/" {
        var op := currentToken;
        var e := Eat(op);
        if e.Err? { return Err(e.error); }
        var f := ParseFactor();
        if f.Err? { return Err(f.error); }
        r := ParseWhileTerm(BinOp(op, factor, f.value));
        return;
      }
      r := Ok(factor);
    }

    /** Parser.java:339-343. */
    method ParseExpression() returns (r: Result<Expr>)
      requires Valid()
      modifies this, sc
      ensures r == Outcome(Grammar.ParseExpression(ts, old(pos)))
      ensures r.Ok? ==> Valid() && pos == Grammar.ParseExpression(ts, old(pos)).next
      decreases |ts.tokens| - pos, 4, 0
    {
      var term := ParseTerm();
      if term.Err? { return Err(term.error); }
      r := ParseWhileExpression(term.value);
    }

    /** Parser.java:351-366. */
    method ParseWhileExpression(term: Expr) returns (r: Result<Expr>)
      requires Valid()
      modifies this, sc
      ensures r == Outcome(Grammar.ParseWhileExpression(ts, old(pos), term))
      ensures r.Ok? ==> Valid() && pos == Grammar.ParseWhileExpression(ts, old(pos), term).next
      decreases |ts.tokens| - pos, 3, 0
    {
      if currentToken == "+" || currentToken == "-" {
        var op := currentToken;
        var e := Eat(op);
        if e.Err? { return Err(e.error); }
        var t := ParseTerm();
        if t.Err? { return Err(t.error); }
        r := ParseWhileExpression(BinOp(op, term, t.value));
        return;
      }
      r := Ok(term);
    }
  }
}
