# A verified model of a small Pascal-like compiler and interpreter

The repository holds a compiler and interpreter for a small Pascal-like language. It has four parts:

- a character-at-a-time **scanner**;
- a recursive-descent **parser** that builds an abstract syntax tree;
- an **Environment** of nested variable scopes with one procedure table at the root;
- two back ends over the same tree: an **interpreter** (the `eval`/`exec` methods) and a **MIPS generator** (the `compile` methods together with `Emitter`).

This Dafny project models each of these parts and proves what the Java code promises about them.

| file | module | models |
|---|---|---|
| `java_int.dfy` | `JavaInt` | Java `int`: wrap-around `+ - *`, `/` truncating toward zero, `Integer.toString` and `Integer.parseInt` |
| `ast.dfy` | `Ast` | the node classes of `src/ast`, as datatypes |
| `scanner.dfy` | `Scanner` | `Scanner.java`: a `Scanner` class over the input string, each loop proved against a function; the token stream the parser reads |
| `grammar.dfy` | `Grammar` | `Parser.java` as functions over the token stream: the specification of the parser class |
| `parser.dfy` | `Parser` | `Parser.java`: a `Parser` class whose methods advance `currentToken`, each proved equal to its `Grammar` function |
| `unparse.dfy` | `Unparse` | a printer for trees and the proof that the parser reads printed trees back, plus the grouping rules of the grammar |
| `environment.dfy` | `Environment` | `Environment.java`: a store of scope records linked by parent index, the lookup and write rules as functions, and an `Environments` class that updates the store |
| `interpreter.dfy` | `Interpreter` | `eval`/`exec` of every node, as functions of the store and the printed output, with their properties |
| `machine.dfy` | `Machine` | the same semantics as a `Machine` class that updates an `Environments` object and the output in place, proved equal to `Interpreter` |
| `emitter.dfy` | `Emission` | `Emitter.java`: the output file as a sequence of lines, the indent rule, push, pop and the label counter |
| `codegen.dfy` | `CodeGen` | every `compile` method: the exact lines a node appends, and methods that drive an `Emitter` and are proved to append them |
| `codegen_facts.dfy` | `CodeFacts` | which trees compile, how many label ids they draw, that no label is defined twice, and the layout of the data section |
| `branches.dfy` | `Branching` | the branch instructions the conditions emit, compared with the interpreter's comparison |

Choices the model makes:

- **Scanner.** `Scanner.java` reads from a `BufferedReader`; here the input is a string and an index.
  - A `.` sets the end flag but leaves `currentChar` unchanged, and reading goes on after it.
  - The digit and identifier loops never test the end flag, so at the end of input with a digit or letter as the last character they spin forever. The model stops such a loop with the outcome `Diverges` and proves that the Java state really is a fixed point there.
- **Parser.** The parser reads a `TokenStream`: the tokens successive `nextToken` calls return, then either "END" forever or the scan error that the next call would hit. This keeps Java's laziness: a scan error only matters if the parser asks for that token.
  - The VAR, parameter and argument loops of the parser never end once only "END" is left. The model reports that as the error `EndlessList`.
  - `System.exit` on a parse or scan error becomes an error result.
- **Environment.** An Environment object is an index into a `Store`: a sequence of scope records each holding a variable map, a procedure map and a parent index.
  - `setVariable` writes into the parent only when the *immediate* parent binds the name (Environment.java:61-63).
- **Interpreter.**
  - `eval` can run statements, because a procedure call runs its body. Every step therefore threads the store and the printed output.
  - Every step returns an `Outcome`: a `Result` and the state reached, so effects before a Java exception stay visible.
  - A run that might not end carries a `fuel` bound. One unit is spent per WHILE round and per procedure body entered, and running out is `OutOfFuel`. Lemmas show that more fuel never changes a result that did not run out.
- **Code generator.** Each node's output is a function `…Code` that gives the lines appended and the label counter afterwards. The `Compile…` methods drive a real `Emitter` and are proved to append exactly those lines.
  - A construct without a `compile` method (a procedure call) throws. Lines emitted before the throw stay, and the `ok` flag records the throw.

Behaviour of the code that one might not expect from its comments or from the usual rules of such languages, all modelled as the code behaves:

- **Writes to an unbound name.** `setVariable` looks only one level up (Environment.java:61-63). A write that no scope or its immediate parent binds creates a local binding, even when a grandparent binds the name.
- **Program layout.** `parseProgram` (Parser.java:134-173) reads all VAR groups, then all PROCEDURE declarations, then exactly one statement. In `VAR x; x := 1; PROCEDURE p(); WRITELN(x); p();` the program is `x := 1` alone: `parseProgram` returns after it and the declaration and call after it are left unread (`Unparse.StatementEndsProgram`; in general `Unparse.ProgramEndsAtStatement`).
- **The label counter.** It belongs to each `Emitter` and starts at 0 (Emitter.java:27). Each `Program.compile` makes a new `Emitter`, so numbering restarts at 1 in every file.
- **A colon as assignment target.** `parseStatement` takes any token as the target of an assignment (Parser.java:218-226), including the `:` the scanner returns for a lone colon. The compiled store lines then end in `var:` and are written flush left like labels, so `BEGIN : := 1; : := 2; END;` repeats such a line (`CodeFacts.ColonTargetDefinedTwice`). The labels the compiler defines itself stay distinct for every program (`CodeFacts.ProgramOwnLabels`).
- **`>`.** `Condition.eval` computes `>` as `>=` (Condition.java:54-57), while the compiled `ble` branch implements a true `>`. Both are modelled as written. `Interpreter.CompareGreaterIsAtLeast` and `Branching.CompiledGreaterDiffers` state the difference exactly: the two disagree precisely when the operands are equal.

## Model

Some definitions carry no contract of their own. Each is the exact text of what a piece of the code computes, and the methods' `ensures` and the lemmas below refer to it:

- `Scanner.TokenizeFrom` and `Scanner.Tokenize` (the tokens successive `nextToken` calls return, Scanner.java:124-186);
- `Scanner.Scanner.HasNext` (Scanner.java:111-114);
- `Environment.Lookup` (Environment.java:84-91) and `Environment.FindProcedure` (Environment.java:116-123);
- `Emission.Line` (Emitter.java:39-44), `Emission.PushCode` (Emitter.java:58-62) and `Emission.PopCode` (Emitter.java:68-72);
- `CodeGen.ExprCode` (Number.java:40-44, Variable.java:41-46, BinOp.java:63-91), `CodeGen.BinOpCode` (BinOp.java:63-91), `CodeGen.CondCode` (Condition.java:79-113) and `CodeGen.ProgramCode` (Program.java:57-74).


| member | source | states |
|---|---|---|
| JavaInt.Wrap | src/ast/BinOp.java:41-49 | the result has the same low 32 bits as the exact value, and is that value when it fits in an `int` |
| JavaInt.TruncDiv | src/ast/BinOp.java:53 | the quotient rounds toward zero: the remainder is smaller than the divisor in magnitude and has the dividend's sign |
| JavaInt.Div | src/ast/BinOp.java:53 | Java `/` fails exactly on a zero divisor |
| JavaInt.NatToString | src/ast/Number.java:42-43 | decimal text is non-empty, all digits, with no leading zero except for 0 itself |
| JavaInt.IntToStringRoundTrip | src/parser/Parser.java:102-107 | `Integer.parseInt(Integer.toString(x)) == x` for every `int` |
| JavaInt.ParseInt | src/parser/Parser.java:104 | a parse of a digit string succeeds only with the string's decimal value |
| JavaInt.NatToStringInjective | src/ast/If.java:47 | different numbers print as different decimal strings |
| Scanner.Read | src/scanner/Scanner.java:68-83 | a `.` or the end of input sets `eof` and keeps `currentChar`; any other character becomes `currentChar` and is consumed |
| Scanner.ReadProgress | src/scanner/Scanner.java:68-83 | a read either consumes input or changes nothing, and never clears `eof` |
| Scanner.CharClassesDisjoint | src/scanner/Scanner.java:195-244 | digits, letters, operator characters, whitespace and `/` are disjoint classes |
| Scanner.SkipWhiteSpace | src/scanner/Scanner.java:126-129 | after skipping, the scanner is at the end or at a non-whitespace character; at the end it changes nothing |
| Scanner.SkipComments | src/scanner/Scanner.java:131-158 | the comment loop returns `/` or `/=`, or stops at a character other than `/` with whitespace skipped again |
| Scanner.ScanRun | src/scanner/Scanner.java:256-260 | the run extends the prefix only with characters of its class, stops before the first character outside it, and diverges only at a genuine fixed point |
| Scanner.EndIsSticky | src/scanner/Scanner.java:160-163 | once `eof` is set, `nextToken` returns "END" and reads nothing |
| Scanner.TokenConsumes | src/scanner/Scanner.java:124-186 | a token returned before the end flag was set has consumed input |
| Scanner.NumberTokenIsMaximal | src/scanner/Scanner.java:253-266 | a number token is a non-empty run of digits followed by a non-digit |
| Scanner.IdentifierTokenIsMaximal | src/scanner/Scanner.java:275-294 | an identifier token is a letter then letters and digits, followed by neither |
| Scanner.OperatorToken | src/scanner/Scanner.java:302-340 | `( ) ^ ; ,` are one-character tokens; `< > : + - * % =` absorb a following `=`, and `<` absorbs a following `>` into `<>` |
| Scanner.LexErrorExactly | src/scanner/Scanner.java:166-178 | a scan error happens exactly when the character after whitespace and comments is none of digit, letter or operator character |
| Scanner.DivergesIsGenuine | src/scanner/Scanner.java:256-260 | when the model reports divergence, the Java loop is at a state that reading does not change, with a digit or letter current |
| Scanner.EqualsBeforeTerminator | src/scanner/Scanner.java:324-328 | a lone `=` before `.` scans as "==" |
| Scanner.DigitsAcrossTerminator | src/scanner/Scanner.java:73-76 | a digit run broken by `.` repeats its last digit and continues after it |
| Scanner.DigitBeforeTerminatorDiverges | src/scanner/Scanner.java:256 | a digit directly before `.` with nothing after it makes the digit loop spin |
| Scanner.Scanner.GetNextChar | src/scanner/Scanner.java:68-83 | the new state is `Read` of the old one |
| Scanner.Scanner.Eat | src/scanner/Scanner.java:91-103 | reads on exactly when the expected character is current, else reports a scan error and changes nothing |
| Scanner.Scanner.SkipWhiteSpaceLoop | src/scanner/Scanner.java:126-129 | the loop ends in the state `SkipWhiteSpace` gives |
| Scanner.Scanner.ScanSingleLineComment | src/scanner/Scanner.java:348-358 | the loop ends in the state `SkipLineComment` gives |
| Scanner.Scanner.ScanMultiLineComment | src/scanner/Scanner.java:366-384 | the loop ends in the state `SkipBlockComment` gives |
| Scanner.Scanner.ScanRunLoop | src/scanner/Scanner.java:256-260 | the accumulating loop returns the token and state `ScanRun` gives |
| Scanner.Scanner.ScanNumber | src/scanner/Scanner.java:253-266 | returns the token and state `ScanNumberF` gives |
| Scanner.Scanner.ScanIdentifier | src/scanner/Scanner.java:275-294 | returns the token and state `ScanIdentifierF` gives |
| Scanner.Scanner.ScanOperand | src/scanner/Scanner.java:302-340 | returns the token and state `ScanOperandF` gives |
| Scanner.Scanner.NextToken | src/scanner/Scanner.java:124-186 | returns the token and state `NextTokenF` gives |
| Scanner.NextTokenF | src/scanner/Scanner.java:124-186 | the reference for `nextToken`: the position stays in the input and the measure of input left (twice the characters left, plus one before the end flag) never grows |
| Scanner.ScanNumberF | src/scanner/Scanner.java:253-266 | the reference for `scanNumber`: the state stays in the input and the input left never grows |
| Scanner.ScanIdentifierF | src/scanner/Scanner.java:275-294 | the reference for `scanIdentifier`: the state stays in the input and the input left never grows |
| Scanner.ScanOperandF | src/scanner/Scanner.java:302-340 | the reference for `scanOperand`: the state stays in the input and the input left never grows |
| Scanner.SkipLineComment | src/scanner/Scanner.java:348-358 | the reference for the `//` loop: the state stays in the input and the input left never grows |
| Scanner.SkipBlockComment | src/scanner/Scanner.java:366-384 | the reference for the `/* */` loop: the state stays in the input and the input left never grows |
| Scanner.Start | src/scanner/Scanner.java:56-61 | the state after construction lies within the input |
| Scanner.Scanner.constructor | src/scanner/Scanner.java:56-61 | a new scanner holds the given input, is well formed and is in the state `Start` of that input |
| Scanner.NextTokenAgrees | src/scanner/Scanner.java:124-186 | the token stream starts with exactly what one `nextToken` call returns and continues with the stream of the state it leaves; at the end it is "END" forever |
| Scanner.TokensNonEmpty | src/parser/Parser.java:270 | every scanned token is non-empty, so `charAt(0)` never fails |
| Scanner.TokenizeLoop | src/scanner/Scanner.java:124-186 | calling `NextToken` until the end or an error yields exactly the token stream of the start state |
| Grammar.Advance | src/parser/Parser.java:82 | moving to the next token fails only at the last token of a stream that ends in a scan error |
| Grammar.Eat | src/parser/Parser.java:77-94 | a successful `eat` moves exactly one token forward |
| Grammar.EatMismatch | src/parser/Parser.java:79-89 | `eat` fails exactly when the current token is not the expected one, reporting both; otherwise it moves to the next token |
| Grammar.NumberValue | src/parser/Parser.java:102-107 | a parsed number is the value `Integer.parseInt` gives the token, and a token it rejects is an error |
| Grammar.ParseNumber | src/parser/Parser.java:102-107 | the reference for `parseNumber`: a number is read from a real token and consumes it |
| Grammar.ParseFactor | src/parser/Parser.java:256-298 | the reference for `parseFactor`: a factor read from a real token consumes at least it and stops at a readable position |
| Grammar.ParseTerm | src/parser/Parser.java:305-309 | the reference for `parseTerm`: a term read from a real token consumes at least it |
| Grammar.ParseWhileTerm | src/parser/Parser.java:317-332 | the reference for the `*` `/` loop: it never moves back and stops at a readable position |
| Grammar.ParseExpression | src/parser/Parser.java:339-343 | the reference for `parseExpression`: an expression read from a real token consumes at least it |
| Grammar.ParseWhileExpression | src/parser/Parser.java:351-366 | the reference for the `+` `-` loop: it never moves back and stops at a readable position |
| Grammar.ParseCondition | src/parser/Parser.java:115-122 | the reference for `parseCondition`: it never moves back and stops at a readable position |
| Grammar.ParseWriteln | src/parser/Parser.java:184-193 | the reference for the WRITELN branch: it consumes at least one token and stops at a readable position |
| Grammar.ParseAssignment | src/parser/Parser.java:218-226 | the reference for the assignment branch: it consumes at least one token and stops at a readable position |
| Grammar.ParseProcedureDeclaration | src/parser/Parser.java:153-170 | the reference for one declaration: it consumes at least the PROCEDURE token and stops at a readable position |
| Grammar.ParseProcedureHeader | src/parser/Parser.java:155-169 | the reference for a declaration's name and parameters: it consumes at least the PROCEDURE token and stops at a readable position |
| Grammar.ParseStatement | src/parser/Parser.java:182-227 | a parsed statement consumes at least one token |
| Grammar.ParseWhileBegin | src/parser/Parser.java:235-247 | the statements up to `END ;` consume at least the two closing tokens |
| Grammar.ParseNames | src/parser/Parser.java:139-148 | a name list stops exactly at its closing token |
| Grammar.ParseVars | src/parser/Parser.java:136-150 | the VAR groups stop at the first token that is not VAR |
| Grammar.ParseProcedures | src/parser/Parser.java:151-171 | the declarations stop at the first token that is not PROCEDURE |
| Grammar.ParseArgs | src/parser/Parser.java:276-286 | the argument loop stops exactly at ")" |
| Grammar.ParseProgram | src/parser/Parser.java:134-173 | a parsed program consumes at least one token |
| Parser.Parser.constructor | src/parser/Parser.java:65-69 | the parser starts at the first token of the scanner's token stream |
| Parser.Parser.Eat | src/parser/Parser.java:77-94 | the result and new position are those of `Grammar.Eat` |
| Parser.Parser.ParseNumber | src/parser/Parser.java:102-107 | the result and new position are those of `Grammar.ParseNumber` |
| Parser.Parser.ParseCondition | src/parser/Parser.java:115-122 | the result and new position are those of `Grammar.ParseCondition` |
| Parser.Parser.ParseProgram | src/parser/Parser.java:134-173 | the result and new position are those of `Grammar.ParseProgram` |
| Parser.Parser.ParseVars | src/parser/Parser.java:136-150 | the result and new position are those of `Grammar.ParseVars` |
| Parser.Parser.ParseNames | src/parser/Parser.java:139-148 | the result and new position are those of `Grammar.ParseNames`, including `EndlessList` where the Java loop spins |
| Parser.Parser.EndlessNames | src/parser/Parser.java:139-148 | once only "END" is left, the name loop never finishes |
| Parser.Parser.ParseProcedures | src/parser/Parser.java:151-171 | the result and new position are those of `Grammar.ParseProcedures` |
| Parser.Parser.ParseProcedureDeclaration | src/parser/Parser.java:153-170 | the result and new position are those of `Grammar.ParseProcedureDeclaration` |
| Parser.Parser.ParseProcedureHeader | src/parser/Parser.java:155-169 | the result and new position are those of `Grammar.ParseProcedureHeader` |
| Parser.Parser.ParseStatement | src/parser/Parser.java:182-227 | the result and new position are those of `Grammar.ParseStatement` |
| Parser.Parser.ParseWriteln | src/parser/Parser.java:184-193 | the result and new position are those of `Grammar.ParseWriteln` |
| Parser.Parser.ParseBlock | src/parser/Parser.java:194-200 | the result and new position are those of `Grammar.ParseStatement` on BEGIN |
| Parser.Parser.ParseIf | src/parser/Parser.java:201-208 | the result and new position are those of `Grammar.ParseStatement` on IF |
| Parser.Parser.ParseWhile | src/parser/Parser.java:209-217 | the result and new position are those of `Grammar.ParseStatement` on WHILE |
| Parser.Parser.ParseAssignment | src/parser/Parser.java:218-226 | the result and new position are those of `Grammar.ParseAssignment` |
| Parser.Parser.ParseWhileBegin | src/parser/Parser.java:235-247 | the result and new position are those of `Grammar.ParseWhileBegin` |
| Parser.Parser.ParseFactor | src/parser/Parser.java:256-298 | the result and new position are those of `Grammar.ParseFactor` |
| Parser.Parser.ParseParenthesized | src/parser/Parser.java:258-264 | the result and new position are those of `Grammar.ParseFactor` on "(" |
| Parser.Parser.ParseIdentifier | src/parser/Parser.java:270-293 | the result and new position are those of `Grammar.ParseFactor` on an identifier |
| Parser.Parser.ParseArgs | src/parser/Parser.java:276-286 | the result and new position are those of `Grammar.ParseArgs` |
| Parser.Parser.EndlessArgs | src/parser/Parser.java:278-285 | once only "END" is left, the argument loop never finishes |
| Parser.Parser.ParseTerm | src/parser/Parser.java:305-309 | the result and new position are those of `Grammar.ParseTerm` |
| Parser.Parser.ParseWhileTerm | src/parser/Parser.java:317-332 | the result and new position are those of `Grammar.ParseWhileTerm` |
| Parser.Parser.ParseExpression | src/parser/Parser.java:339-343 | the result and new position are those of `Grammar.ParseExpression` |
| Parser.Parser.ParseWhileExpression | src/parser/Parser.java:351-366 | the result and new position are those of `Grammar.ParseWhileExpression` |
| Unparse.ProgramRoundTrip | src/parser/Parser.java:134-173 | parsing a printed program gives back the program and reads exactly the printed tokens |
| Unparse.StmtRoundTrip | src/parser/Parser.java:182-227 | a printed statement parses back as itself, whatever follows it |
| Unparse.WritelnRoundTrip | src/parser/Parser.java:184-193 | a printed WRITELN parses back as itself |
| Unparse.BlockStmtRoundTrip | src/parser/Parser.java:194-200 | a printed BEGIN … END ; parses back as the same block |
| Unparse.IfRoundTrip | src/parser/Parser.java:201-208 | a printed IF parses back as itself |
| Unparse.WhileRoundTrip | src/parser/Parser.java:209-217 | a printed WHILE parses back as itself |
| Unparse.AssignmentRoundTrip | src/parser/Parser.java:218-226 | a printed assignment parses back as itself |
| Unparse.TargetRoundTrip | src/parser/Parser.java:218-226 | a statement starting with any token other than `WRITELN`, `BEGIN`, `IF` and `WHILE` is an assignment to that token, a name or not |
| Unparse.ColonTargetParses | src/parser/Parser.java:218-226 | `BEGIN : := 1; : := 2; END;` parses as a block of two assignments to `:` |
| Unparse.BlockRoundTrip | src/parser/Parser.java:235-247 | printed statements followed by `END ;` are appended, in order, to the list passed in |
| Unparse.ExprRoundTrip | src/parser/Parser.java:339-366 | a printed expression parses back as itself when what follows cannot continue it |
| Unparse.CondRoundTrip | src/parser/Parser.java:115-122 | a printed condition parses back as itself, with any operator token that cannot continue the left side, one of the six relational operators or not |
| Unparse.UnknownRelopParses | src/parser/Parser.java:115-122 | `x == y` parses as a condition with the operator `==`, which is none of the six |
| Unparse.FactorRoundTrip | src/parser/Parser.java:256-298 | a printed factor parses back as itself unless "(" follows |
| Unparse.ParenRoundTrip | src/parser/Parser.java:258-264 | a parenthesised operation parses back as the operation itself, with no node of its own |
| Unparse.CallRoundTrip | src/parser/Parser.java:270-288 | a printed call parses back with its arguments in order |
| Unparse.VariableRoundTrip | src/parser/Parser.java:289-292 | a name not followed by "(" parses as a variable |
| Unparse.NumberRoundTrip | src/parser/Parser.java:102-107 | a printed non-negative literal parses back as itself |
| Unparse.ArgsRoundTrip | src/parser/Parser.java:276-286 | comma-separated arguments parse back in order, appended to those read so far |
| Unparse.NamesRoundTrip | src/parser/Parser.java:139-148 | comma-separated names parse back in order |
| Unparse.VarsRoundTrip | src/parser/Parser.java:136-150 | a printed VAR section gives back its names in order |
| Unparse.FlaggedNamesRoundTrip | src/parser/Parser.java:139-148 | names before `;` or `)`, each followed by a comma or not, parse back in order, appended to those read so far |
| Unparse.FlaggedArgsRoundTrip | src/parser/Parser.java:276-286 | arguments before `)`, each followed by a comma or not, parse back in order, appended to those read so far |
| Unparse.FlaggedCallRoundTrip | src/parser/Parser.java:270-291 | a call whose arguments carry any commas parses back as that call |
| Unparse.VarGroupsRoundTrip | src/parser/Parser.java:136-150 | any number of `VAR … ;` groups, with any commas, give back the concatenation of their names, in order, appended to those read so far |
| Unparse.TwoVarGroups | src/parser/Parser.java:136-150 | `VAR x y ; VAR z ;` declares `x`, `y`, `z` |
| Unparse.ArgumentsWithoutComma | src/parser/Parser.java:276-286 | `f(1 2)` is the call of `f` on 1 and 2 |
| Unparse.HeaderRoundTrip | src/parser/Parser.java:155-169 | a printed header gives back the name and parameters |
| Unparse.DeclarationRoundTrip | src/parser/Parser.java:153-170 | a printed declaration parses back with exactly one body statement |
| Unparse.DeclarationsRoundTrip | src/parser/Parser.java:151-171 | printed declarations parse back in order |
| Unparse.MinusGroupsLeft | src/parser/Parser.java:351-366 | `x - y - z` parses as `(x - y) - z` |
| Unparse.TimesBindsTighter | src/parser/Parser.java:305-366 | `x + y * z` parses as `x + (y * z)` |
| Unparse.ProgramEndsAtStatement | src/parser/Parser.java:134-173 | a printed program followed by any tokens parses as that program, stopping right after its statement |
| Unparse.StatementEndsProgram | src/parser/Parser.java:134-173 | `VAR x; x := 1; PROCEDURE p(); WRITELN(x); p();` parses as the program `x := 1` and stops after its seventh token |
| Unparse.UnaryMinus | src/parser/Parser.java:265-269 | a minus before any printed factor `f` parses as `0 - f`, reading `f` exactly as it is read without the minus |
| Environment.Allocate | src/environment/Environment.java:24-43 | a new object is appended at the old size and every existing object is kept |
| Environment.Chain | src/environment/Environment.java:84-91 | the chain of parents starts at the object and ends at a root |
| Environment.RootOf | src/environment/Environment.java:99-123 | the root reached has no parent |
| Environment.Declare | src/environment/Environment.java:73-76 | declaring keeps the store's size and every parent |
| Environment.Assign | src/environment/Environment.java:59-66 | setting keeps the store's size and every parent |
| Environment.Register | src/environment/Environment.java:99-109 | registering keeps the store's size and every parent |
| Environment.LookupFails | src/environment/Environment.java:84-91 | a lookup fails exactly when no object on the chain of parents binds the name |
| Environment.LookupInnermost | src/environment/Environment.java:84-91 | a successful lookup returns the binding of the innermost object on the chain that binds the name |
| Environment.RootEndsChain | src/environment/Environment.java:116-123 | the root is the last object on the chain of parents |
| Environment.AllocateLookup | src/environment/Environment.java:38-43 | a new object sees exactly what its parent sees (nothing for a root), and older objects see what they saw |
| Environment.AssignWritesTarget | src/environment/Environment.java:59-66 | setVariable is declareVariable on the object itself or on its immediate parent, the latter exactly when the parent binds the name and the object does not |
| Environment.AssignThenLookup | src/environment/Environment.java:59-91 | after setting a name, reading it from the same object gives the value set |
| Environment.DeclareThenLookup | src/environment/Environment.java:73-91 | after declaring a name, reading it from the same object gives the value declared |
| Environment.DeclareFrame | src/environment/Environment.java:73-76 | declaring a name leaves every lookup of every other name, from every object, unchanged |
| Environment.AssignFrame | src/environment/Environment.java:59-66 | setting a name leaves every lookup of every other name, from every object, unchanged |
| Environment.DeclareKeepsShape | src/environment/Environment.java:73-76 | declaring changes no parent and no procedure table |
| Environment.RegisterAtRoot | src/environment/Environment.java:99-109 | setProcedure writes into the root's table and changes nothing else |
| Environment.FindAtRoot | src/environment/Environment.java:116-123 | getProcedure answers from the root's table, with no declaration for an absent name |
| Environment.RegisterKeepsRoots | src/environment/Environment.java:99-109 | registering changes no object's root |
| Environment.RegisterThenFind | src/environment/Environment.java:99-123 | a registered procedure is found from every object sharing the root, the latest registration winning |
| Environment.RegisterKeepsVariables | src/environment/Environment.java:99-109 | registering changes no variable binding and no parent |
| Environment.Environments.constructor | src/environment/Environment.java:24-29 | before the first `new Environment()` the store holds no object |
| Environment.Environments.NewRoot | src/environment/Environment.java:24-29 | the store grows by a root with empty maps |
| Environment.Environments.NewChild | src/environment/Environment.java:38-43 | the store grows by a child of the given object with empty maps |
| Environment.Environments.SetVariable | src/environment/Environment.java:59-66 | the new store is `Assign` of the old one |
| Environment.Environments.DeclareVariable | src/environment/Environment.java:73-76 | the new store is `Declare` of the old one |
| Environment.Environments.GetVariable | src/environment/Environment.java:84-91 | returns `Lookup` of the store |
| Environment.Environments.SetProcedure | src/environment/Environment.java:99-109 | the new store is `Register` of the old one |
| Environment.Environments.GetProcedure | src/environment/Environment.java:116-123 | returns `FindProcedure` of the store |
| Interpreter.Apply | src/ast/BinOp.java:39-54 | an operator fails exactly on `/` by zero, with `DivisionByZero` |
| Interpreter.ApplyWraps | src/ast/BinOp.java:39-54 | the result has the low 32 bits of the exact result and equals it when it fits; `/` rounds toward zero |
| Interpreter.JavaArithmeticExamples | src/ast/BinOp.java:41-53 | `MAX_VALUE + 1` wraps to `MIN_VALUE`, `-7 / 2` is `-3`, `MIN_VALUE / -1` is `MIN_VALUE`, and `/ 0` fails |
| Interpreter.Compare | src/ast/Condition.java:67-68 | a comparison gives only 0 or 1 |
| Interpreter.CompareMeansHolds | src/ast/Condition.java:42-64 | `=`, `<>`, `<`, `<=` and `>=` give 1 exactly when the signed relation holds |
| Interpreter.CompareGreaterIsAtLeast | src/ast/Condition.java:54-57 | `>` gives 1 exactly when `a >= b`, which differs from `>` exactly on equal operands |
| Interpreter.CompareUnknownHolds | src/ast/Condition.java:41 | an operator outside the six gives 1 |
| Interpreter.Exec | src/ast/Statement.java:17 | the reference for `exec` of every statement: objects are only added, none is re-parented, and output is only appended |
| Interpreter.ExecBlock | src/ast/Block.java:31-37 | the reference for the block loop: objects are only added, none is re-parented, and output is only appended |
| Interpreter.Call | src/ast/ProcedureCall.java:37-51 | the reference for `ProcedureCall.eval`: objects are only added, none is re-parented, and output is only appended |
| Interpreter.Bind | src/ast/ProcedureCall.java:44-48 | the reference for the argument loop: objects are only added, none is re-parented, and output is only appended |
| Interpreter.RunBody | src/ast/ProcedureCall.java:49-50 | the reference for running the body and reading the return slot: objects are only added, none is re-parented, and output is only appended |
| Interpreter.RegisterAll | src/ast/Program.java:45-48 | the reference for the declaration loop: the store keeps its size and every parent |
| Interpreter.ExecProgram | src/ast/Program.java:38-50 | the reference for `Program.exec`: objects are only added, none is re-parented, and output is only appended |
| Interpreter.Run | src/ast/Program.java:38-50 | the reference for a whole run from a fresh global object: the final store extends the initial one and output is only appended |
| Interpreter.Eval | src/ast/BinOp.java:37-56 | evaluation never loses an object, re-parents one or takes back output |
| Interpreter.Test | src/ast/Condition.java:37-69 | a condition evaluates to 0 or 1, and never loses state |
| Interpreter.ReadsChangeNothing | src/ast/Variable.java:31-34 | a literal is its value, a name its binding; an unbound name is an error, not 0; neither changes any state |
| Interpreter.LeftOperandFirst | src/ast/BinOp.java:41-53 | the left operand runs first, and when it throws the right one never runs (also for conditions) |
| Interpreter.UnknownOperatorIsZero | src/ast/BinOp.java:55 | an operator outside the four gives 0 without evaluating either operand |
| Interpreter.ReturnSlot | src/ast/ProcedureCall.java:41 | the return slot is the new object's, unless the caller binds the name itself; then the caller's binding is reset to 0 |
| Interpreter.CallScopeIsChildOfCaller | src/ast/ProcedureCall.java:40 | a call creates the next object of the store with the caller as parent |
| Interpreter.BindIgnoresExtra | src/ast/ProcedureCall.java:44-48 | arguments past the last parameter are never evaluated |
| Interpreter.BindTooFewArguments | src/ast/ProcedureCall.java:47 | with fewer arguments than parameters the call fails |
| Interpreter.WritelnPrintsValue | src/ast/Writeln.java:32 | the value is printed once after what its evaluation printed, and the store is the evaluation's |
| Interpreter.AssignmentThenLookup | src/ast/Assignment.java:32-35 | after an assignment runs, reading the name from the same object gives the value; a throwing expression writes nothing |
| Interpreter.BlockOpensNoScope | src/ast/Block.java:31-37 | an empty block changes nothing, and a block of one statement runs it in the same object |
| Interpreter.BlockConcatenation | src/ast/Block.java:33-36 | a block of two lists runs the first, then, unless it throws, the second from the state it left |
| Interpreter.IfRunsBodyOnOne | src/ast/If.java:34-37 | the condition is evaluated once and the body runs exactly when it gives 1 |
| Interpreter.WhileSkipsOnZero | src/ast/While.java:34 | when the condition is not 1 at the start, the body never runs |
| Interpreter.WhileRepeats | src/ast/While.java:34-37 | after a normal round of the body the loop tests the condition again in the state the body left |
| Interpreter.WhileExit | src/ast/While.java:32-38 | a loop that ends normally stopped at a test of the condition that gave 0 |
| Interpreter.DeclareAll | src/ast/Program.java:41-44 | declaring the VAR names keeps the store's shape |
| Interpreter.DeclareAllZero | src/ast/Program.java:41-44 | after the declarations every VAR name reads 0 from the global object, and other names read as before |
| Interpreter.RegisterAllFind | src/ast/Program.java:45-48 | after the declarations run, every object sharing the root finds the last declaration of each name |
| Interpreter.RegisterAllKeepsRoots | src/ast/Program.java:45-48 | registering the declarations changes no object's root |
| Interpreter.LastNamed | src/ast/Program.java:45-48 | the winning declaration of a name is one of the list that has that name, and there is none if no declaration has it |
| Interpreter.Initial | src/ast/Program.java:38-50 | a run starts from a single root object and no output |
| Interpreter.EvalFuel | src/ast/BinOp.java:37-56 | more fuel never changes an evaluation that did not run out |
| Interpreter.ExecFuel | src/ast/While.java:32-38 | more fuel never changes a statement's run that did not run out |
| Interpreter.CallFuel | src/ast/ProcedureCall.java:37-51 | more fuel never changes a call that did not run out |
| Interpreter.RunFuel | src/ast/Program.java:38-50 | a whole run gives the same result with any larger fuel |
| Machine.Machine.constructor | src/ast/Program.java:38-50 | a new machine has no objects and no output |
| Machine.Machine.Eval | src/ast/BinOp.java:37-56 | the result and the new objects and output are those of `Interpreter.Eval` |
| Machine.Machine.Call | src/ast/ProcedureCall.java:37-51 | the result and the new objects and output are those of `Interpreter.Call` |
| Machine.Machine.Test | src/ast/Condition.java:37-69 | the result and the new objects and output are those of `Interpreter.Test` |
| Machine.Machine.Exec | src/ast/While.java:32-38 | the result and the new objects and output are those of `Interpreter.Exec` |
| Machine.Machine.DeclareProcedure | src/ast/ProcedureDeclaration.java:55-58 | the declaration is registered under its own name at the root |
| Machine.Machine.ExecProgram | src/ast/Program.java:38-50 | the result and the new objects and output are those of `Interpreter.ExecProgram` |
| Machine.Machine.Run | src/ast/Program.java:38-50 | a fresh global object, then `exec`: the result is `Interpreter.Run` |
| Emission.LineKeepsLabels | src/emitter/Emitter.java:39-44 | a line ending in `:` is written as is, anything else gets one tab in front; indenting never makes or unmakes a label |
| Emission.LineInjective | src/emitter/Emitter.java:39-44 | different code never gives the same line |
| Emission.Emitter.constructor | src/emitter/Emitter.java:22-33 | a new emitter has no lines and the counter at 0 |
| Emission.Emitter.Emit | src/emitter/Emitter.java:39-44 | exactly one line is appended, earlier lines and the counter are kept |
| Emission.Emitter.EmitPush | src/emitter/Emitter.java:58-62 | appends `subu $sp $sp 4` and `sw r ($sp)` |
| Emission.Emitter.EmitPop | src/emitter/Emitter.java:68-72 | appends `lw r ($sp)` and `addu $sp $sp 4` |
| Emission.Emitter.NextLabelID | src/emitter/Emitter.java:78-82 | the counter goes up by one and the new value is returned; no line changes |
| Emission.LabelIdsIncrease | src/emitter/Emitter.java:78-82 | the first id of a new emitter is 1 and later ones are strictly larger |
| CodeGen.StmtCode | src/ast/Program.java:64 | the code `compile` appends for any statement (the `compile` of Writeln, Block, Assignment, If and While); the counter never moves back |
| CodeGen.IfCode | src/ast/If.java:45-52 | the code an IF appends: the definition `CompileIf` is proved against; the counter never moves back |
| CodeGen.WhileCode | src/ast/While.java:46-57 | the code a WHILE appends: the definition `CompileWhile` is proved against; the counter never moves back |
| CodeGen.BlockCode | src/ast/Block.java:44-50 | the code a block appends from statement `i` on, cut short at the first statement that throws; the counter never moves back |
| CodeGen.CompileOperator | src/ast/BinOp.java:71-90 | appends the operator's comment and instruction (none for an unknown operator) |
| CodeGen.CompileExpr | src/ast/BinOp.java:63-91 | appends exactly `ExprCode`'s lines, draws no label id, and returns normally exactly when `ExprCode` does |
| CodeGen.CompileBranch | src/ast/Condition.java:86-109 | appends the negated branch to the target, or nothing for an unknown operator |
| CodeGen.CompileCondition | src/ast/Condition.java:79-113 | appends exactly `CondCode`'s lines and draws no label id |
| CodeGen.CompilePrint | src/ast/Writeln.java:43-50 | appends the eight lines that print `$v0` and the newline |
| CodeGen.CompileStore | src/ast/Assignment.java:46-48 | appends the store of `$v0` into `var<name>` |
| CodeGen.CompileWriteln | src/ast/Writeln.java:40-51 | appends `StmtCode`'s lines for WRITELN and moves the counter as it says |
| CodeGen.CompileAssignment | src/ast/Assignment.java:43-49 | appends `StmtCode`'s lines for an assignment and moves the counter as it says |
| CodeGen.CompileStmt | src/ast/Program.java:64 | appends `StmtCode`'s lines for any statement and leaves the counter where it says |
| CodeGen.BlockStep | src/ast/Block.java:46-49 | a block's code is its first statement's code followed by the rest's, cut short where one throws |
| CodeGen.CompileBlock | src/ast/Block.java:44-50 | appends `BlockCode`'s lines and leaves the counter where it says |
| CodeGen.CompileIf | src/ast/If.java:45-52 | appends `IfCode`'s lines and leaves the counter where it says |
| CodeGen.CompileWhile | src/ast/While.java:46-57 | appends `WhileCode`'s lines and leaves the counter where it says |
| CodeGen.CompileThen | src/ast/If.java:49-51 | appends the body's code and the two closing lines |
| CodeGen.CompileData | src/ast/Program.java:69-72 | appends the data section and draws no label id |
| CodeGen.CompileProgram | src/ast/Program.java:57-74 | the file a compile writes is exactly `ProgramCode`'s lines |
| CodeFacts.ExprCompiles | src/ast/Expression.java:24-27 | an expression compiles exactly when it contains no call |
| CodeFacts.CondCompiles | src/ast/Condition.java:79-113 | a condition compiles exactly when neither side contains a call |
| CodeFacts.StmtCompiles | src/ast/Expression.java:24-27 | a statement compiles exactly when it contains no call, and then draws one label id per IF and WHILE in it |
| CodeFacts.IfCompiles | src/ast/If.java:45-52 | an IF compiles exactly when it contains no call, and draws one id more than its body |
| CodeFacts.WhileCompiles | src/ast/While.java:46-57 | a WHILE compiles exactly when it contains no call, and draws one id more than its body |
| CodeFacts.BlockCompiles | src/ast/Block.java:44-50 | a block compiles exactly when none of its statements contains a call, and draws their ids in total |
| CodeFacts.ProgramCompiles | src/ast/Program.java:57-74 | a program compiles exactly when its main statement contains no call |
| CodeFacts.CallEmitsNothing | src/ast/Expression.java:24-27 | compiling a call throws before emitting anything, as does an operation whose left operand is a call |
| CodeFacts.UnknownOperatorEmitsOperandsOnly | src/ast/BinOp.java:71-90 | an unknown operator emits the operands with push and pop and no combining instruction |
| CodeFacts.ProceduresNotCompiled | src/ast/Program.java:57-74 | the procedure declarations have no influence on the compiled file |
| CodeFacts.NumberNoLabels | src/ast/Number.java:40-44 | loading a constant defines no label |
| CodeFacts.VariableNoLabels | src/ast/Variable.java:41-46 | loading a plain variable defines no label |
| CodeFacts.ExprNoLabels | src/ast/BinOp.java:63-91 | an expression's code defines no label |
| CodeFacts.CondNoLabels | src/ast/Condition.java:79-113 | a condition's code defines no label, whatever label it branches to |
| CodeFacts.TargetOnlyInBranch | src/ast/Condition.java:86-109 | the target appears in the single branch line right after the operands, and nowhere else |
| CodeFacts.LabelNameInjective | src/ast/While.java:48-50 | different kinds or ids never give the same label |
| CodeFacts.StmtLabels | src/ast/If.java:47 | for a statement whose variables and targets do not end in `:`, the labels it defines are numbered within the ids it drew, and no two are the same |
| CodeFacts.StmtOwnLabels | src/ast/If.java:45-52 | for every statement, the `endif`/`beginwhile`/`endwhile` labels it defines are numbered within the ids it drew, and no two are the same |
| CodeFacts.IfOwnLabels | src/ast/If.java:45-52 | for every IF, its `endifN:` and its body's labels are numbered within its ids and distinct |
| CodeFacts.WhileOwnLabels | src/ast/While.java:46-57 | for every WHILE, its two labels and its body's labels are numbered within its ids and distinct |
| CodeFacts.BlockOwnLabels | src/ast/Block.java:44-50 | for every statement list, the labels of the statements are numbered within the ids they drew and distinct |
| CodeFacts.WhileShapeOwn | src/ast/While.java:51-55 | `beginwhileN:` and `endwhileN:` differ from each other and from every label of the body, whatever the body's names |
| CodeFacts.ExprNoOwnLabels | src/ast/BinOp.java:63-91 | no expression defines a numbered label, whatever its variables are called |
| CodeFacts.VariableNoOwnLabels | src/ast/Variable.java:41-46 | loading any variable defines no numbered label; a colon it ends with lands on a comment or `la` line |
| CodeFacts.StoreNoOwnLabels | src/ast/Assignment.java:46-48 | storing into any target defines no numbered label; a colon it ends with lands on a comment or `la` line |
| CodeFacts.CondNoOwnLabels | src/ast/Condition.java:79-113 | no condition defines a numbered label, whatever its variables are called |
| CodeFacts.ComposeOwn | src/ast/Block.java:44-50 | code whose numbered labels come from disjoint id ranges defines no numbered label twice |
| CodeFacts.WhileShape | src/ast/While.java:51-55 | `beginwhileN:` and `endwhileN:` differ from each other and from every label of the body |
| CodeFacts.DataDeclaresEach | src/ast/Program.java:69-72 | one `var<name>: .word 0` line per variable, in declaration order |
| CodeFacts.WordNotLabel | src/ast/Program.java:71 | a variable's data line is not a label |
| CodeFacts.TrailerNoLabels | src/ast/Program.java:65-72 | the halt sequence and the data section define no label |
| CodeFacts.MainNotNumbered | src/ast/Program.java:63 | `main:` is none of the numbered labels |
| CodeFacts.PrologueLabels | src/ast/Program.java:60-64 | the prologue followed by the body's code defines no label twice |
| CodeFacts.ProgramLabelsDistinct | src/ast/Program.java:57-74 | for a main statement whose variables and targets do not end in `:`, no label line of the file (a line ending in `:`) is defined twice |
| CodeFacts.ProgramOwnLabels | src/ast/Program.java:57-74 | for every program, every label line of the file is `main:`, a numbered label drawn by the main statement, or a comment or `la` line that embeds a name ending in `:`; apart from those last, no label line is defined twice |
| CodeFacts.ProgramLabelLines | src/ast/Program.java:60-64 | for a main statement whose variables and targets do not end in `:`, every label line of the file is `main:` or a numbered label drawn by the main statement |
| CodeFacts.DataSymbolsDistinct | src/ast/Program.java:65-72 | for every program with pairwise distinct VAR names, the data symbols `var<name>` are pairwise distinct, none is `newline`, and none is also a label line of the code section |
| CodeFacts.DuplicateVariableDefinedTwice | src/parser/Parser.java:139-148 | for `VAR x, x;`, which the parser accepts, the last two lines of the file both define `varx` |
| CodeFacts.ColonTargetDefinedTwice | src/ast/Assignment.java:46-48 | for `BEGIN : := 1; : := 2; END;` the file compiles, the lines at indices 7 and 12 are both the label-shaped line `la $t0 var:`, so its label lines are not distinct |
| Branching.BranchNegates | src/ast/Condition.java:86-109 | the emitted branch jumps past the guarded code exactly when the relation does not hold |
| Branching.CompiledAgreesWithInterpreter | src/ast/Condition.java:42-109 | for the five operators other than `>`, the compiled code skips the body exactly when the interpreter's test gives 0 |
| Branching.CompiledGreaterDiffers | src/ast/Condition.java:54-100 | for `>` the compiled code and the interpreter disagree exactly on equal operands |
| Branching.UnknownRelopFallsThrough | src/ast/Condition.java:86-110 | an unknown operator emits no branch, so the body always runs, as the interpreter's 1 says |

## Left out

- Streams and files: the scanner reads a string instead of an `InputStream`, and the emitter keeps its lines in a sequence instead of a `PrintWriter`; `IOException` handling and `close` have nothing to model.
- `System.out.println` in `Writeln.exec` is an append to the output sequence of the state.
- `System.exit` in `Scanner.nextToken` and `Parser.eat`, and the unreachable `return nextToken()` after it, are error results.
- `Parser.main` (Parser.java:376-385) and `ScannerTester.java` are fixed-file drivers and are not part of this model. `Parser.main` calls `parseProgram` and `compile` again while tokens remain, each time overwriting the same output file.
- The static fields of `Program` (Program.java:17-32): the model has one program value at a time, so the sharing of fields between `Program` objects is not represented.
- The meaning of the generated MIPS beyond the branch instructions: `Branching` interprets the six branches, but the model does not execute the emitted code or relate `mulu`/`divu` to the interpreter's signed arithmetic.
- The default `compile(Emitter)` of `Statement` (Statement.java:23-26), which throws and emits nothing. Of the statements, only `ProcedureDeclaration` and `Program` inherit it. `Program.compile(String)` never compiles the declarations (`CodeFacts.ProceduresNotCompiled`), and no `Program` is compiled as a statement, so that default is never called.
- The one-argument `compile(Emitter)` that `Condition` inherits from `Expression`: the parser only builds conditions as IF and WHILE guards, and those are always compiled with a label.
- Non-termination: WHILE loops and recursive procedures run under a fuel bound, so a run whose fuel ends reports `OutOfFuel` rather than spinning. The fuel lemmas show that a result not marked `OutOfFuel` is the same for all larger fuel.
- CodeGen.CompileStmt: the label counter is an unbounded `nat`, so `labelID` overflow after 2^31 - 1 labels is not modelled.
- CodeFacts.ProgramLabelsDistinct: stated only when no variable or assignment target of the main statement ends in `:`. Source text reaches the other case. `parseStatement` takes any token as an assignment target (Parser.java:218-226), and `scanOperand` returns `:` for a colon not followed by `=` (Scanner.java:317-336). `BEGIN : := 1; : := 2; END;` parses (`Unparse.ColonTargetParses`). Each of its stores writes the comment line and the `la $t0 var:` line ending in `:`, flush left (Assignment.java:46-48, Emitter.java:39-44), so the file repeats a label-shaped line (`CodeFacts.ColonTargetDefinedTwice`). For every program, `CodeFacts.ProgramOwnLabels` states what the compiler still guarantees: its own `endif`/`beginwhile`/`endwhile` labels are distinct, and every other label-shaped line is `main:` or a comment or `la` line that embeds such a name. The data lines never look like labels, whatever the name (`CodeFacts.WordNotLabel`).
- CodeFacts.StmtLabels: stated only when no variable or assignment target ends in `:`, for the reason given for ProgramLabelsDistinct. For every statement, `CodeFacts.StmtOwnLabels` states the same of the labels the compiler defines itself.
- CodeFacts.ProgramLabelLines: stated only when no variable or assignment target of the main statement ends in `:`, for the reason given for ProgramLabelsDistinct; with a `:` target the `la $t0 var:` line is a label-shaped line that is neither `main:` nor numbered. For every program, `CodeFacts.ProgramOwnLabels` adds that third kind of line.
- CodeFacts.DataSymbolsDistinct: stated for pairwise distinct VAR names. `parseProgram` accepts a repeated name (`VAR x, x;`), and the data section then defines `varx` twice, a file the assembler rejects (`CodeFacts.DuplicateVariableDefinedTwice`).
- Unparse.FlaggedArgsRoundTrip: stated when no argument without a comma before it starts with `(`. After a name, that `(` makes the name a call (`f(x (y))` reads `x(y)` as one argument), so the arguments are not read back as printed.
- Unparse.ExprRoundTrip: printed literals are non-negative, as the scanner produces them; a negative literal prints as a leading `-`, which parses back as `0 - n`.
- Parser.Parser.constructor: requires the first token to scan; when it does not, the Java constructor exits the process, and the model has no parser object to return.
- Scanner.Scanner.NextToken: the digit and identifier loops that spin forever at the terminator stop with the outcome `Diverges` instead of running forever.
- Grammar.ParseNames: the VAR, parameter and argument loops that spin forever once only "END" is left are reported as the error `EndlessList` instead.
