# jspp and splc: machine, translator, renderer, statistics

A Dafny model of four parts of the repository and proofs about them.

- **The jspp bytecode machine** (`jspp/src/interpinner.c`, `jspp/src/interp.c`). `VmCode` holds the
  opcodes and the word layout, `VmMachine` the machine as a small-step transition over its own state
  (operand stack, call frames, block frames, pending error). `VmInterp` is the machine in the
  source's form, classes `StackFrame` and `Interp` whose methods update the stack, the frames and
  the frame cache in place; its `Step` is proved to make exactly the transition of `VmMachine`.
  `VmFrames`, `VmCalls`, `VmRuns` and `VmControl` prove what holds of every run, `VmLaws` what each
  instruction does, by opcode number and without its handler, and what a run of them restores or
  brings back; `VmVerifier` proves a stack-height certificate sound, `VmRunLoop` the whole of
  `qinterpRun` on the objects, and `VmExample` gives two programs that have certificates.
- **The T-SQL to SQL/MP translator** (`sqlparser.c`). `SqlLex` is the tokenizer as a function of text and
  position, `SqlSpelling` says in terms of the characters what it reads, `SqlOutput` is the emitted
  pieces, the placeholders and the index slots, `SqlChain` the condition chains and their meaning,
  `SqlStatement` what a statement spells in the source and what is written for it, `SqlTranslator` the
  translator itself (a class whose methods advance the position, the token, the output and the slots),
  `SqlSites` where the conditions of a statement stand. `SqlRewrite` is the translation a second time, as
  one pass that rewrites token after token with no grammar, and the proof that both agree; `SqlReadBack`
  shows that what is written for a condition chain, and `SqlStatementBack` that what is written for a
  statement, can be read in one way only; `SqlLaws` says what all this means for a translated procedure,
  `SqlWords` gives texts word by word, `SqlExamples` texts that are translated, or refused, as nobody
  intends, and `SqlQueryExample` a SELECT with its whole translation.
- **The scaled-decimal renderer** (`splc/preparedstatement.c`), in `Decimal`.
- **The call statistics** (`splc/stats.c`), in `Stats`.

## How to read the model

Values of the machine are abstract: what a handler pushes, which way a conditional jump goes, what a
signature resolves to and what a native returns are read from a `Choice`. A claim about every run is
therefore a claim about every program and all data. `_interp` may loop forever, so a run is any finite
sequence of steps. A state in which the C code has no defined behaviour (an operand taken from an empty
stack, a fetch outside the code, a missing constant, the unmodelled NEW and CONSTRUCT) is `Fault`; the
class methods ask that the next step is not a fault, claims about whole runs on the objects
(`VmRunLoop.RunSteps`, `RunProgram`) ask that no state is, and `VmVerifier.AcceptedNeverPopsBelow` shows
that an accepted program never reaches one. `history` in a frame and `view`, `peak` in the interpreter are
bookkeeping that no transition reads.

The output of the translator is a sequence of pieces, so that a parenthesis the translator writes is
told from one inside a literal. `hosts` lists the placeholders in the order written; `act` says whose
`prmidxpos` is in use and `acts` counts the `parseSelect` activations. `leftover` counts the
parentheses left open by the `parseConditions` activations that stop at line 1250; `heads` and `opens`
count the SELECT and UNION tokens read and the '(' read that can open a condition (those not behind a
function name, IN, VALUES or CHAR).

Most parsing methods have a ghost parameter, a part of a statement that the source is known to spell
from the current token on, or `None`. On any text a method keeps the accounts; on a text that spells
the part it is also known exactly when it succeeds, and then where it stops and what it writes.
`SqlStatement.SpellsProcedure` says what a whole text spells: CREATE PROCEDURE with its parameters, and a
SELECT of fields with DISTINCT, AS, tables, joins, WHERE, HAVING, ORDER BY and UNION, a DELETE, an UPDATE
or an INSERT. Its conditions are chains of comparisons (LIKE, IS, NOT and NULL included) with at most one
'(' before and one ')' behind each, joined by AND and OR, and of `field [NOT] IN (literals)`, behind which
nothing joins the next condition. `SqlStatement.Accepted` is the rule by which such a text is accepted:
nothing follows, the conditions meet `SqlChain.ChainRule`, and their variables are declared and find free
slots (`SqlStatement.Fits`).

`Drift` adds what was written and what is still to be read, '(' counted up and ')' down; it stays the same
but where a token is skipped unseen, that is with UNION, AVG, MAX, MIN and SUM, and with any function in a
SET list.

## What the code does that its intent does not suggest

The model follows the code; each of these is stated or used by a member below.

- The guard of `breakBlock` compares the wrong way and is never true, so BREAK leaves no block and its
  loop always ends (`VmFrames.BreakNeverUnwinds`).
- `<=` is read as `<` and `<=>` as `<>` (`SqlLex.NeverLtEq`, `SqlSpelling.OperatorWritten`).
- `jspp/jspp/opcodes.h:94` documents DEREF without an operand; the code takes the object off the stack
  (`jspp/src/interpinner.c:1252-1270`), and `VmLaws.StackEffect` follows the code.
- Every GROUP BY is rejected (`SqlTranslator.Translator.ParseFieldFnList`, `ParseGroupBy`); ORDER BY
  without a direction writes DESC (`ParseDirection`).
- AVG, MAX, MIN and SUM skip the token after their field, whatever it is
  (`SqlTranslator.Translator.ParseFunction`).
- Once IS was read, every later comparison of the chain needs NULL, or NOT in front of any operand
  (`SqlTranslator.Translator.ParseOperator`): of `c IS NULL AND c = 1` and `c IS NULL AND c = NOT 1` only
  the second is accepted (`SqlExamples.NotAfterIs`).
- Behind an IN list the chain goes on iff a field or '(' follows, with no AND or OR between, and no ')' is
  taken there (`SqlTranslator.Translator.ParseIteration`): of `c IN (1) c = 1` and `c IN (1) AND c = 1`
  only the first is accepted, and written `c IN (1)c = 1 ` (`SqlExamples.ConditionAfterList`).
  `SqlChain.ChainRuleIff` is the exact condition for both: a spelled chain is accepted iff each
  comparison has NULL or NOT where an IS stands at or before it and no NOT where none does, and a chain
  that ends with a list has closed its parentheses.
- A '(' that `parseConditions` leaves open goes unnoticed: `SqlExamples.ParenthesisLeftOpen` is an
  accepted text with one. A spelled statement leaves open exactly what its conditions leave open
  (`SqlSites.StatementBalance`). Any accepted text without UNION, AVG, MAX, MIN and SUM, an UPDATE without
  any function, leaves open exactly the '(' that it has more than ')', so all are closed iff they are as
  many; and an accepted text without a '(' that can open a condition leaves none
  (`SqlLaws.TranslateProcedure`).
- Every SELECT counts its placeholders from 0: `SqlExamples.IndicesCollide` is an accepted text with two
  placeholders bound to index 0. An accepted SELECT whose text has no other SELECT and no UNION token,
  and an accepted DELETE whose text has none, is numbered in order; a spelled SELECT is exactly when
  at most one SELECT of its UNIONs has placeholders (`SqlLaws.TranslateProcedure`,
  `SqlSites.QueryInOrderIff`).
- The statistics are asked for while a call is open, when the slot of the oldest call may already hold
  the new call's received length: `Stats.ReportedIff` says exactly when the row is right and
  `Stats.SpoiledMean` gives a case where it is not.

## Model

| member | source | states |
|---|---|---|
| VmCode.DecodeEncode | jspp/jspp/program.h:78-82 | every opcode, argument count and two modes that fit their fields are read back from the packed word |
| VmCode.JoinSplit | jspp/src/interpinner.c:887-907 | a 32-bit argument, negative ones included, survives being split into two 16-bit words |
| VmCode.FetchAssembled | jspp/src/interpinner.c:882-907 | at the k-th instruction boundary of assembled code the fetch yields the k-th instruction and leaves the pc at the next boundary |
| VmFrames.GetCatchFinds | jspp/src/interpinner.c:277-290 | getCatch is a search: it leaves exactly the blocks inside the innermost one with a catch target, with their locals, and yields that target or -1 |
| VmFrames.BreakNeverUnwinds | jspp/src/interpinner.c:204-222 | the block count that breakBlock compares with never exceeds the open blocks, and it and the target are those of the nearest enclosing SETBREAK |
| VmFrames.StepShape | jspp/src/interpinner.c:859-1774 | every step of every program keeps: locals are the argument slots followed by those of each open block, and every block's cached break target agrees with the lexical search |
| VmFrames.RunShape | jspp/src/interpinner.c:859-1774 | the same over every run, of any program |
| VmFrames.LocalsConserved | jspp/src/interpinner.c:234-268 | in every frame of every reachable state the locals number the arguments plus the local counts of the open blocks, arguments first |
| VmFrames.BreakTargetsAgree | jspp/src/interpinner.c:196-256 | in every reachable frame a block's (breakpc, blockcount) is that of the nearest enclosing block that executed SETBREAK, (-1, 0) if none, and blockcount is at most the block's depth |
| VmCalls.StepBelow | jspp/src/interpinner.c:859-1785 | one step that takes no operand below its base leaves the frames under any active frame and the operands it does not own as they were, and removes a frame only by that frame's exit |
| VmRuns.RunSound | jspp/src/interpinner.c:859-1785 | over every run without a pop below base, frame bases are ordered and within the operand stack |
| VmRuns.CalleeReturns | jspp/src/interpinner.c:140-194 | a callee that has returned did so by its own exit, with everything under it untouched |
| VmRuns.CallBalance | jspp/src/interpinner.c:310-623 | every completed call to a bytecode method restores the caller's frames exactly and leaves the operands at the entry stack minus the arguments, plus the callee's retval exactly when a value is delivered; which value that is: `VmLaws.CallBringsValue`, `VmRuns.ThrowUnwinds` |
| VmRuns.WholeRunIsClean | jspp/src/interp.c:266-297 | when the started method has returned, no frame and no operand is left after *varret is taken, and *varret is written iff the method returned a value normally or an exception escaped |
| VmRuns.CatcherIsSearch | jspp/src/interpinner.c:277-290 | the catching frame and block are those a single search through the concatenated block stacks of all frames finds |
| VmRuns.ThrowUnwinds | jspp/src/interpinner.c:1092-1108 | from any depth of calls and blocks a thrown non-pointer value reaches the innermost catching block of all frames, inner frames, blocks and locals gone, pc at the catch target, value on top; without one the run ends with IERR_EXCEPTION |
| VmRuns.Propagates | jspp/src/interpinner.c:1354-1368 | the callers' part of it: from an exiting frame to the landing, through callers that do not catch |
| VmRuns.ThrowStep | jspp/src/interpinner.c:1092-1108 | THROW in its own frame: caught there, or all blocks left and the exception raised |
| VmRuns.NextExists | jspp/src/interpinner.c:882-885 | every state has a successor, so the claims about runs speak of runs of every length |
| VmLaws.StackEffect | jspp/jspp/opcodes.h:52-120 | every instruction but the calls and THROW that raises no error takes from the operand stack and puts on it what the list of opcodes says, operands it only moves in their places and all others untouched |
| VmLaws.EnterOpens | jspp/src/interpinner.c:1110-1121 | opcode 38 adds exactly one block, with the localcount of its argument, the break target around it and no catch target, and that many locals |
| VmLaws.LeaveCloses | jspp/src/interpinner.c:1123-1126 | opcode 39 removes exactly the innermost block and its locals: what is left is the layout of the blocks around it |
| VmLaws.StepKeepsOuter | jspp/src/interpinner.c:859-1785 | no step, call, return or catch changes the blocks under the innermost of any frame that stays |
| VmLaws.BlockRestores | jspp/src/interpinner.c:1110-1126 | in any run an ENTER and the LEAVE that matches it give the frame its blocks and its locals back, whatever ran between them |
| VmLaws.SetBreakSets | jspp/src/interpinner.c:1128-1133 | SETBREAK changes the break target and count of the innermost block only |
| VmLaws.TryArms | jspp/src/interpinner.c:1085-1090 | TRY changes the catch target of the innermost block only |
| VmLaws.BreakJumps | jspp/src/interpinner.c:1135-1156 | BREAK goes to the target of the nearest SETBREAK in the history of the blocks, CONTINUE three words before it, and without one they fail; blocks, locals and operands stay |
| VmLaws.JumpGoes | jspp/src/interpinner.c:1432-1437 | JMP goes to its argument and changes nothing else |
| VmLaws.ConditionalJump | jspp/src/interpinner.c:1395-1430 | JMPZ and JMPNZ take exactly the condition and go to their argument or on |
| VmLaws.CallEnters | jspp/src/interpinner.c:310-386 | a call that enters bytecode enters a method whose signature the constant names, at pc 0, with one block, its arguments as locals in order and off the stack, the caller waiting behind the call |
| VmLaws.CallReturnsAtOnce | jspp/src/interpinner.c:388-455 | a native or failed call leaves the caller's frames alone, and the stack without the arguments and with the value, or as it was but for `this` |
| VmLaws.RetKeepsValue | jspp/src/interpinner.c:1076-1083 | RET takes the operand off the stack and keeps it for the caller |
| VmLaws.VretReturns | jspp/src/interpinner.c:1071-1074 | VRET returns and leaves operands, blocks and locals alone |
| VmLaws.ExitReturns | jspp/src/interpinner.c:1776-1785 | a frame that is done gives its error to what is under it, a return as no error |
| VmLaws.CallerGoesOn | jspp/src/interpinner.c:1354-1368 | a call without error lets the caller go on exactly where it was |
| VmLaws.CallBringsValue | jspp/src/interpinner.c:140-194 | when the callee's last instruction is RET with v on top, the completed call leaves the entry stack minus the arguments plus v |
| VmLaws.RunAnswers | jspp/src/interp.c:283-297 | when the started method ends with RET of v, *varret is v and nothing else is left |
| VmLaws.RunThrows | jspp/src/interp.c:283-297 | when a thrown v is caught by no frame, *varret is v and nothing else is left |
| VmLaws.ErrorEndsRun | jspp/src/interpinner.c:1354-1392 | an error that is no exception passes every caller and ends the run with that error |
| VmControl.ControlFlowIntegrity | jspp/src/interpinner.c:887-907 | in assembled code whose targets are instruction boundaries and whose SETBREAK targets follow a JMP, no run fetches outside the code, and the pc of every error-free frame is a boundary or the end |
| VmControl.ContinueLandsOnJump | jspp/src/interpinner.c:1145-1156 | CONTINUE sets the pc three words before the break target, and a JMP begins there and ends at the target |
| VmControl.StepControl | jspp/src/interpinner.c:1395-1437 | every step keeps all pcs, break targets and catch targets of all frames at boundaries |
| VmVerifier.StepCertified | jspp/src/interpinner.c:908-1774 | every step from a state that meets the certificate, calls, returns and throws included, is no fault and meets it again |
| VmVerifier.AcceptedNeverPopsBelow | jspp/jspp/opcodes.h:52-120 | in every run of a program with an accepted stack-height certificate no step takes an operand below its frame's base, and no state is a fault |
| VmVerifier.AcceptedRunIsClean | jspp/src/interp.c:283-297 | an accepted method that returns leaves no operand, and *varret is written iff a value or an exception is delivered |
| VmExample.LoopAccepted | jspp/src/interpinner.c:1085-1156 | a loop that throws, catches and breaks has a certificate |
| VmExample.CallsAccepted | jspp/src/interpinner.c:1372-1392 | a method whose SCALL calls one that throws into its TRY has a certificate |
| VmExample.CaughtAcrossFrames | jspp/src/interpinner.c:1372-1392 | six steps take that program from its start through call and throw to the catch target of the caller, the thrown value on top |
| VmInterp.StackFrame.SetBreak | jspp/src/interpinner.c:196-202 | the frame object afterwards is the pure transition of the one before |
| VmInterp.StackFrame.SetTry | jspp/src/interpinner.c:270-275 | likewise for the catch target |
| VmInterp.StackFrame.EnterBlock | jspp/src/interpinner.c:234-256 | pushes a block that inherits the break target, and its locals |
| VmInterp.StackFrame.LeaveBlock | jspp/src/interpinner.c:258-268 | pops the block and exactly its locals |
| VmInterp.StackFrame.GetCatch | jspp/src/interpinner.c:277-290 | the unwinding loop does what the search function says |
| VmInterp.StackFrame.BreakBlock | jspp/src/interpinner.c:292-308 | yields the cached break target and leaves the frame alone, loop guard included |
| VmInterp.StackFrame.StartCall | jspp/src/interpinner.c:346-386 | from a clear frame to the frame at the first instruction: the outer block and one local per argument |
| VmInterp.StackFrame.RunBlock | jspp/src/interpinner.c:1110-1156 | ENTER, LEAVE, SETBREAK, TRY, BREAK and CONTINUE make the machine's transition; what that is: `VmLaws.EnterOpens`, `LeaveCloses`, `SetBreakSets`, `TryArms`, `BreakJumps` |
| VmInterp.Interp.TakeFrame | jspp/src/interpinner.c:82-90 | a frame from the cache if there is one, else a new one; never one in use |
| VmInterp.Interp.EnterFrame | jspp/src/interpinner.c:78-138 | pushes a clear frame recording the stack height; active and cached frames stay distinct objects, cached ones empty, and together number the maximum depth |
| VmInterp.Interp.LeaveFrame | jspp/src/interpinner.c:140-194 | trims the operands to the entry height minus the arguments, pushes the value only if one is delivered, empties the frame into the cache |
| VmInterp.Interp.EndInterp | jspp/src/interpinner.c:1776-1785 | a pending IERR_RETURN becomes no error, residue above base and result is dropped |
| VmInterp.Interp.Exit | jspp/src/interpinner.c:1776-1785 | the end of a frame, of its call and of its block make the machine's exit transition |
| VmInterp.Interp.Prologue | jspp/src/interpinner.c:334-386 | enters a frame and moves exactly the arguments off the operand stack |
| VmInterp.Interp.NativeCall | jspp/src/interpinner.c:392-404 | a native's frame is left again; its value is pushed iff the method has one |
| VmInterp.Interp.FailLookup | jspp/src/interpinner.c:447-455 | an unknown method leaves the frames as they were, and pops `this` where the source does |
| VmInterp.Interp.Call | jspp/src/interpinner.c:310-623 | static, instance and base calls make the machine's call transition, and the deepest frame count is recorded |
| VmInterp.Interp.Handle | jspp/src/interpinner.c:1354-1368 | the caller resumes, catches, or takes over the exception, as the machine does |
| VmInterp.Interp.Step | jspp/src/interpinner.c:859-1785 | one step on the objects is one step of the machine, whose instructions `VmLaws` states one by one; the pool stays intact and grows only to a new maximum depth |
| VmInterp.Interp.TakeVarret | jspp/src/interp.c:291-296 | takes a remaining operand as *varret |
| VmRunLoop.RunSteps | jspp/src/interpinner.c:882-1785 | the objects follow the machine through every run without a fault, of any program and from any state; active plus cached frames number the maximum depth reached in it |
| VmRunLoop.RunAccepted | jspp/src/interp.c:238-298 | for a program with a certificate the same needs no condition on the run, the value of *varret included |
| VmRunLoop.RunProgram | jspp/src/interp.c:238-298 | qinterpRun from arguments to *varret on any run without a fault: active plus cached frames number the maximum depth, a returned run has every frame in the cache, and if no step popped below its base no operand is left, *varret is written iff a value or an exception is delivered, and it is the value the started method's RET took or the one thrown past every frame |
| VmRunLoop.GivenIsLeft | jspp/src/interp.c:283-297 | whatever RET of the started method or uncaught THROW ends a run, its value is the only thing left at the end |
| VmRunLoop.ExecFinishes | jspp/src/interp.c:283-297 | under any choices a started method that has returned leaves a clean machine, if no step popped below its base |
| SqlLex.NewlinesSplit | sqlparser.c:2449-2459 | newlines counted over adjoining stretches add up |
| SqlLex.NeverLtEq | sqlparser.c:2547-2562 | no text has a TOK_LTEQ token at any position |
| SqlSpelling.LexSpelled | sqlparser.c:2497-2781 | from any position of any text the tokenizer skips exactly the blanks and reads what the characters say: a digit or - and the digits behind it, the characters between two quotes of a line, the signs, and words, whole, reserved ones in any case, @ names, and names as functions iff a ( follows the blanks |
| SqlSpelling.Reserved | sqlparser.c:2588-2750 | a word is reserved iff it is one of 41, and for the token it spells |
| SqlSpelling.OperatorWritten | sqlparser.c:1016-1075 | the operator written for a comparison is, without its blanks and in capitals, the operator's own characters in the source, but for the = behind < that is dropped |
| SqlStatement.DateWritten | sqlparser.c:402-450 | GETDATE() becomes CURRENT |
| SqlStatement.FunctionWritten | sqlparser.c:450-526 | COUNT, AVG, MAX, MIN and SUM are written in capitals with * or the field behind the ( in parentheses |
| SqlOutput.NeverOverClosedSnoc | sqlparser.c:1412-1430 | with one more piece every ')' is matched iff it was before and enough is open |
| SqlOutput.SetPrmIdx | sqlparser.c:817-830 | fills the first free slot and advances the counter, or fails and changes nothing when all ten are taken |
| SqlOutput.StoresNext | sqlparser.c:817-830 | storing the counter for one more placeholder keeps a parameter's slots equal to the indices of its placeholders in order |
| SqlOutput.FreeSlot | sqlparser.c:817-830 | the first free slot of a parameter is the one whose number is the count of its placeholders, and there is one iff that is below ten |
| SqlTranslator.Translator.SkipWs | sqlparser.c:2449-2459 | stops at the first non-blank, one line counted per newline passed |
| SqlTranslator.Translator.ScanStr | sqlparser.c:2461-2483 | reads a literal to its closing quote, and fails at a newline or the end |
| SqlTranslator.Translator.ScanToWs | sqlparser.c:2485-2495 | reads exactly the word |
| SqlTranslator.Translator.Tokenize | sqlparser.c:2497-2781 | whatever the text, also on failure: position within the text, line number 1 plus the newlines before it, text strictly consumed, token and lexeme those of the reading function, which `SqlSpelling.LexSpelled` pins to the characters |
| SqlTranslator.Translator.ParseLit | sqlparser.c:87-147 | writes the literal and moves to the next token |
| SqlTranslator.Translator.ParseField | sqlparser.c:315-400 | succeeds iff a field reads here, consumes exactly it and writes exactly it |
| SqlTranslator.Translator.ParseAggregate | sqlparser.c:490-515 | succeeds iff a field can be read behind the (, writes the function around exactly that field and stops behind the field |
| SqlTranslator.Translator.ParseFunction | sqlparser.c:402-526 | succeeds iff a known function reads here, stops where it ends (for AVG, MAX, MIN and SUM one token late) and writes exactly its text |
| SqlTranslator.Translator.ParseFieldFnList | sqlparser.c:528-579 | fails on every token |
| SqlTranslator.Translator.ParseGroupBy | sqlparser.c:581-616 | succeeds iff there is no GROUP BY |
| SqlTranslator.Translator.ParseDirection | sqlparser.c:690-710 | writes ASC only for ASC, DESC otherwise, and reads a direction that is there |
| SqlTranslator.Translator.BindParam | sqlparser.c:1129-1155 | a placeholder gets the counter as index, stored with its parameter, unless its ten slots are taken |
| SqlTranslator.Translator.ParseVar | sqlparser.c:1129-1161 | becomes the next placeholder :px iff the variable is declared and has a free slot, and is refused otherwise |
| SqlTranslator.Translator.ParseOperator | sqlparser.c:1016-1128 | succeeds iff an operator reads here and, when IS was read now or before, NULL or NOT is behind it; writes exactly that NOT and the operator, which `SqlSpelling.OperatorWritten` pins to the characters |
| SqlTranslator.Translator.ParsePredicate | sqlparser.c:1016-1212 | whether IS was read and whether a list was are those of the token; a spelled comparison or membership is accepted iff the rule for IS and NOT holds and its variable, if any, finds a slot, and then written exactly |
| SqlTranslator.Translator.ParseIteration | sqlparser.c:995-1262 | behind a spelled comparison the ')' and AND or OR are read, and without AND or OR the chain is done; behind a spelled list neither ')' nor AND nor OR is read and the loop goes on |
| SqlTranslator.Translator.ParseConditions | sqlparser.c:978-1269 | a spelled chain of conditions of any length, with parentheses, LIKE, IS, NOT, NULL and lists, is accepted iff the rule of chains holds and its variables are declared and find free slots; it is then consumed exactly and written as `SqlRewrite.ChainWrites` rewrites its tokens; on any text the accounts are kept and parentheses left open are counted |
| SqlTranslator.Translator.ParseInList | sqlparser.c:729-815 | a spelled list of literals is accepted and written exactly; any list keeps the accounts, a nested SELECT its indices apart |
| SqlTranslator.Translator.ParseCase | sqlparser.c:845-976 | CASE keeps the accounts and ends, however WHEN conditions nest |
| SqlTranslator.Translator.ParseJoinLhs | sqlparser.c:1330-1432 | a spelled JOIN is accepted iff its conditions are, and written exactly, its conditions translated between the parentheses ON opens and closes |
| SqlTranslator.Translator.ParseFrom | sqlparser.c:1434-1553 | spelled tables and joins are accepted iff every join is, and written exactly, every table as a define with its alias, the index counter running on |
| SqlTranslator.Translator.ParseSelect | sqlparser.c:1555-1799 | a spelled SELECT with its UNIONs is accepted iff its conditions are, and written exactly, each SELECT counting from 0, as `SqlRewrite.QueryWrites` rewrites its tokens; on every text the recursion ends and no outer activation gains a placeholder |
| SqlTranslator.Translator.ParseInsert | sqlparser.c:1801-2039 | a spelled INSERT is written exactly, variables as placeholders without an index |
| SqlTranslator.Translator.ParseUpdate | sqlparser.c:2041-2209 | a spelled UPDATE is accepted iff its WHERE is, and written exactly; its WHERE placeholders are numbered from 0, those of SET have no index |
| SqlTranslator.Translator.ParseDelete | sqlparser.c:2211-2248 | a spelled DELETE is accepted iff its conditions are, and written exactly, no placeholder without an index |
| SqlTranslator.Translator.ParseSQL | sqlparser.c:2250-2447 | ends on every text; an accepted one was read to its end, every ) written matches a (, the ( in excess are no more than the ( of the text that can open a condition, and unless tokens are skipped with UNION, an aggregate or a function of SET just the ( less the ) of the text; a spelled procedure is accepted iff nothing follows, its conditions are and their variables are declared and find free slots, and then written exactly |
| SqlChain.HostsOfChain | sqlparser.c:1129-1161 | the placeholders of a written chain are those of its variables in order, numbered from n on |
| SqlChain.TranslationRenames | sqlparser.c:1146-1151 | the text of a translated chain is the text of the chain with every @x renamed to :px, and that text is what the tokens are rewritten to one by one (`SqlRewrite.ChainWrites`) |
| SqlChain.UnderwayNext | sqlparser.c:1081-1262 | a comparison with its parentheses and its AND or OR, or a list without any, leaves the rest of the chain to be read |
| SqlChain.TranslationKeepsMeaning | sqlparser.c:978-1269 | under matching bindings a chain and its translation evaluate alike, parentheses, AND and OR included, for every meaning of comparisons and lists and all values |
| SqlChain.ChainRuleIff | sqlparser.c:1068-1128 | the rule of chains in closed form: a comparison with an IS at or before it has NULL or NOT, one without has no NOT, and a chain that ends with a list closes its parentheses |
| SqlRewrite.ChainWrites | sqlparser.c:978-1269 | rewriting the tokens of a spelled chain one by one, with no grammar, gives the text of the chain and the ) of an ON behind it |
| SqlRewrite.QueryWrites | sqlparser.c:1555-1799 | the same of a SELECT with its UNIONs: DISTINCT, fields, defines with aliases, joins, WHERE, HAVING, ORDER BY with DESC by default, FOR BROWSE ACCESS |
| SqlRewrite.UpdateWrites | sqlparser.c:2041-2209 | the same of an UPDATE with its SET list and WHERE |
| SqlRewrite.InsertWrites | sqlparser.c:1801-2039 | the same of an INSERT with its columns and values |
| SqlRewrite.ProcedureRewritten | sqlparser.c:2250-2447 | for a text that spells a procedure and nothing more, the text written for the statement is what the tokens of the whole text are rewritten to one by one |
| SqlReadBack.ChainProper | sqlparser.c:2497-2781 | in a chain the tokenizer reads, names, numbers, operators, AND and OR have texts that cannot be taken for each other |
| SqlReadBack.ChainDetermined | sqlparser.c:978-1269 | such chains that are written alike are the same chain |
| SqlReadBack.ProcedureReadsBack | sqlparser.c:978-1269 | what is written for a condition of a spelled procedure reads back as its translation and as nothing else |
| SqlStatementBack.ChainPrefix | sqlparser.c:978-1269 | where a chain ends shows in what is written: chains that the same pieces begin with are the same and so is what follows, the ) of a join included |
| SqlStatementBack.QueryDetermined | sqlparser.c:1555-1799 | SELECTs that are written alike have the same DISTINCT, fields, tables, joins and kinds of joins, WHERE, HAVING, sort fields with their effective directions and UNIONs |
| SqlStatementBack.StatementDetermined | sqlparser.c:2360-2420 | statements that are written alike are the same, SELECTs but for the names AS gives and a DESC left out |
| SqlStatementBack.StatementSpoken | sqlparser.c:2497-2781 | what the tokenizer reads for a spelled statement has texts that cannot be taken for each other |
| SqlStatementBack.StatementReadsBack | sqlparser.c:2250-2447 | two texts with the same translation, piece by piece, spell the same statement |
| SqlLaws.InOrderIff | sqlparser.c:1567 | the k-th placeholder has index k for all k iff all come from one activation |
| SqlLaws.ActivationsCollide | sqlparser.c:1567 | with placeholders of two activations two of them are bound to index 0 |
| SqlLaws.PlaceholdersAreBound | sqlparser.c:817-830 | with one activation the stored indices are exactly 0..n-1 once each, index k with the parameter the k-th :p names, every parameter's slots strictly increasing and then -1 |
| SqlLaws.ChainKeepsMeaning | sqlparser.c:1129-1161 | a translated chain means what the source chain means when the host variables are filled through the stored indices |
| SqlLaws.StatementKeepsMeaning | sqlparser.c:978-1269 | every ON, WHERE and HAVING condition of a spelled statement stands translated in the text written for it and selects there what it selects in the source |
| SqlLaws.TextKeepsMeaning | sqlparser.c:978-1269 | whatever chain is read from the pieces written for a condition of a spelled procedure selects what the source selects |
| SqlSites.StatementPresent | sqlparser.c:1271-1432 | every condition of a statement is in its text, its placeholders consecutive in the account |
| SqlSites.QueryInOrderIff | sqlparser.c:1567 | the placeholders of a SELECT are numbered in order iff at most one SELECT of its UNIONs has any |
| SqlSites.StatementBalance | sqlparser.c:1248-1250 | the ( that the text of a statement leaves open are those its conditions leave open |
| SqlLaws.TranslateProcedure | sqlparser.c:2250-2447 | an accepted SELECT whose text has no other SELECT and no UNION, and an accepted DELETE whose text has none, is numbered in order with every placeholder indexed; an accepted text without UNION and aggregates, an UPDATE without functions, leaves open exactly the ( it has more than ); a text that spells a procedure is accepted iff nothing follows, its conditions meet the rule and their variables are declared and used at most ten times each, and its translation is then what its tokens are rewritten to one by one, with the exact conditions for order and balance |
| SqlWords.LineReads | sqlparser.c:2497-2781 | a text made of words, signed numbers among them, is read back word by word, names before ( as functions |
| SqlExamples.IndicesCollide | sqlparser.c:1782-1796 | an accepted text with a UNION, two of whose placeholders are bound to index 0 |
| SqlExamples.ParenthesisLeftOpen | sqlparser.c:1248-1250 | an accepted text whose translation, given in full, leaves a ( open |
| SqlExamples.NotAfterIs | sqlparser.c:1105-1128 | after IS NULL the text with `c = NOT 1` is accepted, its translation given in full, and the one with `c = 1` is not |
| SqlExamples.ConditionAfterList | sqlparser.c:1076-1095 | behind a list the text with another condition is accepted, its translation given in full, and the one with AND and that condition is not |
| SqlQueryExample.QueryTranslated | sqlparser.c:1555-1799 | an accepted SELECT with DISTINCT, a LEFT JOIN, WHERE, HAVING and ORDER BY ASC, its translation given in full |
| Decimal.WriteColumn | splc/preparedstatement.c:977-1044 | the two digit loops and the reversal produce the written form for every integer and scale |
| Decimal.ExactRendering | splc/preparedstatement.c:984-1045 | the text is the sign iff negative, digits I, a point and exactly scale digits F (none for a negative scale), with val(I) * 10^places + val(F) = abs(data), I without leading zeros |
| Decimal.NoWholeDigits | splc/preparedstatement.c:1017-1023 | nothing is written before the point iff abs(data) < 10^scale |
| Decimal.RoundTrip | splc/preparedstatement.c:965-1048 | reading the text back gives the stored integer at every scale |
| Decimal.Injective | splc/preparedstatement.c:965-1048 | two integers never print alike at one scale |
| Decimal.Samples | splc/preparedstatement.c:965-1048 | five columns as they are written |
| Stats.RingIsWindow | splc/stats.c:76-85 | the slots in order are the last min(n, 500) calls, cut once and exchanged |
| Stats.SlotsUnmarked | splc/stats.c:76-81 | the loop reads all used slots iff no kept call has time -1 |
| Stats.SlotSums | splc/stats.c:82-84 | time and send sums equal those of the last min(n, 500) calls, the receive sum up to the open call's slot |
| Stats.ReportedIff | splc/stats.c:57-109 | when no kept call looks unused, the row is that of the last min(n, 500) completed calls iff no open call has overwritten the oldest's received length with another |
| Stats.SpoiledMean | splc/stats.c:35-39 | 500 calls and an open one for which the row is wrong |
| Stats.MeanBounds | splc/stats.c:88-105 | the average times the number of calls is their sum, and it lies between any bounds of theirs |
| Stats.TwoCalls | splc/stats.c:57-109 | the row after two calls, given in numbers |
| Stats.Statistics.Init | splc/stats.c:19-33 | an empty log |
| Stats.Statistics.BeginCall | splc/stats.c:35-39 | the log is unchanged and the next slot holds the received length |
| Stats.Statistics.EndCall | splc/stats.c:41-55 | the log grows by the call, begun or not; every slot still holds the latest call of its class; longest and shortest are the extremes of the whole log and their initial values |
| Stats.Statistics.WriteRecord | splc/stats.c:57-109 | the numbers of the row are those of the slots read before the first that looks unused |

## Left out

The machine

- NEW, CONSTRUCT, callConstructors and callInternalConstructors: vtables, instances and reference counts; the machine faults there.
- VmInterp.Interp.LeaveFrame: the nopop branch, which only constructors take.
- VmInterp.Interp.Call: callInstMethod with nopop set, which only constructors do.
- VmInterp.Interp.Step: a step of NEW or CONSTRUCT is a fault here and not made.
- VmRunLoop.RunSteps: a run that executes NEW or CONSTRUCT counts as one with a fault and is not covered.
- VmRunLoop.RunProgram: the same.
- Values: arithmetic, casts, strings and the contents of locals; a local is the slot it was allocated for, and LSHIFT, which shifts right in the source, is one more operation on abstract values.
- Natives are taken to leave the operand stack and the frames alone and to return neither IERR_EXCEPTION nor IERR_RETURN; none of the intrinsics does otherwise.
- A thrown pointer: the value that THROW puts in its place comes from the environment; the machine's transition has it, `VmRuns.ThrowUnwinds` speaks of other values.
- Allocation failures, memory debugging checks and the reference to the class in a frame.
- The containers (vectors, int16 arrays): not part of this model; a pop from an empty vector yields nothing and the high word of a 32-bit argument comes first.
- Whether a run ends: `_interp` may loop forever, so claims are about every finite run.

The translator

- Types and lengths of parameters, the position of the code and the text of error messages.
- A parameter declared twice: the later declaration is taken to win, the hash table is not part of this model.
- White space, letters and case are those of ASCII; the terminating zero of the C text is the end of the text.
- Placeholders in the SET list of UPDATE and in VALUES have no index in the source; they are counted apart.
- SqlTranslator.Translator.ParseCase: states the accounts, not the text written; CASE is no part of a spelled statement.
- SqlTranslator.Translator.ParseInList: a nested SELECT in the list keeps the accounts; its text is not stated, and it is no part of a spelled condition.
- SqlTranslator.Translator.ParseConditions: a condition with a nested SELECT, with a function (in HAVING) or with two '(' in a row keeps the accounts and is not spelled.
- SqlTranslator.Translator.ParseSelect: select items and sort items that are functions, CASE or literals keep the accounts; those of a spelled SELECT are fields.
- SqlTranslator.Translator.ParseInsert: values that are functions keep the accounts.
- SqlTranslator.Translator.ParseUpdate: an assignment from a function, with the token it skips, keeps the accounts.
- SqlSites.QueryInOrderIff: counts the SELECTs of a UNION; for a SELECT nested in an IN list, which counts from 0 as well, there is only `SqlLaws.InOrderIff` over the activations, and the text condition of `SqlLaws.TranslateProcedure` excludes it.
- Which error code an unaccepted text gets, and the names of the result columns, the system and the procedure: kept by the class as in the source, nothing is stated of them.
- `likepattern`, which the translator sets for a parameter compared by LIKE, and how its value is then filled in; the back-tick and TERMINATE of a pattern are read together as the pattern itself.

The renderer and the statistics

- Decimal.WriteColumn: the column name and the quotes around the number, the 64-byte buffer, and a platform where "%ld" does not print 64 bits.
- Stats.Statistics.EndCall: the clock is a parameter, ticks per second a constant, doubles are reals, and the call counter does not overflow.
- Stats.Statistics.WriteRecord: the text of the row; the literal 0 written for an empty mean is the number 0.

Not modelled: the array intrinsics (element addresses of multi-dimensional arrays can coincide), the
rewriting of procedure bodies, the statement manager, users, requests, sockets, HTTP, DES, the console
and the generated server.
