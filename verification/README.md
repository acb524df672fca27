# RivetLua: verified models

Dafny models of the parts of RivetLua, a Lua 5.4/5.5 compiler and virtual machine, whose
correctness rests on arguments that span many functions. Each model follows its source in
branches, constants and error conditions; walks, readers and parsers that change fields are
classes with the same fields, and their methods are proved against specification functions.

| files | what they model | main results |
|---|---|---|
| `Checked`, `Ast`, `AstTree`, `TokenYield`, `AstMeter`, `AstOwnership`, `ParseAdmission` | memory admission before parsing | the measured size is exactly that of the tree; the charge covers every tree that the tokens can yield, growth included |
| `ShapeEvents`, `ShapeWalk`, `ShapeTree`, `ShapeCounts`, `ShapePrefixes`, `ShapeSums`, `ResolveShape` | the scope-shape walks before resolving | every total is a count or a sum over the functions of the tree; the Lua 5.5 name walk is prepaid |
| `BudgetSink` | charges and stages of a compilation | success exactly within the totals; a stage runs exactly if everything up to its admission is paid |
| `ControlStack`, `Trampoline`, `TrampolineSafety`, `PcallRoots`, `CheckpointRuns` | the C checkpoint protocol as a step machine | safety of every jump of every run; exact errors, exits and yields; one owner per handler root |
| `Continuations`, `ContinuationFrames`, `ContinuationSteps`, `ContinuationRuns` | continuation records of `lua_callk` and `lua_pcallk` | every call consumes its own record; when a suspended call is found again |
| `CloseDriver` | closing to-be-closed slots | order, errors passed and result; it always ends, and exactly when it aborts |
| `NumberScan`, `FileLease` | host files with push-back and buffer | logical stream, exact number reading, conservation of written bytes |
| `Primes`, `Sha256` | the digest | equals FIPS 180-4, constants included |
| `JsonParse`, `JsonGrammar`, `JsonRoundTrip`, `JsonParser` | the grant file's JSON | accepts exactly its grammar; undoes printing |
| `NativeGrant` | grant entries and the module loader | load order and closure after any sequence of loads |
| `ChargedBytes`, `LoadSession` | the charged spool | contents, charges and linear copying |
| `ReleaseGraph` | release order and staging | a dependency order or a cycle; staging is never out of order |

`dafny verify dfyconfig.toml` checks the whole project.

What the outside world decides is a parameter or a nondeterministic choice: results of
functions in other files, allocation failures, refusals of a budget, short or failing reads
and writes, archive and index checks. Integers are unbounded except where the source's width
matters (`usize` sums, 64-bit JSON integers, `i64` offsets, 32-bit words).

Where the code and what its comments or documentation promise differ, the model follows the
code:

- `rivetlua_b7_close_drive` asks for the topmost slot again after its preparation failed, with
  the failure pushed on the Lua stack and the mark still set. A value that lost its `__close`
  method is therefore asked for until the stack is full, and the driver then aborts the process;
  `AlwaysEnds` says exactly when this happens and `MissingMethodAborts` after how many turns.
- The same driver removes the mark before the call of the handler reserves its checkpoint. If
  the handler's frame exactly fills a stack that cannot grow, it aborts (`ExactFitAborts`); if
  the checkpoint is refused only for the moment, the handler is never called, and an error is
  recorded in its place.
- A continuation record keeps the number of callback frames that were open when it was pushed.
  `resume_prepare_a5` renumbers the frames of a resumed coroutine but not its records. A
  coroutine that yielded across `lua_callk` or `lua_pcallk` therefore finds its record again if
  and only if it is resumed with as many callback frames open as before (`RecordIsFoundAgain`,
  `ResumeExample`); otherwise `lua_resume` does not call the continuation.
- In Lua 5.5 a prefix attribute (`local <const> a, b`) is cloned into every name of the list,
  although only one attribute token was read. The admission still covers the copies, because a
  name token owns a buffer of at least eight bytes that is charged four times over; the yield
  functions and the payment lemmas include this case.
- `read_number` reserves room for three pushed-back bytes. At most one is ever needed.
- The linear copying bound of `ChargedBytes::append` holds while the limit does not rise
  between calls, as in both of its callers. The condition is one-way: `RisingLimitsCopyMore`
  gives runs with a rising limit that break the bound, but not every rise does.

## Model

| member | source | states |
|---|---|---|
| `AstMeter.AstMeter.Block` | crates/rivetlua-compiler/src/budget.rs:431-437 | adds exactly the bytes of every heap block the block owns, or reports the overflow exactly when the sum leaves `usize` |
| `AstMeter.AstMeter.Statement` | crates/rivetlua-compiler/src/budget.rs:439-521 | the same for each of the statement forms |
| `AstMeter.AstMeter.Global` | crates/rivetlua-compiler/src/budget.rs:523-553 | the same for the Lua 5.5 `global` forms, with the attribute copies they hold |
| `AstMeter.AstMeter.Expression` | crates/rivetlua-compiler/src/budget.rs:555-617 | the same for each of the expression forms, boxes included |
| `AstOwnership.AstAllocationBytes` | crates/rivetlua-compiler/src/budget.rs:619-623 | the exact size of the whole tree, counted from its nodes (`TreeBytes`), or the overflow exactly when it exceeds `usize` |
| `AstTree.ExprUnique` | crates/rivetlua-compiler/src/ast.rs:154-215 | the plain tree of an expression loses nothing: different expressions have different trees |
| `AstTree.StmtUnique` | crates/rivetlua-compiler/src/ast.rs:17-102 | the same for statements |
| `AstTree.BlockUnique` | crates/rivetlua-compiler/src/ast.rs:11-15 | the same for blocks, and so for whole modules |
| `AstOwnership.OwnershipIsExact` | crates/rivetlua-compiler/src/budget.rs:555-617 | the blocks that the walk adds up are those of the tree: a box for each expression that is part of an expression, each vector's buffer once, and the capacity of every name and string |
| `AstOwnership.EveryExpressionHasAPlace` | crates/rivetlua-compiler/src/ast.rs:154-215 | every expression of a tree but the root is in exactly one place: boxes, lengths of the expression vectors and expressions in fields add up to the number of expressions |
| `AstOwnership.BlocksAreTree` | crates/rivetlua-compiler/src/budget.rs:619-623 | the bytes of the listed blocks are the boxes times the size of an expression, the buffers and the texts of the tree |
| `ParseAdmission.ParseTokenBounds` | crates/rivetlua-compiler/src/budget.rs:159-243 | the loop over the tokens computes the sum of what each token contributes to each bound, plus one for the root block, or reports overflow exactly when one of the sums leaves `usize` |
| `ParseAdmission.ParseAdmission` | crates/rivetlua-compiler/src/budget.rs:257-332 | the work and temporary memory charged, and the failure exactly when a token count, the node bound, the memory or the work leaves `usize`; no intermediate sum or product overflows earlier |
| `ParseAdmission.ExprPays` | crates/rivetlua-compiler/src/budget.rs:555-617 | for every class of bound: the tokens of an expression fund what the expression owns in that class and its place as an element of a list |
| `ParseAdmission.CallPays` | crates/rivetlua-compiler/src/budget.rs:579-596 | the same for calls, with the bare string and table argument that has no parentheses |
| `ParseAdmission.StmtPays` | crates/rivetlua-compiler/src/budget.rs:439-521 | the same for each statement form |
| `ParseAdmission.BlockPays` | crates/rivetlua-compiler/src/budget.rs:431-437 | the same for blocks and their statement vectors |
| `ParseAdmission.TreeIsPaid` | crates/rivetlua-compiler/src/budget.rs:159-243 | for every tree and every chunk with its token yield, every vector element, non-empty container, box and payload byte is covered by tokens of the right class |
| `ParseAdmission.TreeWithinCeiling` | crates/rivetlua-compiler/src/budget.rs:245-255 | with vectors that start at four and double, the bytes of any tree stay under the ceiling computed from its elements and containers |
| `ParseAdmission.CeilingWithinBounds` | crates/rivetlua-compiler/src/budget.rs:257-332 | that ceiling, for the tree of a chunk, is at most what the token counts admit |
| `ParseAdmission.VectorWithinElements` | crates/rivetlua-compiler/src/budget.rs:245-255 | no single vector is longer than the elements its family was admitted for |
| `ParseAdmission.AdmissionIsSound` | crates/rivetlua-compiler/src/budget.rs:257-332 | the whole tree fits in the temporary memory charged before parsing, also at any moment at which one of its vectors is growing and its old buffer is still alive |
| `ParseAdmission.AdmitThenMeasure` | crates/rivetlua-compiler/src/budget.rs:366-377 | admission followed by re-measurement: after an accepted admission the measurement neither overflows nor exceeds the charge |
| `Checked.GrownCapacityBound` | crates/rivetlua-compiler/src/budget.rs:245-255 | a vector filled by pushes that start at four and double has a capacity between its length and twice its length plus two |
| `ShapeWalk.FoldIsAtLevel` | crates/rivetlua-compiler/src/budget.rs:835-1070 | at any point of a function the counters are the bindings and key bytes declared so far at its own level, and its name table lists the names mentioned there |
| `ShapeWalk.InheritedSums` | crates/rivetlua-compiler/src/budget.rs:761-768 | for any body, the three inherited sums grow by the number, the squares and the key bytes of the enclosing bindings counted before each nested function, at every depth |
| `ShapeWalk.OwnIgnoresBodies` | crates/rivetlua-compiler/src/budget.rs:756-833 | what a function declares itself does not depend on the bodies of the functions nested in it |
| `ShapeWalk.PrefixesSplit` | crates/rivetlua-compiler/src/budget.rs:756-833 | the terms of a body split into those before a nested function, its own and those after it |
| `ShapeWalk.SiblingsAreIndependent` | crates/rivetlua-compiler/src/budget.rs:761-768 | replacing the body of one nested function changes no term of a function before it, none after it, and not its own first term |
| `ShapeWalk.OutsideIsIndependent` | crates/rivetlua-compiler/src/budget.rs:756-833 | the same at any depth: the terms of a module are those before a function, those inside its body and those after it, and the outer two do not depend on the body |
| `ShapeWalk.FoldIsOnward` | crates/rivetlua-compiler/src/budget.rs:699-712 | whatever a function does, what the functions around it hold is unchanged and the totals only grow |
| `ShapeWalk.FoldKeepsPrepaid` | crates/rivetlua-compiler/src/budget.rs:975-1018 | at every point of the name walk: per function at most R*R probes and R*B compared bytes; over all open functions at most four handles per reference and the bytes of the reference names |
| `ShapeWalk.WalksAgree` | crates/rivetlua-compiler/src/budget.rs:1286-1307 | both Lua 5.5 walks count the same references, name bytes and scan work |
| `ShapeWalk.NameWalkIsPrepaid` | crates/rivetlua-compiler/src/budget.rs:1290-1307 | the second walk stays within the work, handles and bytes that were charged from the first |
| `ShapeTree.ExprShape` | crates/rivetlua-compiler/src/budget.rs:968-1070 | the events of an expression are those of its nodes in preorder, a function's kept apart |
| `ShapeTree.StmtShape` | crates/rivetlua-compiler/src/budget.rs:844-966 | the same for every statement form |
| `ShapeTree.BlockShape` | crates/rivetlua-compiler/src/budget.rs:835-842 | the same for blocks, and so for whole modules |
| `ShapeCounts.ModuleCounts` | crates/rivetlua-compiler/src/budget.rs:835-1070 | eleven counters of a module as counts in its tree: functions with the root, variables, declared names with hidden ones and `self`, blocks, labels, gotos, close paths, generic loops, and the bytes of names, literals and variables |
| `ShapePrefixes.InheritedSumsOfModule` | crates/rivetlua-compiler/src/budget.rs:756-768 | the three inherited sums are sums over the functions of the tree of what the functions around each of them have bound by the time the walk reaches it |
| `ShapeSums.SumsOfModule` | crates/rivetlua-compiler/src/budget.rs:756-833 | close-path pairs, key lookups, compared bytes, scan work and depth are sums and a maximum over the functions of the tree, from what is visible to each and its own nodes |
| `ResolveShape.ResolveShape.Known` | crates/rivetlua-compiler/src/budget.rs:988-991 | the scan finds a name exactly if the table holds it, with the number of probes and compared bytes the cost model charges |
| `ResolveShape.ResolveShape.NameReference` | crates/rivetlua-compiler/src/budget.rs:975-1018 | one name reference advances the walk by exactly that event, or reports the overflow of a counter |
| `ResolveShape.ResolveShape.OpenFunction` | crates/rivetlua-compiler/src/budget.rs:761-798 | adding the prefix to the sums with checked arithmetic, clearing each counter and replacing the name table is opening a function, or the overflow is reported exactly when a counter leaves `usize` |
| `ResolveShape.ResolveShape.FinishKeyWork` | crates/rivetlua-compiler/src/budget.rs:681-714 | the key work and the prepayment for name scans, or the overflow exactly when one of them leaves `usize` |
| `ResolveShape.ResolveShape.NestedFunction` | crates/rivetlua-compiler/src/budget.rs:756-833 | saving ten counters and the name table, clearing them, walking parameters and body and putting them back one by one is one nested event of the walk, and every per-function counter and the name table are as before |
| `ResolveShape.ResolveShape.Block` | crates/rivetlua-compiler/src/budget.rs:835-842 | walking a block folds its events in order |
| `ResolveShape.ResolveShape.Statement` | crates/rivetlua-compiler/src/budget.rs:844-967 | walking a statement folds its events in order |
| `ResolveShape.ResolveShape.Expression` | crates/rivetlua-compiler/src/budget.rs:969-1070 | walking an expression folds its events in order |
| `ResolveShape.MeasureShape` | crates/rivetlua-compiler/src/budget.rs:1283-1307 | the shape stage succeeds exactly if no counter and no charge leaves `usize`; in Lua 5.5 the work and the name tables of the second walk, growing buffers included, stay within the charges computed from the first; all totals are those of the tree |
| `BudgetSink.SucceedsExactlyWithinTotals` | crates/rivetlua-compiler/src/budget.rs:45-54 | a compilation succeeds on a counting sink exactly if no stage fails and each limit covers the total of its kind |
| `BudgetSink.NoStageAfterRefusal` | crates/rivetlua-compiler/src/budget.rs:45-54 | the stages that ran are those before the step that ended the run; the refused charge is the first that does not fit |
| `BudgetSink.ChargesAreConserved` | crates/rivetlua-compiler/src/budget.rs:45-54 | what is left plus what the executed steps asked for is the limit, for each kind |
| `BudgetSink.TotalsAreLeastLimits` | crates/rivetlua-compiler/src/budget.rs:2880-2912 | if a compilation succeeds without limits, the totals are exactly the limits needed, and the same stages run |
| `BudgetSink.StepsFailWithStages` | crates/rivetlua-compiler/src/budget.rs:2889-2911 | the steps of a list of stages contain a failure exactly if some stage fails |
| `BudgetSink.BillIsTotal` | crates/rivetlua-compiler/src/budget.rs:2889-2896 | work, temporary and retained totals of the pipeline, stage by stage, with numeral conversions charged while scanning and the name walk only in Lua 5.5 |
| `BudgetSink.SucceedsExactlyOnBill` | crates/rivetlua-compiler/src/budget.rs:2880-2912 | the pipeline succeeds under given limits exactly if its stages do, from the length check before the first charge to the emission, and the limits cover its bill |
| `BudgetSink.StagesInOrder` | crates/rivetlua-compiler/src/budget.rs:2880-2912 | the stages that run are an initial segment, and a stage runs if and only if all before it succeed and the limits cover every charge up to and including its own admission |
| `BudgetSink.StagesEnd` | crates/rivetlua-compiler/src/budget.rs:2880-2912 | a run ends after the last stage, with the verdict of the last stage that ran, or at the first charge that is too much |
| `BudgetSink.StageRunsIfPaid` | crates/rivetlua-compiler/src/budget.rs:2880-2912 | the same for the stages of a compilation |
| `BudgetSink.ParserIsAdmitted` | crates/rivetlua-compiler/src/budget.rs:366-369 | the parser runs exactly if the scanner succeeded and both admissions and the numerals are covered |
| `BudgetSink.EmissionIsAdmitted` | crates/rivetlua-compiler/src/budget.rs:2893-2896 | the last stage runs exactly if all others succeeded and the whole bill is covered |
| `BudgetSink.Compile` | crates/rivetlua-compiler/src/budget.rs:2880-2912 | running the steps against a sink object gives that outcome, the stages in order up to the first refusal or failure, and the remaining limits |
| `BudgetSink.Meter.Pay` | crates/rivetlua-capi/src/load.rs:250-267 | a charge is taken exactly if enough is left, and changes nothing otherwise |
| `BudgetSink.Meter.PayOn` | crates/rivetlua-capi/src/load.rs:229-267 | memory is also charged to the machine; when the machine refuses, the meter stays reduced and the machine is not charged |
| `TrampolineSafety.GuardIsGranted` | crates/rivetlua-capi/src/trampoline.c:473-480 | the Rust bridge is never refused its guard: it runs directly on the innermost checkpoint, whose flag is off |
| `TrampolineSafety.GuardIsReturned` | crates/rivetlua-capi/src/trampoline.rs:162-171 | nor is it refused when it gives the guard back after any nested calls |
| `TrampolineSafety.ExitKeeps` | crates/rivetlua-capi/src/stack.rs:9440-9472 | leaving a driver: Rust accepts the token, and both thread-local pointers are again what the checkpoint saved |
| `TrampolineSafety.ScanMeaning` | crates/rivetlua-capi/src/trampoline.c:1796-1804 | the walk of a yield reaches its target exactly if every checkpoint above belongs to the state, is yieldable and has its flag off; it has then counted exactly these |
| `TrampolineSafety.YieldLandingKeeps` | crates/rivetlua-capi/src/stack.rs:9474-9504 | rewinding to the resume target is accepted, and pointers, stack and token chain agree afterwards |
| `PcallRoots.NothingAbandonedByRaise` | crates/rivetlua-capi/src/trampoline.c:2063-2152 | an error or terminal jump abandons no activation of `lua_pcallk` that still owns its handler root |
| `PcallRoots.AbandonedByYieldIsRecorded` | crates/rivetlua-capi/src/trampoline.c:2063-2152 | a yield abandons an activation only if its continuation record was registered |
| `PcallRoots.LandKeepsRoots` | crates/rivetlua-capi/src/trampoline.c:2063-2152 | cutting the stack back to a checkpoint leaves every root with one owner |
| `CheckpointRuns.StepKeeps` | crates/rivetlua-capi/src/trampoline.c:459-602 | every enabled step, with any result of the functions it calls, keeps the invariant: links, tokens and roots |
| `CheckpointRuns.RunIsSafe` | crates/rivetlua-capi/src/trampoline.c:142-155 | in every run and at every moment the thread-local chain lists exactly the live checkpoints, innermost first; the resume top is empty or the innermost live `lua_resume` checkpoint; Rust's per-state counters agree |
| `CheckpointRuns.JumpIsSafe` | crates/rivetlua-capi/src/trampoline.c:517-522 | an error, yield or terminal jump lands on an armed driver that becomes the top; no flag is set at the target or a skipped checkpoint and no Rust frame is discarded |
| `CheckpointRuns.JumpsInRunsAreSafe` | crates/rivetlua-capi/src/trampoline.c:473-522 | the same for every jump of every run |
| `CheckpointRuns.RaiseIsExact` | crates/rivetlua-capi/src/trampoline.c:1163-1174 | an error jumps with code 1 to the innermost driver exactly if that driver is the state's, its guard is off and the pending error matches; otherwise the process halts with everything unchanged |
| `CheckpointRuns.TerminalIsExact` | crates/rivetlua-capi/src/trampoline.c:517-522 | a terminal exit jumps with code 3 exactly under the same condition without the pending error; otherwise nothing changes |
| `CheckpointRuns.RootsInRunsHaveOneOwner` | crates/rivetlua-capi/src/trampoline.c:2063-2152 | in every run each error-handler root handed out has exactly one owner: a live activation, one continuation record, or it was released once |
| `CheckpointRuns.DriversAreBalanced` | crates/rivetlua-capi/src/trampoline.c:523-602 | an activation of any driver, also one that `lua_pcallk` starts for its function or its handler, that returns puts both pointers back to what they were before it was entered, whatever happened above it, and Rust accepts its token |
| `CheckpointRuns.RegisteringHandsOver` | crates/rivetlua-capi/src/trampoline.c:2076-2098 | inside a coroutine of its state an activation of `lua_pcallk` hands its root to a record, or releases it without calling the function |
| `CheckpointRuns.FunctionIsCalled` | crates/rivetlua-capi/src/trampoline.c:2100 | the function is called through a driver that can be yielded across exactly if a record owns the root |
| `CheckpointRuns.HandlerIsCalled` | crates/rivetlua-capi/src/trampoline.c:2105-2126 | after a settled failure with a pushed handler the handler is called, through a driver that cannot be yielded across, and the root stays |
| `CheckpointRuns.ResultReleases` | crates/rivetlua-capi/src/trampoline.c:2109-2152 | every other result releases the root exactly once and lets the activation return |
| `CheckpointRuns.ActivationsInRunsAdvance` | crates/rivetlua-capi/src/trampoline.c:2063-2152 | in every run an activation keeps its root and its phases only move on, so function and handler are called at most once, in this order |
| `CheckpointRuns.YieldIsExact` | crates/rivetlua-capi/src/trampoline.c:1789-1817 | `lua_yieldk` jumps exactly if the boundary of its state is 1, no Rust action is active up to the target, the result count is not negative and the prepare step succeeds; it lands on the resume target, and other states keep their tokens |
| `CheckpointRuns.YieldBoundary` | crates/rivetlua-capi/src/trampoline.c:158-170 | the two walks compute the boundary: 1, 0 or -1 |
| `CheckpointRuns.HasCheckpoint` | crates/rivetlua-capi/src/trampoline.c:162-166 | finds a checkpoint of the state exactly if one is live |
| `CheckpointRuns.CrossesOnlyYieldable` | crates/rivetlua-capi/src/trampoline.c:167-169 | holds exactly if every checkpoint above the target belongs to the state and is yieldable |
| `CheckpointRuns.SkippedByYield` | crates/rivetlua-capi/src/trampoline.c:1794-1802 | the loop counts exactly the checkpoints above the resume target |
| `ContinuationFrames.OwnRecordOnTop` | crates/rivetlua-capi/src/stack.rs:1613-1654 | whenever the innermost frame is a registered call, the topmost record of its state is its own |
| `ContinuationSteps.StepTracks` | crates/rivetlua-capi/src/trampoline.c:2063-2200 | every step keeps, for each state, the records of its live calls as the topmost ones in order, each with the callback depth at which its call was made |
| `ContinuationSteps.MoveKeeps` | crates/rivetlua-capi/src/stack.rs:1557-1654 | every move, also taking off an abandoned record, keeps that and the correspondence of records and handler roots |
| `ContinuationRuns.OwnRecordIsConsumed` | crates/rivetlua-capi/src/trampoline.c:2100-2152 | in every history, whenever `lua_pcallk` consumes a record the topmost one of its state has its root and the current callback depth, so exactly that one is popped |
| `ContinuationRuns.CallkRecordIsConsumed` | crates/rivetlua-capi/src/trampoline.c:2180-2196 | the same for `lua_callk` |
| `ContinuationRuns.RecordsHoldTheRoots` | crates/rivetlua-capi/src/stack.rs:1590-1609 | in every history a root is recorded exactly if it is in a record, and never in two |
| `ContinuationRuns.DiscardsAreOfAbandoned` | crates/rivetlua-capi/src/trampoline.c:1925-1969 | what `lua_resume` or a reset takes off is never the record of a live call, and taking it off always succeeds |
| `ContinuationRuns.YieldLeavesRecord` | crates/rivetlua-capi/src/stack.rs:1672-1753 | a yield across a call leaves that call's record on top, with a depth one less than at the yield |
| `ContinuationRuns.RecordIsFoundAgain` | crates/rivetlua-capi/src/stack.rs:1806-1853 | the record of a call that was yielded across is found after the coroutine is resumed if and only if it is resumed with as many callback frames open as before |
| `ContinuationRuns.ResumeExample` | crates/rivetlua-capi/src/stack.rs:1829-1838 | one coroutine, resumed a second time by the host or by a C function: the record is found in the first case and not in the second |
| `CloseDriver.TurnsAreConsistent` | crates/rivetlua-capi/src/trampoline.c:732-764 | after any number of turns: slots were taken off topmost first, each handler got the latest error, and the handlers called are those of the taken slots whose checkpoint was granted; taken plus still pending slots are those to close; the stack has grown by one value for each error |
| `CloseDriver.TurnIsCaused` | crates/rivetlua-capi/src/trampoline.c:716-731 | every error in a trace has its cause: the class of a failed handler stands directly after the call of that handler, all others carry the class recorded at their place |
| `CloseDriver.TurnKeepsLastClass` | crates/rivetlua-capi/src/trampoline.c:736-764 | the class that the run ends with is the one read off the slots to close and the class at entry, at every turn |
| `CloseDriver.AlwaysEnds` | crates/rivetlua-capi/src/trampoline.c:732-764 | for any slots, handler outcomes and allocation failures the loop ends, within one turn for each mark and each free stack place and one more; it aborts if and only if a slot it reaches has no `__close` method, or its frame and the place of its call's checkpoint do not fit above the errors recorded before |
| `CloseDriver.MissingMethodAborts` | crates/rivetlua-capi/src/stack.rs:4476-4484 | a value without a `__close` method on top: as many turns as there are free stack places, then the abort, with its mark still set |
| `CloseDriver.ExactFitAborts` | crates/rivetlua-capi/src/stack.rs:9419-9437 | a handler frame that exactly fills a stack that cannot grow: the checkpoint and then its error find no place, and the driver aborts in that turn with the mark gone and no handler called |
| `CloseDriver.StorageTurnIsTurn` | crates/rivetlua-capi/src/stack.rs:969-1035 | a turn that asks the storage for each place where the program does, growing it by doubling up to the limit and the one place beyond, is the turn that compares with the ceiling, and keeps the ceiling |
| `CloseDriver.EndsFromCapacity` | crates/rivetlua-capi/src/stack.rs:969-1035 | the abort condition for runs over the storage, from the capacity at entry and the memory there is |
| `CloseDriver.CeilingIsDoubled` | crates/rivetlua-capi/src/stack.rs:982-990 | the ceiling is the capacity doubled until the next doubling is refused, or the limit and one place more |
| `CloseDriver.LimitDecides` | crates/rivetlua-capi/src/stack.rs:969-1035 | with memory for the whole stack the ceiling is one place beyond the limit, and a handler can be called exactly if its frame ends at or below the limit |
| `CloseDriver.CloseDrive` | crates/rivetlua-capi/src/trampoline.c:732-778 | for any slots: aborts exactly under the condition of `AlwaysEnds`; exits exactly if a called handler does; otherwise each value slot at or above the target is taken off once, in reverse order, and its handler called with the latest error unless its checkpoint is refused; the result is the negated class of the last error, read off the slots, or 0; slots below stay, and the stack is trimmed exactly if there is an error |
| `CloseDriver.CloseOneSlot` | crates/rivetlua-capi/src/trampoline.c:2343-2351 | the single-slot mode: the mark goes exactly if the topmost mark is the wanted slot and its preparation succeeds at once; 0 exactly if nothing failed, otherwise the negated class of what failed; aborts exactly if an error, or the checkpoint of a prepared handler, finds no place |
| `NumberScan.AcceptedIsNumeral` | crates/rivetlua-cli/src/trusted_host.rs:629-746 | what the scan accepts is a well-formed decimal or hexadecimal numeral that ends there |
| `NumberScan.NumeralIsAccepted` | crates/rivetlua-cli/src/trusted_host.rs:629-746 | every numeral that the next byte cannot continue is taken whole |
| `NumberScan.ScanIsExact` | crates/rivetlua-cli/src/trusted_host.rs:629-746 | the scan takes and accepts `k` bytes if and only if they are a numeral that ends there |
| `FileLease.Lease.PutBack` | crates/rivetlua-cli/src/trusted_host.rs:580-591 | shifts the pushed-back bytes and puts one in front of the logical stream; refused exactly when three are there |
| `FileLease.Lease.ReadOne` | crates/rivetlua-cli/src/trusted_host.rs:598-612 | takes the first byte of the logical stream, or says that it is empty |
| `FileLease.Lease.ReadChunk` | crates/rivetlua-cli/src/trusted_host.rs:614-627 | takes a prefix of the logical stream, empty only at its end |
| `FileLease.Lease.ReturnByte` | crates/rivetlua-cli/src/trusted_host.rs:672-679 | every push-back of the number reader is accepted |
| `FileLease.Lease.ReadExponent` | crates/rivetlua-cli/src/trusted_host.rs:697-732 | exponent mark, sign and digits are taken together, or the mark and sign without digits and the byte after them is returned to the stream |
| `FileLease.Lease.ReadBody` | crates/rivetlua-cli/src/trusted_host.rs:684-740 | the mantissa loop takes exactly the bytes of the scan and keeps them |
| `FileLease.Lease.ReadNumber` | crates/rivetlua-cli/src/trusted_host.rs:629-746 | skips white space and takes exactly the bytes of the scan; returns them if accepted and at most 200; never refused a push-back |
| `FileLease.NumberIsNumeral` | crates/rivetlua-cli/src/trusted_host.rs:629-746 | a number returned is, after white space, exactly the bytes taken, and a numeral of at most 200 bytes |
| `FileLease.NumeralIsRead` | crates/rivetlua-cli/src/trusted_host.rs:629-746 | conversely every such numeral that ends before the rest is returned |
| `FileLease.Lease.Read` | crates/rivetlua-cli/src/trusted_host.rs:808-910 | each format returns and leaves what it means (count, line with or without its newline, all, number); a failed read has only advanced; the stream stays the file's content from the logical position on |
| `FileLease.Lease.FlushBuffer` | crates/rivetlua-cli/src/trusted_host.rs:758-780 | against a sink that writes short or fails, delivered bytes followed by the buffer stay the same, and success empties the buffer |
| `FileLease.Lease.Write` | crates/rivetlua-cli/src/trusted_host.rs:912-958 | delivered bytes followed by the buffer are all bytes taken, in order; which prefix of this write was taken is exact for success, reported partial writes and flush failures reported as such; a successful write leaves in the buffer exactly what its mode keeps and has room for |
| `FileLease.Lease.Flush` | crates/rivetlua-cli/src/trusted_host.rs:987-999 | on success everything taken has been delivered |
| `FileLease.Lease.SetVBuf` | crates/rivetlua-cli/src/trusted_host.rs:1048-1076 | sets the mode after a flush, never shrinks the capacity and never loses a byte |
| `FileLease.Lease.Seek` | crates/rivetlua-cli/src/trusted_host.rs:960-985 | a relative seek moves the logical position by exactly the offset, the others to the position named; denied only for a negative start, an offset below `i64` or no file, and such a seek always fails; a failed seek keeps the pushed-back byte |
| `Sha256.BigEndianRoundTrip` | crates/rivetlua-core/src/digest.rs:62-67 | the bytes written for the bit length have that value |
| `Primes.SmallPrimesAreConsecutive` | crates/rivetlua-core/src/digest.rs:1-10 | the table of primes starts with 2, holds primes only, and each entry is the least prime after the one before |
| `Sha256.RoundConstantsAreRootBits` | crates/rivetlua-core/src/digest.rs:1-10 | each round constant is the first 32 bits of the fractional part of the cube root of its prime (section 4.2.2 of FIPS 180-4) |
| `Sha256.InitialWordsAreRootBits` | crates/rivetlua-core/src/digest.rs:54-57 | each initial word is the same for square roots (section 5.3.3) |
| `Sha256.RotationIsShifts` | crates/rivetlua-core/src/digest.rs:21-33 | machine rotation is the two shifts of section 3.2 |
| `Sha256.ZeroBitsAreFewest` | crates/rivetlua-core/src/digest.rs:62-66 | the number of zero bits is the smallest that section 5.1.1 allows |
| `Sha256.FillSchedule` | crates/rivetlua-core/src/digest.rs:13-25 | the word array is the message schedule W of section 6.2.2 |
| `Sha256.ShiftIsRound` | crates/rivetlua-core/src/digest.rs:27-46 | one shift of the eight-word array is one a..h update |
| `Sha256.Sha256Block` | crates/rivetlua-core/src/digest.rs:12-50 | the new state is the compression of the old state with the block |
| `Sha256.LastBlocks` | crates/rivetlua-core/src/digest.rs:62-67 | tail, 0x80, zeros and length fill exactly the last one or two blocks of the padded message |
| `Sha256.FillLastBlocks` | crates/rivetlua-core/src/digest.rs:62-67 | the 128-byte buffer holds the end of the padded message |
| `Sha256.WriteDigest` | crates/rivetlua-core/src/digest.rs:71-75 | the output is the eight words as big-endian bytes |
| `Sha256.Sha256Bytes` | crates/rivetlua-core/src/digest.rs:52-76 | the digest of FIPS 180-4 for every message whose bit length fits in 64 bits, and none for any other |
| `JsonGrammar.PiecesAreRead` | crates/rivetlua-cli/src/native_grant.rs:581-642 | every string of plain characters, short escapes, `\u` escapes and surrogate pairs is read as what it denotes |
| `JsonGrammar.TreeIsRead` | crates/rivetlua-cli/src/native_grant.rs:498-510 | every value written with any spaces and escapes, within the limits, is read as its meaning |
| `JsonGrammar.MembersAreRead` | crates/rivetlua-cli/src/native_grant.rs:512-551 | the same for the members of an object, with distinct names and at most 32 |
| `JsonGrammar.ItemsAreRead` | crates/rivetlua-cli/src/native_grant.rs:553-579 | the same for the items of an array, at most 1024 |
| `JsonGrammar.CharsHavePieces` | crates/rivetlua-cli/src/native_grant.rs:581-666 | every string accepted is such a sequence of characters and escapes |
| `JsonGrammar.ValueHasTree` | crates/rivetlua-cli/src/native_grant.rs:498-510 | every value accepted is the text of a valid tree with that meaning |
| `JsonGrammar.FieldsHaveTrees` | crates/rivetlua-cli/src/native_grant.rs:512-551 | the same for the fields of an object |
| `JsonGrammar.ItemsHaveTrees` | crates/rivetlua-cli/src/native_grant.rs:553-579 | the same for the items of an array |
| `JsonRoundTrip.ParseIsExact` | crates/rivetlua-cli/src/native_grant.rs:470-479 | a text is accepted as a value if and only if the grammar derives the whole text with that meaning |
| `JsonRoundTrip.AcceptedIsWellFormed` | crates/rivetlua-cli/src/native_grant.rs:470-693 | an accepted text is consumed fully; its value has no repeated name at any depth and keeps the limits of depth, fields, items and 64-bit integers |
| `JsonRoundTrip.ReadingIsUnique` | crates/rivetlua-cli/src/native_grant.rs:470-479 | no text has two readings |
| `JsonRoundTrip.PairIsInverted` | crates/rivetlua-cli/src/native_grant.rs:612-627 | decoding the surrogate pair of a character gives that character (section 7 of RFC 8259) |
| `JsonRoundTrip.PairIsOnlyOne` | crates/rivetlua-cli/src/native_grant.rs:612-627 | and every surrogate pair is the pair of the character it decodes to |
| `JsonRoundTrip.ParseUndoesPrint` | crates/rivetlua-cli/src/native_grant.rs:470-693 | parsing undoes printing for every value within the limits |
| `JsonParser.Parser.ReadQuad` | crates/rivetlua-cli/src/native_grant.rs:652-666 | four hexadecimal digits and their value, or an error |
| `JsonParser.Parser.ReadUnicode` | crates/rivetlua-cli/src/native_grant.rs:611-633 | one escape or a surrogate pair; lone surrogates are errors |
| `JsonParser.Parser.ReadString` | crates/rivetlua-cli/src/native_grant.rs:581-642 | copying in chunks computes the decoded string and the place after the closing quote, or reports the error |
| `JsonParser.Parser.ReadNumber` | crates/rivetlua-cli/src/native_grant.rs:668-692 | the decimal value without leading zeros, at most 64 bits, or an error |
| `JsonParser.Parser.ReadValue` | crates/rivetlua-cli/src/native_grant.rs:498-510 | computes the specified value and end, or the error, and ends on every input |
| `JsonParser.Parser.ReadObject` | crates/rivetlua-cli/src/native_grant.rs:512-551 | the field loop computes the specified fields |
| `JsonParser.Parser.ReadArray` | crates/rivetlua-cli/src/native_grant.rs:553-579 | the item loop computes the specified items |
| `JsonParser.ParseText` | crates/rivetlua-cli/src/native_grant.rs:470-479 | the parser object agrees with the specification on every text |
| `NativeGrant.ExactFieldsAreComplete` | crates/rivetlua-cli/src/native_grant.rs:391-414 | since names do not repeat, equal counts and known names imply that every expected field is present, so no lookup after `exact_fields` fails |
| `NativeGrant.ReadExports` | crates/rivetlua-cli/src/native_grant.rs:255-267 | accepts exactly between one and 64 distinct valid symbols |
| `NativeGrant.ReadDependencies` | crates/rivetlua-cli/src/native_grant.rs:268-282 | accepts exactly at most 16 distinct paths of earlier modules |
| `NativeGrant.ParseModule` | crates/rivetlua-cli/src/native_grant.rs:215-292 | accepts exactly the entries that meet all conditions, and yields their path, exports and dependencies |
| `NativeGrant.ParseModules` | crates/rivetlua-cli/src/native_grant.rs:150-158 | an accepted module list has unique paths and dependencies only on earlier modules; a refusal is due to the count or to the first unacceptable entry |
| `NativeGrant.LoadedIsClosed` | crates/rivetlua-cli/src/lib.rs:308-357 | a loaded list in order holds, with a module, everything that module needs, directly or not |
| `NativeGrant.Bridge.EnsureLoaded` | crates/rivetlua-cli/src/lib.rs:308-357 | succeeds exactly if every needed module that is not loaded yet can be opened; after any outcome the list keeps its order, only needed modules were added, and what was loaded stays |
| `NativeGrant.Bridge.LoadOpener` | crates/rivetlua-cli/src/lib.rs:359-400 | succeeds exactly for a granted path with an exported symbol whose needed modules open and whose symbol is bound |
| `ChargedBytes.Buffer.Grow` | crates/rivetlua-capi/src/load.rs:187-213 | charges the new storage before the old charge goes; on any failure nothing has changed and nothing stays charged |
| `ChargedBytes.Buffer.Append` | crates/rivetlua-capi/src/load.rs:177-217 | appends everything or changes nothing; charges held equal capacity; refused with the budget fault exactly beyond the limit; always accepted if it fits |
| `ChargedBytes.ContentsAreAccepted` | crates/rivetlua-capi/src/load.rs:177-217 | for any sequence of appends and failures the contents are the accepted parts in order |
| `ChargedBytes.CopyingIsLinear` | crates/rivetlua-capi/src/load.rs:187-189 | regrowing copies nothing or less than twice the final length, for any sequence in which the limit does not rise; the condition is sufficient, not necessary |
| `ChargedBytes.RisingLimitsCopyMore` | crates/rivetlua-capi/src/load.rs:187-189 | with a limit that rises by one each time, n one-byte appends copy n(n-1)/2 bytes, so the bound needs that condition |
| `LoadSession.Session.Append` | crates/rivetlua-capi/src/load.rs:310-326 | counts chunks and work, which stay spent on refusal; stored bytes never exceed the work paid; copying stays linear because the limit is fixed |
| `LoadSession.Session.PreprocessFile` | crates/rivetlua-capi/src/load.rs:328-347 | moving in place removes the byte order mark and replaces a first line starting with `#` by a newline |
| `LoadSession.LinesKeepTheirNumbers` | crates/rivetlua-capi/src/load.rs:328-347 | the number of newlines is unchanged, except that a lone `#` line without an end gains one |
| `ReleaseGraph.LinksOf` | xtask/p24/release.py:106-120 | accepts exactly the manifests whose path dependencies are internal and whose other dependencies are not, and yields the sorted packages of its path dependencies; otherwise the first fault in table order |
| `ReleaseGraph.Visitor.Visit` | xtask/p24/release.py:123-132 | a failed visit has found a cycle; a successful one has put the package after everything it links to |
| `ReleaseGraph.OrderExcludesCycles` | xtask/p24/release.py:121-136 | a complete order with dependencies first excludes every cycle |
| `ReleaseGraph.ReleaseList` | xtask/p24/release.py:101-136 | returns each package once with every path dependency before its dependent; reports a cycle if and only if the links, all valid, contain one |
| `ReleaseGraph.ReleaseIsThreeNumbers` | xtask/p24/release.py:161-161 | the version pattern matches exactly three decimal numbers with dots between them |
| `ReleaseGraph.FillPackage` | xtask/p24/release.py:147-151 | inherited fields take the workspace's value, everything else stays |
| `ReleaseGraph.StagedHasNoPaths` | xtask/p24/release.py:154-168 | no path is left in a staged manifest; each path dependency is pinned to the ready version in the staging registry; other entries stay |
| `ReleaseGraph.StageManifest` | xtask/p24/release.py:139-169 | stages package and tables, or fails with exactly the first fault in the order of the checks; a dependency is reported as not ready only if a path dependency really is not |
| `ReleaseGraph.StaticClosure` | xtask/p24/release.py:849-879 | the not-ready error can never occur, and all packages end with a released version |

## Left out

- The lexer, parser, resolver, code generator and interpreter: only the token yield of the grammar, the functions' results and the checkpoint and close-mark functions of `stack.rs` appear.
- Work formulas of the admissions: the units per token and per byte count code that is not modelled, so the rates are parameters.
- ChargedBytes.CopyingIsLinear: one direction only; which rising limits still keep the bound is not characterised.
- The admissions and re-measurements after resolving (`resolve_admission`, `LowerShape`, `lower_admission`, `candidate_upper`, `emit_admission`): their figures are parameters of the compilation model.
- ParseAdmission.AdmitThenMeasure: the charge to the sink is part of the compilation model, and the count of syntax nodes, which the parser checks itself, is not modelled.
- ResolveShape.ResolveShape.NameReference: allocation failure of the name table, which the source reports as an admission overflow, is not modelled.
- ResolveShape.MeasureShape: the same, and the charges between the walks are part of the compilation model.
- The Lua 5.5 self-close fixture and the other `rivetlua_capi_test_*` entry points: test-only jump paths.
- `lua_callk`, `lua_closethread` and the gc driver as separate functions: they are drivers of the same kind in the step machine.
- ContinuationRuns.RecordIsFoundAgain: that Rust's own consistency checks hold (callback frames of the right owner, drivers leaving with the callback frames they found) is assumed; what happens in a coroutine after its record was not found is not followed.
- Cleanup of load, dump and `requiref` sessions after a terminal jump that leaves an enclosing frame.
- CloseDriver.CloseDrive: which attempts and which checkpoints meet an allocation failure, and whether a value has its `__close` method when the driver comes to it, are inputs; a live checkpoint of the state is assumed, as in all uses of the driver.
- CloseDriver.EndsFromCapacity: the machine grants exactly what is asked or nothing; a capacity of exactly the stack limit, which growth never asks for, is left out.
- FileLease.Lease.Write: what a raw write does to the file's content and position is arbitrary, since it depends on how the file was opened; only the bytes handed over are tracked.
- `authorize`, `close` and the drop of a lease: one branch per kind of file, and process handling.
- NativeGrant.ParseModule: hashes, ABI identity, unwind attestation and visibility are one parameter, and so is the set of acceptable canonical files; the constant header fields and the `cpath` list of a grant are not modelled.
- JsonParser.ParseText: positions count Unicode characters instead of bytes, and the texts of error messages are not modelled.
- `LoadSession::new` and `finish`: format selection and compilation limits, straight-line checks.
- BudgetSink.Meter.Pay: a counting sink only; the refusals of the machine are in `PayOn`, which the theorems about totals do not use.
- ReleaseGraph.StaticClosure: archives, index, session directory and manifest paths are checks that may fail; TOML values of unexpected type that would raise other Python exceptions are not modelled.
- Native library staging and loading, command-line handling, host services and worker processes: foreign calls and input/output.
