# TAC back end of the Decaf code generator, in Dafny

This project models the three-address-code (TAC) back end of the `CodeGenerator` class of a small Decaf compiler (`pp5/codegen.cc`). It has three parts.

- **The IR builder** (`codegen.dfy`, module `CodeGen`). `CodeGenerator` is a class with:
  - the instruction list `code` and the label table `labels`;
  - the temporary and label counters;
  - the stack and global offsets;
  - the current function.

  Every `Gen` method appends instructions and hands out:
  - fresh temporaries `_tmp<n>` and labels `_L<n>`;
  - frame slots going down and global slots going up.

  `GenBeginFunc`/`GenEndFunc` lay out the formals and back-patch the frame size. Calls push their arguments right to left, call, and pop. The eight runtime built-ins come from a fixed table that also fixes their arity. `GenSubscript`, `GenNewArray` and `GenHaltWithMessage` emit inline guarded sequences. Each composite method is specified by a function that gives the exact instructions it appends (`SubscriptCode`, `NewArrayCode`, `HaltCode`, ...).
- **The CFG builder** (`cfg.dfy`, module `Cfg`, and `CodeGenerator.AppendEdges`). createCFG walks one function from its `BeginFunc` to the first `EndFunc` and appends successor edges by instruction kind:
  - `Goto` → its label;
  - `IfZ` → its label, then the next instruction;
  - `Return` → none;
  - anything else → the next instruction.
- **Liveness** (`liveness.dfy`, module `Liveness`, and `CodeGenerator.LivenessAnalysis`). This is the backward dataflow fixpoint Out = ∪ In(successors), In = (Out − Kill) ∪ Gen, with the sets kept as duplicate-free lists. It follows the algorithm the source's comments describe. `liveness_as_written.dfy` models what the code itself does (see Findings).

`tac.dfy` (module `Tac`) defines the IR:
- locations, opcodes and the eighteen instruction kinds;
- the constants `VarSize` = 4, `OffsetToFirstParam` = 4 and `OffsetToFirstLocal` = −8;
- the Kill set of each instruction, which is its destination;
- the Gen set of each instruction, which is the names it reads.

`eval.dfy` (module `Eval`) is a small evaluator for straight-line TAC. It is used to state what the emitted guards compute:
- The subscript test jumps past the halt exactly when `0 <= index < length`.
- The new-array test jumps past the halt exactly when `n >= 1`.
- Otherwise the code reaches `_Halt`.
- In range, the element address is `array + 4*index`.
- A new array stores its length at the address `_Alloc` returns and yields the address one word further.
- `GenArrayLen`'s load at −4 reads that length back.

The runtime routines are not modelled. The values the runtime returns (from `_Alloc`, other calls and string constants) are taken from a `supply` list in the machine state.

The model follows the code. In particular:
- `GenPopParams` emits nothing for zero bytes, so a call with no arguments has no pop.
- Liveness works on variable names, not on location identity.

The liveness loop is the one place where the model follows the source's comments instead of its code. Its code does not do what its comments describe, so `Liveness` models the described algorithm. Each pass computes fresh sets from the previous pass's In sets and commits them at the end of the pass, which stops at the first `EndFunc`. Passes repeat while any In or Out set changed, because In can still change in a pass in which no Out set did.

## Model

| member | source | states |
|---|---|---|
| Cfg.FirstEndFunc | pp5/codegen.cc:53-58 | the region ends at the first EndFunc at or after `begin`; no EndFunc lies before it |
| Cfg.Successors | pp5/codegen.cc:60-84 | Goto: one successor, its label's instruction; IfZ: two, the label's instruction then i+1; Return: none; every other kind: one, i+1; with a consistent label table every successor is an index of the code and a jump's first successor is the `Label` of its target |
| Cfg.BuildEdges | pp5/codegen.cc:53-85 | the loop appends `Successors(i)` to the edges of every i from `begin` up to the first EndFunc, which gets none, and changes no other instruction's edges |
| Liveness.SuccessorUnion | pp5/codegen.cc:105-120 | Out is a duplicate-free list whose elements are exactly the union of the successors' In sets |
| Liveness.AppendAbsent | pp5/codegen.cc:139-153 | the Gen loop appends only absent elements: the result has no duplicates and holds exactly the old elements plus the added ones |
| Liveness.RemoveKilled | pp5/codegen.cc:127-138 | the kill loop removes every killed element, re-examining the position it removed from: the result has no duplicates and holds exactly In minus Kill |
| Liveness.SameElems | pp5/codegen.cc:156-185 | the change test of the described algorithm (a set against the previous pass's): true exactly when the two lists hold the same elements |
| Liveness.Visit | pp5/codegen.cc:105-153 | for one instruction, Out = union of the successors' In and In' = (Out − Kill) ∪ Gen, both duplicate-free |
| Liveness.OnePass | pp5/codegen.cc:103-191 | one pass over the region yields exactly the Out and In sets computed from the previous In sets, leaves instructions outside the region empty, and reports `changed` exactly when some set differs from the previous pass |
| Liveness.ChangedSets | pp5/codegen.cc:185-189 | some instruction's sets changed exactly when the families of sets differ |
| Liveness.PassMono | pp5/codegen.cc:103-153 | a pass is monotone: larger In sets give larger In and Out sets |
| Liveness.PassBounded | pp5/codegen.cc:122-153 | a pass never produces a name that the region does not read |
| Liveness.PotDecreases | pp5/codegen.cc:98-101 | for growing bounded sets the number of names still missing never increases and strictly drops when a set grows, so passes cannot go on forever |
| Liveness.LeastPass | pp5/codegen.cc:98-191 | a pass started below every solution of the dataflow inequalities stays below every solution |
| Liveness.Analyze | pp5/codegen.cc:90-193 | the repeated passes end; the result satisfies Out = ∪ In(succ) and In = (Out − Kill) ∪ Gen at every instruction of the region, so one more pass changes nothing; it is the least solution, holds only names the region reads, and every list is duplicate-free |
| LivenessAsWritten.AppendAsWritten | pp5/codegen.cc:113-117 | the innermost loop as written appends one copy of the element for each list entry scanned before the first match: an empty list stays empty |
| LivenessAsWritten.UnionAsWritten | pp5/codegen.cc:105-120 | the union loop as written always leaves Out empty |
| LivenessAsWritten.DiffersAsWritten | pp5/codegen.cc:156-185 | the comparison as written reports a difference exactly when the two duplicate-free lists hold different elements |
| LivenessAsWritten.PassAsWritten | pp5/codegen.cc:103-191 | a pass as written reports a change exactly when some instruction from `begin` to the end of the whole list reads a name; it stores nothing, so every pass gives the same answer |
| LivenessAsWritten.UnionMisses | pp5/codegen.cc:107-117 | for a successor whose In holds x, the union the comment asks for is {x}, while the loop as written yields nothing |
| LivenessAsWritten.ReturnReadsLive | pp5/codegen.cc:98-191 | for `BeginFunc; Return x; EndFunc` an instruction reads a name, so the loop as written never stops; in every solution of the described analysis x is live on entry to the Return |
| CodeGen.LayOutFormals | pp5/codegen.cc:306-309 | formal i is at frame offset `start + i*VarSize`, under its own name |
| CodeGen.CodeGenerator.constructor | pp5/codegen.cc:19-23 | empty code, label table, edges and liveness; counters, stack offset and global offset at 0, with no frame slots handed out; not inside a function |
| CodeGen.CodeGenerator.NewLabel | pp5/codegen.cc:195-201 | returns `_L<n>` for the current counter n and increments the counter, so no label is handed out twice |
| CodeGen.CodeGenerator.GenTempVar | pp5/codegen.cc:204-211 | returns `_tmp<n>` for the current counter, in the slot at the current stack offset; the counter goes up by one and the offset down by VarSize; the slot differs from every slot handed out earlier in the frame |
| CodeGen.CodeGenerator.GenLocalVariable | pp5/codegen.cc:214-218 | the stack offset goes down by VarSize and the variable gets the old offset, which no earlier slot of the frame has |
| CodeGen.CodeGenerator.GenGlobalVariable | pp5/codegen.cc:220-224 | the global offset goes up by VarSize and the variable gets the old offset, VarSize × the number of earlier globals, which no earlier global has |
| CodeGen.CodeGenerator.GenLoadConstant | pp5/codegen.cc:227-232 | appends exactly one LoadConstant whose destination is a fresh temporary |
| CodeGen.CodeGenerator.GenLoadStringConstant | pp5/codegen.cc:234-239 | appends exactly one LoadStringConstant whose destination is a fresh temporary |
| CodeGen.CodeGenerator.GenLoadLabel | pp5/codegen.cc:241-246 | appends exactly one LoadLabel whose destination is a fresh temporary |
| CodeGen.CodeGenerator.GenAssign | pp5/codegen.cc:249-252 | appends exactly the Assign |
| CodeGen.CodeGenerator.GenLoad | pp5/codegen.cc:255-260 | appends exactly one Load whose destination is a fresh temporary |
| CodeGen.CodeGenerator.GenStore | pp5/codegen.cc:262-265 | appends exactly the Store |
| CodeGen.CodeGenerator.GenBinaryOp | pp5/codegen.cc:268-274 | appends exactly one BinaryOp whose destination is a fresh temporary |
| CodeGen.CodeGenerator.GenLabel | pp5/codegen.cc:277-283 | appends a Label and binds its name to the index of that very instruction, keeping the table consistent (every bound label names the Label at its index) |
| CodeGen.CodeGenerator.GenIfZ | pp5/codegen.cc:285-288 | appends exactly the IfZ |
| CodeGen.CodeGenerator.GenGoto | pp5/codegen.cc:290-293 | appends exactly the Goto |
| CodeGen.CodeGenerator.GenReturn | pp5/codegen.cc:295-298 | appends exactly the Return |
| CodeGen.CodeGenerator.GenBeginFunc | pp5/codegen.cc:301-312 | appends a BeginFunc and remembers it as the current function; formal i is at `OffsetToFirstParam + i*VarSize`, one more word for a method; the stack offset restarts at OffsetToFirstLocal |
| CodeGen.CodeGenerator.GenEndFunc | pp5/codegen.cc:314-319 | appends EndFunc; back-patches the function's BeginFunc with the frame size `OffsetToFirstLocal − curStackOffset`, which equals VarSize × slots handed out since GenBeginFunc and is never negative; clears the current function |
| CodeGen.CodeGenerator.GenPushParam | pp5/codegen.cc:321-324 | appends exactly the PushParam |
| CodeGen.CodeGenerator.GenPopParams | pp5/codegen.cc:326-331 | requires a non-negative multiple of VarSize; appends one PopParams when it is positive, nothing when it is 0 |
| CodeGen.CodeGenerator.GenLCall | pp5/codegen.cc:333-338 | appends the LCall; a fresh result temporary exists exactly when the callee returns a value |
| CodeGen.CodeGenerator.PushArgs | pp5/codegen.cc:342-343 | pushes the arguments last to first |
| CodeGen.CodeGenerator.GenFunctionCall | pp5/codegen.cc:340-347 | pushes right to left, one LCall, then one pop of VarSize × #args (omitted for 0); result temporary iff `hasReturnValue` |
| CodeGen.CodeGenerator.GenACall | pp5/codegen.cc:349-354 | appends the ACall; a fresh result temporary exists exactly when the callee returns a value |
| CodeGen.CodeGenerator.GenMethodCall | pp5/codegen.cc:356-365 | pushes the arguments right to left, then the receiver, one ACall, then one pop of VarSize × (#args + 1); result temporary iff `fnHasReturnValue` |
| CodeGen.CodeGenerator.GenBuiltInCall | pp5/codegen.cc:368-398 | requires an index into the 8-entry table and non-null arguments matching its arity; pushes arg2 before arg1, calls the entry's runtime label with a result temporary iff the entry returns a value, and pops VarSize × arity |
| CodeGen.CodeGenerator.GenVTable | pp5/codegen.cc:401-404 | appends exactly the VTable |
| CodeGen.CodeGenerator.GenArrayLen | pp5/codegen.cc:422-425 | appends one Load of the word at −4 from the array into a fresh temporary |
| CodeGen.CodeGenerator.GenNew | pp5/codegen.cc:427-434 | loads the size, calls _Alloc with it, loads the vtable label and stores it in the object's first word; the result is the _Alloc temporary |
| CodeGen.CodeGenerator.GenDynamicDispatch | pp5/codegen.cc:437-443 | requires `vtableOffset >= 0`; loads the vtable pointer from the receiver, the method from it at `vtableOffset*4`, then makes the method call |
| CodeGen.CodeGenerator.GenHaltWithMessage | pp5/codegen.cc:486-491 | loads the message, calls _PrintString with it, then calls _Halt |
| CodeGen.CodeGenerator.SubscriptRangePart | pp5/codegen.cc:449-454 | emits `idx < 0`, the length load at −4, `idx < len`, `== 0` and the Or of the two failures, in six fresh temporaries |
| CodeGen.CodeGenerator.SubscriptTestPart | pp5/codegen.cc:455-456 | takes a fresh label and emits the IfZ on the combined test to it |
| CodeGen.CodeGenerator.SubscriptAddressPart | pp5/codegen.cc:458-462 | binds the label to its Label instruction, then computes `arr + VarSize*idx` |
| CodeGen.CodeGenerator.GenSubscript | pp5/codegen.cc:447-463 | appends exactly SubscriptCode (test, inline halt, label, address) with ten fresh temporaries and one fresh label bound 12 instructions in; returns the word at the tenth temporary |
| CodeGen.CodeGenerator.NewArrayTestPart | pp5/codegen.cc:469-472 | emits `n < 1` and the IfZ on it to a fresh label |
| CodeGen.CodeGenerator.NewArraySizePart | pp5/codegen.cc:474-480 | binds the label to its Label instruction, then computes `(1 + n) * VarSize` |
| CodeGen.CodeGenerator.NewArrayStorePart | pp5/codegen.cc:481-483 | calls _Alloc on the byte count, stores n in the first word, and yields the address one word further |
| CodeGen.CodeGenerator.GenNewArray | pp5/codegen.cc:467-484 | appends exactly NewArrayCode (test, inline halt, label, size, allocation) with nine fresh temporaries and one fresh label bound 8 instructions in; returns the ninth temporary |
| CodeGen.CodeGenerator.AppendEdges | pp5/codegen.cc:53-85 | the edges of every instruction from `begin` up to the first EndFunc grow by exactly their Successors; all other edges are unchanged |
| CodeGen.CodeGenerator.CreateCFG | pp5/codegen.cc:25-87 | builds the region's edges as above, then runs the liveness analysis on that region; the stored live sets are a settled, least fixpoint |
| CodeGen.CodeGenerator.LivenessAnalysis | pp5/codegen.cc:90-193 | analyses the region from `begin` to its first EndFunc and stores, for each of its instructions, the live-in and live-out lists, which satisfy the dataflow equations and form the least solution |
| CodeGen.CodeGenerator.StoreLiveness | pp5/codegen.cc:185-188 | records the lists of the region's instructions and no others |
| Eval.HaltStops | pp5/codegen.cc:486-491 | run from any state that can supply the message's address, the halt sequence ends in the _Halt call with the parameter stack as it was |
| Eval.HaltStays | pp5/codegen.cc:486-491 | a run that already jumped is not affected by the halt sequence after it |
| Eval.SubscriptGuard | pp5/codegen.cc:449-456 | the bounds test's IfZ jumps to the fresh label exactly when `0 <= index < length` (length = the word before the array) and falls through otherwise; heap, stack, supply, array and index are unchanged |
| Eval.SubscriptHaltsOrSkips | pp5/codegen.cc:449-458 | test plus inline halt: the code halts exactly when the index is out of bounds and jumps past the halt exactly when it is in bounds |
| Eval.SubscriptElement | pp5/codegen.cc:458-462 | after the label the code computes `array + VarSize*index` and leaves the heap unchanged |
| Eval.SubscriptJumps | pp5/codegen.cc:449-458 | for an in-bounds index, the whole sequence leaves at the IfZ for the label with array, index and heap intact |
| Eval.SubscriptInBounds | pp5/codegen.cc:447-463 | for an in-bounds index, the run jumps to the label twelve instructions in; resumed there, the tenth temporary, which the returned reference reads through, holds `array + VarSize*index` |
| Eval.NewArrayGuard | pp5/codegen.cc:469-472 | the size test's IfZ jumps past the halt exactly when `n >= 1`; heap, stack, supply and n unchanged |
| Eval.NewArrayHaltsOrSkips | pp5/codegen.cc:469-474 | test plus inline halt: the code halts exactly when `n < 1` and jumps to the label exactly when `n >= 1` |
| Eval.NewArraySizeRun | pp5/codegen.cc:474-480 | after the label the code computes `(1 + n) * VarSize` bytes and keeps VarSize in its third temporary |
| Eval.AllocRun | pp5/codegen.cc:481 | the _Alloc call puts the returned address in its result temporary and leaves the parameter stack as it found it |
| Eval.NewArrayStoreRun | pp5/codegen.cc:481-483 | with _Alloc returning p, the code stores n at p and yields `p + VarSize` |
| Eval.NewArrayTail | pp5/codegen.cc:474-483 | the code after the label stores n at the address p from _Alloc and yields `p + VarSize` |
| Eval.NewArrayAllocRun | pp5/codegen.cc:474-483 | the same, numbered as in the whole sequence: the ninth temporary, the result, holds `p + VarSize` |
| Eval.NewArrayJumps | pp5/codegen.cc:469-474 | for `n >= 1` the whole sequence leaves at the IfZ for the label with n, heap, stack and supply intact |
| Eval.NewArrayInRange | pp5/codegen.cc:467-484 | for `n >= 1` the run jumps to the label eight instructions in; resumed there, the heap gets `p ↦ n` and the result holds `p + VarSize` |
| Eval.ArrayLenRun | pp5/codegen.cc:422-425 | GenArrayLen's load puts the word at −4 from the array into its temporary |
| Eval.NewArrayLength | pp5/codegen.cc:422-425 | GenArrayLen applied to GenNewArray's result reads back the requested length n |

## Left out

- `DoFinalCodeGen` (pp5/codegen.cc:407-418). It prints the TAC or drives the MIPS emitter, which is I/O plus a class that is not part of this model.
- Name text. `sprintf`/`strdup` and the 10-byte buffers are not modelled. `_tmp<n>` and `_L<n>` are the constructors `Tmp(n)` and `Lbl(n)` over the counter value.
- `BinaryOp::OpCodeForName`, `Location` and the `Instruction` internals (tac.h) are not part of this model. Opcodes are a closed datatype. Kill and Gen are defined by instruction kind: Kill is the destination slot, Gen is the names read.
- The counters `nextTempNum`/`nextLabelNum` are function statics in the source and fields of the class here. `curStackOffset` starts at 0 because the global generator object is zero-initialised.
- CodeGen.CodeGenerator.NewLabel: freshness is stated through the counter (each name carries the old counter value, and the counter goes up by one). The model does not track that no name in the emitted code uses a counter value at or above the current one.
- CodeGen.CodeGenerator.GenTempVar: the same; freshness is stated through the counter.
- Eval: words are unbounded integers. 32-bit wrap-around of `+`, `*` and addresses is not modelled, so the address and size facts hold for values whose arithmetic does not overflow.
- Eval: `&&` and `||` are defined only on 0 and 1, the values the comparisons produce. The target's bitwise meaning on other values is not modelled.
- Eval: the runtime routines (`_Alloc`, `_PrintString`, `_Halt`, ...) and compiled callees are not executed. A call takes its result from the machine's `supply` list, and `_Halt` ends the run. Heap memory returned by `_Alloc` is not checked to be fresh or large enough.
- Eval: `LoadLabel`, `BeginFunc`, `EndFunc`, `Return`, `VTable` and indirect calls through an unknown address are not executed. A run reaching them is `Stuck`. Only straight-line runs up to the first jump are evaluated, so the lemmas about the code after a label run that part from the state the jump left.
- Eval: `GenNew` and `GenDynamicDispatch` are specified by their instruction sequences only, with no run lemmas.
- Composite Gen methods (`GenSubscript`, `GenNewArray`) are written as a sequence of part methods, each specified by a function, so that each proof stays small. The emitted code is the same.
- Cfg.Successors: a `Goto`/`IfZ` to a label missing from the table is a precondition (`JumpsBound`). In the source, `labels[s]` silently inserts a null entry.
- CodeGen.CodeGenerator.GenEndFunc: an open function is a precondition (`insideFn.Some?`). In the source, `insideFn->SetFrameSize` dereferences a null `insideFn` otherwise.
- Cfg.BuildEdges: the region must end in an `EndFunc` (a precondition, which holds for every function `GenEndFunc` closes). Without one, the source calls `Nth(i+1)` past the end, and fails its assertion, only when the last instruction falls through or is an `IfZ`; a region whose last instruction is a `Goto` or `Return` ends normally, and the model does not cover that case.
- Liveness.Analyze: follows the algorithm in the comments, not the code as written (see Findings). The pass ends at the first `EndFunc`, not at the end of the list. It reads the previous pass's In sets and commits fresh sets at the end of the pass. It repeats while any In or Out set changed.

## Findings

| source | as written | input that shows it | evidently intended | confidence | as-written member | corrected member |
|---|---|---|---|---|---|---|
| pp5/codegen.cc:113-117 | the `Append` sits inside the scan of `outSet`; `outSet` starts empty, so nothing is ever added and Out is always empty (on a non-empty list it would append one copy per element scanned) | a successor whose In list holds a name x: the intended union is {x} (`UnionMisses`), the loop yields [] | Out = union of the successors' In sets, without duplicates | high (not executed) | LivenessAsWritten.UnionAsWritten | Liveness.SuccessorUnion |
| pp5/codegen.cc:98-191 | In is never stored, the pass runs to the end of the whole list, and `changed` is set whenever In' differs from the (empty) Out; so every pass reports a change once any instruction from `begin` on reads a name, and the loop never ends | `BeginFunc; Return x; EndFunc` (`ReturnReadsLive`) | repeat passes until a fixpoint, then stop with In = (Out − Kill) ∪ Gen | high (not executed) | LivenessAsWritten.PassAsWritten | Liveness.Analyze |
