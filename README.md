# A model of a toy RISC-V back end

The system is a small code generator. It reads a stream of events (variable declarations,
assignments, conditions, loops, scanf calls) and writes RISC-V assembly text with line numbers.
It exists as three drafts:

- `riscv_gen.c`: the first draft;
- `riscv_gen2_otimizado.c`: the register-window draft;
- `riscv_gen3.c`: the latest draft.

All three share the same core:

- **Symbol table.** `variables[50]` is an append-only table. `add_variable` gives each new name
  a stack offset taken from the running `current_offset`, then grows the frame by the type's
  size. It ignores duplicates and declarations past the fiftieth.
- **Instruction buffer.** `output_code[1000]` holds the emitted lines. `add_code_line` numbers
  them 1, 2, 3, … and silently drops them once the buffer is full.
- **Expression reducer.** `process_expression` is a shunting-yard scan with a global operator
  stack (`op_stack[100]`) and a local stack of temporary handles (`temp_stack[100]`).
  - An operand loads into `t0` and becomes the fresh temporary `temp_count++`.
  - A reduction pops two handles, emits `lw t0`, `lw t1`, the operation into `t2`, and a store
    of `t2`. The result gets a fresh handle.
  - Precedence comes from `get_precedence`; the instruction for each operator comes from
    `generate_operation`.
- **Where temporaries live.**
  - `riscv_gen.c` and `riscv_gen3.c` keep temporary `k` in the stack slot
    `current_offset + 4k`, above the variables.
  - `riscv_gen2_otimizado.c` adds a positional window of five registers `t0`..`t4`, driven by
    a second counter `tmpOffset`.
- **Assignment lowering.** `generate_riscv_assignment` has fast paths for a literal and for a
  lone variable, and a general path through `process_expression`. The general path then reads
  the result from a fixed slot:
  - `current_offset` in `riscv_gen.c`;
  - `TEMP_RESULT_OFFSET` (16) in `riscv_gen3.c`.

  `riscv_gen2_otimizado.c` instead assigns recursively over a register counter,
  `current_temp_reg`.
- **Condition lowering** (`riscv_gen3.c`). `process_condition` splits a condition into left
  side, relation and right side. It loads both sides (in float registers when either side is
  tagged FLOAT by `get_expression_type`) and branches to `L_false_<n>` when the relation fails.
- **Listing width.** `write_output_with_line_numbers` pads the line numbers to the number of
  decimal digits of the line count.

## How the model is built

- **Emitted lines are values.** Each line is an `Asm.Instr`: a directive, label, comment or
  instruction, with its operands. The mnemonics are those of the RISC-V Unprivileged ISA,
  version 20191213:
  - the RV32I base (chapter 2);
  - the "M" extension (chapter 7);
  - the "F" extension (chapter 11);
  - the assembler pseudoinstructions of chapter 25.

  They are tags only; the model gives them no execution semantics.
- **Where the three drafts differ** (size table, precedence, operation code, operand loads),
  module `Drafts` makes the behaviour a function of a `Draft` value.
- **Stateful C code is stateful Dafny.**
  - The symbol table, code buffer and operator stack are classes over arrays:
    `Symbols.SymbolTable`, `Emitter.CodeBuffer` and `Operators.OpStack`.
  - The expression engine, `Codegen.Engine`, runs process_expression's loops step by step.
  - Each draft's `Session` class holds the globals of one compilation.
- **Each method is proved against a function.** The methods emit exactly what a pure
  specification function says: `Reducer.Evaluate` for the expression, and
  `Gen1.AssignCode` / `Gen2.AssignCode` / `Gen3.AssignCode`, `Gen3.ConditionCode` and so on
  for the rest. The properties are proved as lemmas about those functions.
- **Undefined behaviour becomes a fault.** Wherever the C code would read or write outside an
  array on malformed input, the model stops with a `Reducer.Fault` value before that step emits
  anything. Examples are a reduction with fewer than two handles and a token of 50 or more
  characters.

## Model

| member | source | states |
|---|---|---|
| Emitter.CodeBuffer.Add | riscv_gen3.c:70-81 | Stores the line with line number count+1 only while fewer than 1000 lines are held; at the cap the held lines are unchanged, and the requested line is still recorded in the ghost log. |
| Emitter.CodeBuffer.AddAll | riscv_gen.c:61-72 | A run of add_code_line calls leaves the buffer holding the first 1000 of all lines ever requested, each entry i numbered i+1. |
| Emitter.CodeBuffer.Contents | riscv_gen2_otimizado.c:128-139 | The held lines are exactly the first min(1000, n) requested lines, in order, and entry i carries line number i+1. |
| Emitter.Kept | riscv_gen3.c:70-81 | The buffer's contents as a function: a prefix of the requested lines, of length min(1000, n). |
| Emitter.KeptIsRepeatedAddLine | riscv_gen3.c:70-81 | Keeping the first 1000 lines of a stream equals applying add_code_line line by line: no kept line is reordered or changed, and the lines past the cap are dropped. |
| Emitter.CodeBuffer.constructor | riscv_gen3.c:50-51 | The buffer starts empty, with room for 1000 lines. |
| Emitter.NumDigits | riscv_gen.c:379-384 | The divide-by-ten loop returns DigitCount(count). |
| Emitter.DigitCountIsDecimalLength | riscv_gen3.c:399-404 | DigitCount(n) is 1 below ten and otherwise the w with 10^(w-1) <= n < 10^w: the number of decimal digits. |
| Emitter.CodeBuffer.ListingWidth | riscv_gen3.c:398-404 | The listing width of a buffer holding count lines is DigitCount(count), and lies between 1 and 4 because count <= 1000. |
| Emitter.DigitCountOfAtMostThousand | riscv_gen2_otimizado.c:514-525 | For up to 1000 lines the width is between 1 and 4 digits. |
| Operators.OpStack.constructor | riscv_gen3.c:47-48 | The operator stack starts empty (op_stack_top == -1). |
| Operators.OpStack.Contents | riscv_gen3.c:47-48 | The stacked operators, bottom first; there are op_stack_top+1 of them. |
| Operators.OpStack.Push | riscv_gen3.c:53-56 | push_op appends the operator on top; the rest of the stack is unchanged. |
| Operators.OpStack.Pop | riscv_gen3.c:58-60 | pop_op returns the top operator and removes exactly it. |
| Operators.OpStack.Peek | riscv_gen3.c:62-64 | peek_op returns the top operator and leaves it on the stack. |
| Operators.OpStack.IsEmpty | riscv_gen3.c:66-68 | is_op_stack_empty is true exactly when the stack holds nothing. |
| Operators.OpStack.Clear | riscv_gen3.c:236 | Resetting op_stack_top empties the stack. |
| Symbols.IndexOf | riscv_gen3.c:83-90 | find_variable finds the first entry with this exact name, and finds none exactly when no entry has the name. |
| Symbols.IndexFrom | riscv_gen.c:75-82 | The scan from a given index finds the first matching entry at or after it, or reports that none matches. |
| Symbols.Lookup | riscv_gen2_otimizado.c:141-148 | The record found is in the table and has the name; the lookup fails exactly when no entry has the name. |
| Symbols.SymbolTable.Find | riscv_gen3.c:83-90 | The linear scan over variables[0..var_count) returns IndexOf of the table. |
| Symbols.SymbolTable.Add | riscv_gen3.c:104-117 | add_variable leaves the table alone on a duplicate name or a full table of 50; otherwise it appends one entry at the old current_offset and grows current_offset by the size. The layout stays well formed. |
| Symbols.SymbolTable.Append | riscv_gen3.c:110-115 | The append step puts the entry in the next free slot at the old frame end, and the frame grows by exactly its size. |
| Symbols.SymbolTable.constructor | riscv_gen3.c:40-42 | The table starts with no variables and current_offset 0. |
| Symbols.DeclarePreservesLayout | riscv_gen3.c:104-117 | Declaring keeps the layout well formed: sizes positive, names unique, each offset where the previous variable ends, and current_offset at the end of the last one. |
| Symbols.RedeclarationIsNoOp | riscv_gen2_otimizado.c:160-171 | Declaring a name a second time, with any type, leaves table and frame exactly as after the first declaration. |
| Symbols.OffsetsAreSumsOfEarlierSizes | riscv_gen3.c:110-115 | Every offset is the sum of the sizes of the variables declared before it, and current_offset is the sum of all sizes. |
| Symbols.LayoutOrdersSlots | riscv_gen.c:85-107 | Offsets strictly increase in declaration order, no two variables share a byte, and every variable lies within [0, current_offset). |
| Symbols.FrameBytesBelongToVariables | riscv_gen3.c:104-117 | Each byte of [0, current_offset) belongs to exactly one declared variable. |
| Symbols.TempSlotsClearOfVariables | riscv_gen3.c:197-203 | Temporary k's slot current_offset + 4k (k >= 0) lies at or above the end of every variable, so it never overlaps one. |
| Drafts.SizeFromType | riscv_gen3.c:92-102 | Every size is 1, 2, 4 or 8 (never below 1), and riscv_gen.c's inline table yields only 1, 4 or 8. |
| Drafts.UnknownTypesTakeFourBytes | riscv_gen2_otimizado.c:150-158 | In each draft, every type tag its size table does not name gets the default of 4 bytes. |
| Drafts.KeywordTagsMatchPlainTags | riscv_gen3.c:92-102 | A _KW tag is as large as its plain tag, and riscv_gen3.c agrees with riscv_gen2_otimizado.c on the plain tags; BOOL_KW is 1 byte while a plain BOOL falls to the default 4. |
| Drafts.Precedence | riscv_gen3.c:205-228 | Precedences lie in -1..4, and the earlier drafts use only -1..2. |
| Drafts.OperationCode | riscv_gen.c:146-164 | generate_operation emits at most two lines, none of them a load, store, label, branch or jump. |
| Drafts.OperationCodeMatchesPrecedence | riscv_gen3.c:154-195 | A character has code exactly when its precedence is positive, which is exactly when it is one of the draft's operator characters. There is one instruction per operator, and two (xor, then seqz or snez) for '=' and '!'. Every instruction combines reg1 and reg2 into dest. |
| Drafts.LoadOperandCode | riscv_gen3.c:131-152 | generate_load_operand emits at most one line, and never a store, label or jump. |
| Drafts.LoadOperandIsOneLine | riscv_gen2_otimizado.c:186-197 | Exactly one line is emitted (given riscv_gen.c's 1/4/8 sizes). It is the undeclared-variable comment exactly when the operand is neither a literal nor a declared variable. A load reads precisely the named variable's offset. Every non-comment line writes the requested register. |
| Drafts.RiscvGenLoadFollowsSize | riscv_gen.c:126-143 | A declared variable is loaded with lb for 1 byte, lw for 4 and ld for 8, and with nothing for any other size. |
| Window.RegName | riscv_gen2_otimizado.c:72-78 | get_reg_name gives t0..t4 for 0..4, and t0 for every other index, negatives included. |
| Window.RegNamesAreDistinct | riscv_gen2_otimizado.c:72-78 | Distinct indices inside the window name distinct registers. |
| Window.WindowHoldsFiveMostRecent | riscv_gen2_otimizado.c:80-84 | With tmpOffset == -temp_count, a temporary is register-classified iff it is one of the five most recent, and the temporary about to be created always is. |
| Window.TemporariesAreAllNamedT0 | riscv_gen2_otimizado.c:86-89 | get_register_index applied to a temporary number (never negative) is negative, so every temporary is named t0. |
| Window.StoreIfNeededCode | riscv_gen2_otimizado.c:91-96 | store_if_needed emits one store, to current_offset + 4t, exactly when the temporary is not register-classified, and nothing otherwise. |
| Window.LoadIfNeededCode | riscv_gen2_otimizado.c:98-109 | load_if_needed emits at most one line and never a store. It emits nothing exactly when the temporary is register-classified and already sits in the requested register; otherwise it emits a mv or a lw from the temporary's slot. |
| Window.LoadIfNeededInWindow | riscv_gen2_otimizado.c:98-109 | For a register-classified temporary, loading into t0 emits nothing and loading into t1 emits `mv t1, t0`. |
| CText.IsNumericConstant | riscv_gen3.c:351-358 | The pointer walk accepts exactly an optional '-' followed by digits only. |
| CText.NumericConstantAcceptsEmptyAndMinus | riscv_gen2_otimizado.c:369-376 | "" and "-" are accepted as numeric constants, while "--" and "1-" are not. |
| CText.FirstOf | riscv_gen2_otimizado.c:385 | strpbrk's result is the first index holding one of the characters, and there is none exactly when no character of the text is in the set. |
| CText.ScanField | riscv_gen3.c:476 | One %Ns conversion skips white space and takes 1..N non-space characters; it fails exactly when only white space is left. |
| CText.SkipSpace | riscv_gen3.c:476 | The text after the leading white space is a suffix that starts with a non-space character. |
| CText.WordLength | riscv_gen3.c:476 | The conversion takes at most `width` characters, all non-space, and stops early only at a space. |
| CText.RunLength | riscv_gen3.c:451 | The first delimiter-free run: every character in it is a non-delimiter, and it ends at a delimiter or at the end of the text. |
| CText.Tokens | riscv_gen3.c:450-462 | strtok yields non-empty tokens free of delimiters, made of characters of the text. Joined in order, they give the text with every delimiter removed. |
| CText.TokensOfWord | riscv_gen3.c:450-462 | A non-empty text without delimiters is a single token. |
| CText.TokensSplitAtDelimiter | riscv_gen3.c:450-462 | A delimiter splits the text: the tokens of `a`, a delimiter, `b` are the tokens of `a` followed by those of `b`. With TokensOfWord this pins every token down to a whole run between delimiters. |
| Reducer.WordEndIsFirstNonWord | riscv_gen3.c:241-247 | The token loop stops at the first non-word character at or after the start. |
| Reducer.WordEnd | riscv_gen3.c:243-245 | Everything taken by the token loop is isalnum or '_', and the loop stops before a character that is neither. |
| Reducer.Reduce | riscv_gen3.c:255-267 | One reduction pops exactly one operator. With two handles it takes one handle off the value stack and makes one fresh temporary; with fewer it faults with ValueStackUnderflow. |
| Reducer.ReduceKeepsLowerHandles | riscv_gen3.c:256-267 | With two handles, a reduction replaces the top two by the fresh result handle temp_count and keeps every handle below them. With fewer, it changes neither the handles nor the code. The code only grows. |
| Reducer.StartIsDisciplined | riscv_gen3.c:230-236 | A call starts with both stacks empty and the counters at 0. |
| Reducer.OperandKeepsDiscipline | riscv_gen3.c:249-251 | An operand pushes one fresh handle temp_count++ and stores only into that temporary's slot; in riscv_gen2_otimizado.c the new temporary is always in the window. |
| Reducer.ReductionCodeIsTame | riscv_gen.c:281-286 | A reduction's lines contain no control flow and store only into the result's slot; in riscv_gen2_otimizado.c a register-classified result is never stored. |
| Reducer.ReduceKeepsDiscipline | riscv_gen3.c:255-267 | A reduction keeps the discipline, and its result handle and slot differ from every handle still on the value stack. |
| Reducer.ReduceWhilePrecKeepsDiscipline | riscv_gen3.c:277-290 | The reduce loop before an incoming operator keeps the discipline. |
| Reducer.CloseParenKeepsDiscipline | riscv_gen3.c:254-272 | The ')' branch keeps the discipline. |
| Reducer.ReduceAllKeepsDiscipline | riscv_gen3.c:296-309 | The final reduce loop keeps the discipline. |
| Reducer.PushOperatorKeepsDiscipline | riscv_gen3.c:273-293 | The operator branch keeps the discipline, and every stacked operator carries its own precedence. |
| Reducer.ScanKeepsDiscipline | riscv_gen3.c:238-294 | The whole main loop keeps the discipline on every input. |
| Reducer.EvaluateKeepsDiscipline | riscv_gen3.c:230-312 | On every input, a whole call keeps the following discipline. temp_stack strictly increases, lies below temp_count, and has the newest handle on top. tmpOffset == -temp_count in riscv_gen2_otimizado.c. Every store lands in a temporary's slot at or above current_offset. The riscv_gen2_otimizado.c code stores nothing (its memory branches are unreachable). A call without a fault reduces every operator. |
| Reducer.ReduceAllEmptiesOperators | riscv_gen.c:275-289 | The final loop leaves the operator stack empty unless a fault stopped it. |
| Reducer.ExpressionNeverWritesVariables | riscv_gen3.c:197-199 | In a well-formed frame, no store of the expression code touches a declared variable's bytes. |
| Reducer.ReduceWhilePrecPopsTighterOperators | riscv_gen3.c:274-292 | An incoming operator reduces exactly the stacked operators above the topmost one that binds less tightly. What remains is a prefix of the stack. Each pop makes one temporary and removes one handle. |
| Reducer.ReduceWhilePrecKeepsPrefix | riscv_gen3.c:277-290 | The reduce loop only pops: what remains is a prefix of the stack. |
| Reducer.ReduceWhilePrecPopsOnlyTighter | riscv_gen3.c:277 | Every popped operator had precedence >= the incoming one, and the new top (if any) has less. |
| Reducer.ReduceWhilePrecCountsPops | riscv_gen3.c:280-289 | Each pop creates one temporary and shrinks the value stack by one. |
| Reducer.LastOpen | riscv_gen3.c:255 | The topmost '(' on the stack: it is a '(', nothing above it is, and there is none exactly when no entry is '('. |
| Reducer.CloseParenStopsAtNearestOpen | riscv_gen3.c:254-272 | ')' reduces every operator above the nearest '(' and removes that '(' and nothing below it; without a '(' it reduces the whole stack. |
| Reducer.PushOperatorReducesFirst | riscv_gen.c:247-270 | The incoming operator is pushed with its own precedence, and only after every stacked operator with precedence >= its own has been reduced. This makes operators of one level associate to the left. |
| Reducer.UnknownOperatorFlushesStack | riscv_gen3.c:273-292 | A character with precedence -1 reduces the whole stack, '(' entries included, before it is pushed. |
| Codegen.LoadOperand | riscv_gen3.c:131-152 | generate_load_operand appends exactly LoadOperandCode for the draft. |
| Codegen.GenerateOperation | riscv_gen2_otimizado.c:199-217 | generate_operation appends exactly OperationCode for the draft. |
| Codegen.TempStore | riscv_gen3.c:197-199 | generate_temp_store appends `sw reg` to current_offset + 4t. |
| Codegen.TempLoad | riscv_gen.c:172-174 | generate_temp_load appends `lw reg` from current_offset + 4t. |
| Codegen.Engine.constructor | riscv_gen2_otimizado.c:34-35 | temp_count and tmpOffset start at 0 and the operator stack starts empty. |
| Codegen.Engine.LoadIfNeeded | riscv_gen2_otimizado.c:98-109 | load_if_needed appends exactly LoadIfNeededCode for the current tmpOffset. |
| Codegen.Engine.StoreIfNeeded | riscv_gen2_otimizado.c:91-96 | store_if_needed appends exactly StoreIfNeededCode for the current tmpOffset. |
| Codegen.Engine.EmitOperand | riscv_gen2_otimizado.c:255-269 | An operand's emission is exactly OperandCode: the window comment and load in riscv_gen2_otimizado.c, or the load into t0 and the temp store. |
| Codegen.Engine.EmitReduction | riscv_gen2_otimizado.c:335-353 | A reduction's emission is exactly ReductionCode: both operand loads, the operation, and the result's store or move. |
| Codegen.Engine.Process | riscv_gen.c:194-292 | process_expression appends exactly Evaluate's lines and reports its fault. Afterwards temp_count is back at 0, the operator stack is Evaluate's, and in riscv_gen2_otimizado.c tmpOffset is where Evaluate leaves it. |
| Gen1.HeaderReservesOnlyVariables | riscv_gen.c:110-115 | The header's stack adjustment is exactly current_offset. It covers every variable, while every temporary slot lies at or beyond its end, outside the reserved area. |
| Gen1.AssignFastPaths | riscv_gen.c:295-322 | An undeclared target gives one error comment. A non-empty digit string gives exactly li/sw after the two leading lines. A lone declared variable free of `+-*/%()` is copied with lw/sw for 4 bytes, ld/sd for 8, and nothing at all for 1. |
| Gen1.NegativeLiteralUnderflows | riscv_gen.c:306-329 | "-5" misses the digit path and the copy path; in process_expression the '-' has one operand below it, which is a value-stack underflow. |
| Gen1.ComplexAssignmentReadsHandleZero | riscv_gen.c:325-329 | The general path ends with `lw t0, current_offset` (handle 0's slot) and `sw t0` to the target; every store is a sw into a temporary or the target. |
| Gen1.SumLandsOutsideTheSlotRead | riscv_gen.c:325-329 | For `x = a+b` the sum goes to slot 20, but the assignment copies slot 12 (the value of a) into x. |
| Gen1.Session.constructor | riscv_gen.c:29-39 | A compilation starts with no variables, current_offset 0 and an empty buffer. |
| Gen1.Session.AddVariable | riscv_gen.c:85-107 | add_variable declares with the inline size table; every size stays 1, 4 or 8. |
| Gen1.Session.Header | riscv_gen.c:110-115 | Appends exactly the four header lines, with `addi sp, sp, -current_offset`. |
| Gen1.Session.Footer | riscv_gen.c:118-123 | Appends exactly the blank line, the comment and the exit system call. |
| Gen1.Session.Assign | riscv_gen.c:295-330 | generate_riscv_assignment appends exactly AssignCode's lines and reports its fault. |
| Gen1.Session.Store | riscv_gen.c:306-329 | Past the target check, the appended lines are exactly StoreCode's. |
| Gen1.Session.StoreNonLiteral | riscv_gen.c:312-329 | The copy and general paths append exactly StoreCode's lines. |
| Gen1.Session.StoreComputed | riscv_gen.c:325-329 | The general path appends process_expression's lines and then the load from current_offset and the store. |
| Gen2.UndeclaredTargetIsNoOp | riscv_gen2_otimizado.c:381-382 | An undeclared target emits nothing and leaves current_temp_reg alone. |
| Gen2.SimplePath | riscv_gen2_otimizado.c:432-446 | With no operator character and current_temp_reg <= 4, the call emits one line into t<current_temp_reg>: a mv exactly when the text looks like a register, an li otherwise. The counter rises by 1. Past t4 nothing is emitted. |
| Gen2.OperatorPathWithUndeclaredHelpers | riscv_gen2_otimizado.c:385-427 | With _temp_left/_temp_right undeclared and current_temp_reg <= 2, the counter advances by exactly 2. The only line is add/sub of t<reg-2> and t<reg-1> into t<reg>; there is none for `*` and `/`. |
| Gen2.LongOperandFaults | riscv_gen2_otimizado.c:388-393 | An operand of 20 or more characters would overrun left[20] or right[20]; the call stops before emitting anything. |
| Gen2.CounterBoundsTheCode | riscv_gen2_otimizado.c:380-447 | However deep the recursion, current_temp_reg never decreases, each line uses up at least one counter position, and every line is a mv/li/add/sub writing one of t0..t4. |
| Gen2.OperatorPathBounds | riscv_gen2_otimizado.c:400-426 | The operator path keeps those bounds, given that both recursive calls do. |
| Gen2.SimplePathBounds | riscv_gen2_otimizado.c:432-446 | The simple path keeps those bounds. |
| Gen2.NoSpacesSnoc | riscv_gen2_otimizado.c:453-456 | One more character is dropped when it is a space and kept at the end otherwise. |
| Gen2.NoSpacesOfConcat | riscv_gen2_otimizado.c:450-459 | Deleting spaces distributes over concatenation. |
| Gen2.NoSpacesHasNoSpace | riscv_gen2_otimizado.c:450-459 | The result contains no space. |
| Gen2.NoSpacesKeepsOtherCharacters | riscv_gen2_otimizado.c:450-459 | Every non-space character occurs in the result as often as in the input. |
| Gen2.NoSpacesKeepsSpaceFreeText | riscv_gen2_otimizado.c:450-459 | A text without spaces is unchanged. |
| Gen2.NoSpacesIsIdempotent | riscv_gen2_otimizado.c:450-459 | Removing spaces twice equals removing them once. |
| Gen2.RemoveSpaces | riscv_gen2_otimizado.c:450-459 | The in-place two-index rewrite leaves the NUL-terminated text equal to the input with every ' ' deleted and all else kept in order. The text is followed by a NUL, and the cells after that NUL are unchanged. |
| Gen2.Session.constructor | riscv_gen2_otimizado.c:68 | A compilation starts with no variables, an empty buffer and current_temp_reg 0. |
| Gen2.Session.AddVariable | riscv_gen2_otimizado.c:160-171 | add_variable declares with get_size_from_type of this file. |
| Gen2.Session.Header | riscv_gen2_otimizado.c:173-179 | Appends exactly the header lines and the window comment, with `addi sp, sp, -current_offset`. |
| Gen2.Session.Footer | riscv_gen2_otimizado.c:181-184 | Appends exactly the exit system call. |
| Gen2.Session.Assign | riscv_gen2_otimizado.c:380-447 | The recursive generate_riscv_assignment appends exactly AssignCode's lines, sets current_temp_reg to AssignCode's counter, and reports its fault. |
| Gen2.Session.AssignDeclared | riscv_gen2_otimizado.c:384-447 | Past the target check, the same holds. |
| Gen2.Session.Simple | riscv_gen2_otimizado.c:432-446 | The simple path appends SimpleCode's line and updates the counter as SimpleCode says. |
| Gen2.Session.AssignOperation | riscv_gen2_otimizado.c:400-426 | The operator path appends exactly OperatorCode's lines and leaves its counter. |
| Gen2.Session.AssignRight | riscv_gen2_otimizado.c:406-426 | After the left operand, the right operand's recursive call and the operator's line give exactly Join's lines and counter. |
| Gen3.HeaderReservesVariablesAndTemporaries | riscv_gen3.c:119-124 | The stack adjustment covers every variable and the slots of all 100 temporaries above them. |
| Gen3.StripKeyword | riscv_gen3.c:433-440 | The result is a prefix of the type. It differs from the type exactly when the type contains "_KW", and then it is three characters shorter. |
| Gen3.KeywordSuffixIsRemoved | riscv_gen3.c:433-440 | A type ending in "_KW" loses exactly that suffix (INT_KW gives INT). |
| Gen3.InnerKeywordCutsTheEnd | riscv_gen3.c:434-438 | A "_KW" anywhere in the type removes the type's last three characters, whatever they are: "A_KWB" gives "A_". |
| Gen3.OperatorScanFindsFloatOperands | riscv_gen3.c:442-465 | For text that starts with no quote, holds no '.', 'e' or 'E' and names no variable, the tag is FLOAT exactly when the text holds one of `/*+-` and one of its strtok tokens names a FLOAT or FLOAT_KW variable. Otherwise it is INT. |
| Gen3.RemainderAloneSkipsTheScan | riscv_gen3.c:443-451 | With x a FLOAT variable, "x+y" is FLOAT but "x%y" is INT: '%' is a strtok delimiter but does not start the scan. |
| Gen3.ExpressionTypeIsATag | riscv_gen3.c:410-469 | get_expression_type returns CHAR, STRING, FLOAT, INT or a declared variable's suffix-stripped type. For a declared name with no quote and no '.', 'e' or 'E', the result is that variable's own stripped type. |
| Gen3.NamesWithLetterEAreFloat | riscv_gen3.c:421-428 | Any text containing 'e' is tagged FLOAT before the table is consulted, so an int variable named with an 'e' is compared as a float. |
| Gen3.LiteralTypes | riscv_gen3.c:410-469 | A digit string naming no variable is INT; a digit-initial literal with '.' is FLOAT. |
| Gen3.ConditionOperandCode | riscv_gen3.c:493-513 | Loading one side of a condition emits at most two lines, never a jump or store. Float loads write freg only when the side is tagged FLOAT. |
| Gen3.ComparisonCode | riscv_gen3.c:515-552 | The comparison is at most two lines: float compares, and branches to L_false_n. It is empty exactly when the relation is not one of the six. |
| Gen3.ComparisonLines | riscv_gen3.c:515-552 | The if-chain gives ComparisonCode. For ints it is one branch to L_false_n, taken iff the relation does not hold. |
| Gen3.IntBranchSkipsExactlyWhenFalse | riscv_gen3.c:539-551 | The integer branch compares t0 with t1 on the negated relation (== to bne, != to beq, < to bge, > to ble, <= to bgt, >= to blt): it jumps to L_false_n exactly when the relation fails. |
| Gen3.FloatBranchSkipsExactlyWhenFalse | riscv_gen3.c:516-537 | The float path is one feq.s/flt.s/fle.s of ft0 and ft1 into t2, then beqz or bnez to L_false_n. It jumps exactly when the relation fails. |
| Gen3.ConditionLoads | riscv_gen3.c:485-513 | The comment and the loads of both sides contain no jump, label or store. |
| Gen3.IntegerLeftLeavesFt0 | riscv_gen3.c:493-513 | A left side not tagged FLOAT is loaded into t0, and no load writes ft0. |
| Gen3.ConditionShape | riscv_gen3.c:515-560 | Condition code is the loads, then the comparison, then a while's jump, then `L_false_n:` as its only label, last. Branches lie only in the comparison and go to L_false_n; the only jump is a while's, to L_loop_start_n. |
| Gen3.UnknownRelationNeverBranches | riscv_gen3.c:515-552 | An unknown relation emits no branch at all, so the block always runs. |
| Gen3.MalformedConditionOnlyReports | riscv_gen3.c:476-479 | The code is only the error comment exactly when sscanf does not fill three fields; an all-blank condition is always malformed. |
| Gen3.ConditionLabelsAreItsOwn | riscv_gen3.c:471-561 | A well-formed condition defines L_false_n once, last. Its branches go there, and a while condition also jumps back to L_loop_start_n, second to last. |
| Gen3.MixedComparisonReadsUnloadedRegister | riscv_gen3.c:489-537 | When only the right side is FLOAT, the float compare reads ft0, which no line of the condition code writes. |
| Gen3.ConditionFloatShape | riscv_gen3.c:515-560 | A float register the loads leave alone is written by no line of the condition code. |
| Gen3.ConditionCodeOwnLabels | riscv_gen3.c:471-561 | Well-formed or not, condition code only defines and jumps to labels numbered n; a well-formed while condition ends with its back edge and then L_false_n. |
| Gen3.EventFrameOwnLabels | riscv_gen3.c:596-620 | The lines the if, if-else and while events put around the condition keep its labels numbered n. |
| Gen3.EventLabelsAreItsOwn | riscv_gen3.c:596-620 | Every label an event defines, and every jump target, carries that event's label_count, which is bumped after each event. |
| Gen3.WhileFrameShape | riscv_gen3.c:614-620 | The while event defines L_while_start_n, and its code contains the back edge to L_loop_start_n. |
| Gen3.NoEventDefinesLoopStart | riscv_gen3.c:596-620 | No event ever defines any L_loop_start label. |
| Gen3.WhileBackEdgeMissesItsLabel | riscv_gen3.c:556 | The while back edge jumps to L_loop_start_n, which no event defines; the label defined at the loop head is L_while_start_n. |
| Gen3.AssignFastPaths | riscv_gen3.c:360-385 | An undeclared target gives one error comment and a const target one warning; neither emits a store. A numeric constant (including "" and "-") or a lone declared variable gives exactly li/lw then sw to the target. |
| Gen3.AssignStoresOnlyTargetTempsAndResultSlot | riscv_gen3.c:360-396 | In a well-formed frame an assignment stores only into the target's slot, temporary slots and TEMP_RESULT_OFFSET; an undeclared or const target stores nothing. |
| Gen3.ComplexAssignmentUsesFixedSlot | riscv_gen3.c:387-395 | The general path ends with `lw t0, 16`, `sw t0` to the target and `sw zero, 16`. When the variables take more than 16 bytes, the expression code never stores at 16, and slot 16 lies inside a declared variable. |
| Gen3.ScanfStoresOnlyFloats | riscv_gen3.c:674-699 | scanf makes a system call exactly for INT and FLOAT variables. The only store is `fsw fa0` to a FLOAT variable's own slot; an INT read leaves its result in a0. |
| Gen3.WhileLoopJumpsToItsOwnLabels | riscv_gen3.c:327-341 | generate_while_loop defines L_while_start_n second and L_while_end_n last. Its only labels are those two, and every j, beqz, bnez or two-register branch targets one of them. |
| Gen3.ReturnJumpsToUndefinedLabel | riscv_gen3.c:343-349 | generate_return jumps to main_end, which neither the header, the footer nor any event defines. |
| Gen3.Session.constructor | riscv_gen3.c:40-51 | A compilation starts with no variables, an empty buffer and label_count 0. |
| Gen3.Session.AddVariable | riscv_gen3.c:104-117 | add_variable declares with get_size_from_type and the const/static flags. |
| Gen3.Session.Header | riscv_gen3.c:119-124 | Appends exactly the header lines, reserving current_offset + 400 bytes. |
| Gen3.Session.Footer | riscv_gen3.c:126-129 | Appends exactly the exit system call. |
| Gen3.Session.Assign | riscv_gen3.c:360-396 | generate_riscv_assignment appends exactly AssignCode's lines and reports its fault. |
| Gen3.Session.Store | riscv_gen3.c:372-395 | Past the target checks, the appended lines are exactly StoreCode's. |
| Gen3.Session.StoreExpression | riscv_gen3.c:379-395 | The copy and general paths append exactly StoreCode's lines. |
| Gen3.Session.AssignComputed | riscv_gen3.c:387-395 | The general path appends the comment, process_expression's lines, and the three result-slot lines. |
| Gen3.Session.ConditionOperandLines | riscv_gen3.c:493-513 | Loading one side gives exactly ConditionOperandCode. |
| Gen3.Session.ConditionLines | riscv_gen3.c:471-561 | process_condition's lines are exactly ConditionCode. |
| Gen3.Session.ProcessCondition | riscv_gen3.c:471-561 | process_condition appends exactly ConditionCode. |
| Gen3.Session.ControlEvent | riscv_gen3.c:596-620 | An if, if-else or while event appends exactly EventCode with the current label_count, then increments label_count by one. |
| Gen3.Session.Scanf | riscv_gen3.c:674-699 | The scanf event appends exactly ScanfCode. |
| Gen3.IfStatementSkipsToItsOwnElse | riscv_gen3.c:314-325 | Without a fault, generate_if_statement's code starts with the "if" comment and ends with the load of the result slot, `beqz t0, L_else_n`, the block comment and `L_else_n:`. That beqz is its only line of any jump kind (j, beqz, bnez or two-register branch), and `L_else_n:` its only label, so no true block is emitted. |
| Gen3.Session.IfStatement | riscv_gen3.c:314-325 | generate_if_statement appends exactly IfStatementCode with the old label_count, which goes up by one. |
| Gen3.Session.WhileLoop | riscv_gen3.c:327-341 | generate_while_loop appends exactly WhileLoopCode with the old label_count, which goes up by one. |
| Gen3.Session.Return | riscv_gen3.c:343-349 | generate_return appends exactly ReturnCode. |

## Left out

- I/O is not modelled: `main`, file opening, the `fgets` passes over the input, and printing the listing. The phrase dispatch of `generate_riscv_code` (riscv_gen3.c:563-748, riscv_gen2_otimizado.c:462-512, riscv_gen.c:333-374) is left out too. Its scanf, if, if-else and while branches in riscv_gen3.c are modelled as the session methods `Scanf` and `ControlEvent`. Its printf branch (riscv_gen3.c:627-661) and its string-literal table are not modelled.
- Text formatting is not modelled: the `vsnprintf` formatting of `add_code_line`, the 256-character truncation of a line, and the `%*d` listing format. Lines are instruction values. Trailing `# ...` remarks on instruction lines are dropped, and embedded `\n` characters are not modelled.
- Floating point is not modelled: the float loads, `fmv.w.x` and the compares are tags only. `FloatBranchSkipsExactlyWhenFalse` reads them on ordered real values, not IEEE single precision.
- Execution semantics are not modelled: nothing states what the emitted program computes. The lemmas state what is emitted, including where it does not match what the comments suggest: `Gen1.SumLandsOutsideTheSlotRead`, `Gen3.ComplexAssignmentUsesFixedSlot`, `Gen3.WhileBackEdgeMissesItsLabel` and `Gen3.ReturnJumpsToUndefinedLabel`.
- Undefined behaviour is not replicated. Where the C code would read or write outside an array on malformed input, the model stops with a `Reducer.Fault`. This covers a token of 50+ characters, either stack past 100 entries, a reduction with fewer than two handles, riscv_gen2_otimizado.c reading `temp_stack[-1]` for the final result, and its 20-character operand buffers.
- Emitter.CodeBuffer.Add: a 1001st line is never stored. It is still recorded in the ghost log `Emitted`, which exists only for the proofs.
- Operators.OpStack.Push: it requires room on the stack. `push_op` itself writes past `op_stack[100]`, and the callers in the model check for room first and fault instead.
- Symbols.SymbolTable.Add: it requires the name to fit in `char name[50]` and the type in `char type[20]`. The `strcpy` overflow beyond those sizes is not modelled.
- riscv_gen2_otimizado.c's `process_expression` is modelled by the shared engine with its tables (`Codegen.Engine.Process` with draft RiscvGen2). That draft's own assignment never calls it, so `Gen2.Session` does not use the engine. `store_if_needed` is defined there but never called; it is modelled as `Codegen.Engine.StoreIfNeeded`.
- `is_numeric_constant` of riscv_gen2_otimizado.c is the same function as in riscv_gen3.c (`CText.IsNumericConstant`). Nothing in that draft's modelled code calls it.
- `get_expression_type`'s `strdup`/`free` and its static result buffer are not modelled; only the returned tag is.
- The `true_block` and `body` arguments of `generate_if_statement` and `generate_while_loop` are unused by the C code and do not appear in the model.
- Text is modelled as a sequence of characters, and the model is faithful only for ASCII text. The C code works on `char` bytes, so a non-ASCII character differs in three ways. First, the buffer limits count bytes, not characters: `char token[50]` (riscv_gen3.c:231), `left[20]`/`right[20]` (riscv_gen2_otimizado.c:388-393) and the `%49s %2s %49s` widths (riscv_gen3.c:476). Second, the scan loop of `process_expression` (riscv_gen3.c:238-293) sees each byte of a multi-byte character as a separate precedence -1 operator, and passes a negative `char` to `isalnum`. So `a é b` pushes two operators and reduces with one handle, where the model pushes one and does not fault. Third, `li %s, %d` of a character literal (riscv_gen3.c:135) prints a signed byte, whereas `Drafts.LoadOperandCode` uses the character's code point.
- 2ª versão/riscv_gen2.c is not part of this model.
