/** process_expression as a function: the shunting-yard scan of all three drafts over an
    explicit state (operator stack, value stack of temporary handles, temp_count, gen2's
    tmpOffset, the lines emitted so far and a fault). The drafts differ only in the tables
    of module Drafts and in where temporaries are placed (stack slots, or gen2's window).

    The C code has undefined behaviour on malformed input; here each such point stops the
    scan with a Fault before the offending step emits anything. */
module Reducer {
  import opened Basics
  import opened CText
  import opened Asm
  import opened Symbols
  import opened Operators
  import opened Drafts
  import opened Window

  /** `int temp_stack[100]`. */
  const MaxTemps := 100
  /** `char token[50]`: the longest operand that still leaves room for the NUL. */
  const MaxToken := 49

  /** The points where the C code would read or write outside its arrays. */
  datatype Fault =
    | TokenTooLong           // an operand of 50 or more characters overruns token[50]
    | ValueStackOverflow     // a 101st handle on temp_stack
    | ValueStackUnderflow    // a reduction with fewer than two handles (temp_stack[-1])
    | OperatorStackOverflow  // a 101st entry on op_stack
    | NoResult               // gen2 reads temp_stack[-1] for the final result
    | OperandTooLong         // gen2's assignment copies an operand of 20+ chars into char[20]

  /** What process_expression reads but does not change: the draft, the declared variables
      and `current_offset`, the base of the temporaries. */
  datatype Env = Env(draft: Draft, vars: seq<Variable>, frame: int)

  /** The lines one generator call emits, and the fault that stopped it early, if any. */
  datatype Outcome = Outcome(code: seq<Instr>, fault: Option<Fault>)

  datatype EState = EState(ops: seq<Operator>, temps: seq<int>, tempCount: int,
                           tmpOffset: int, code: seq<Instr>, fault: Option<Fault>)

  /** Where the scan of a word stops: the first index at or after i that is not isalnum/'_'. */
  function WordEnd(s: string, i: nat): (r: nat)
    requires i <= |s|
    ensures i <= r <= |s|
    ensures forall k :: i <= k < r ==> IsWordChar(s[k])
    ensures r < |s| ==> !IsWordChar(s[r])
    decreases |s| - i
  {
    if i < |s| && IsWordChar(s[i]) then WordEnd(s, i + 1) else i
  }

  /** WordEnd is the index the C token loop stops at: the first non-word index at or after i. */
  lemma {:induction false} WordEndIsFirstNonWord(s: string, i: nat, j: nat)
    requires i <= j <= |s|
    requires forall k :: i <= k < j ==> IsWordChar(s[k])
    requires j < |s| ==> !IsWordChar(s[j])
    ensures WordEnd(s, i) == j
    decreases j - i
  {
    if i < j {
      WordEndIsFirstNonWord(s, i + 1, j);
    }
  }

  /** gen2 moves tmpOffset down by one for each new temporary; the other drafts have none. */
  function NextOffset(env: Env, tmpOffset: int): int
  {
    if env.draft == RiscvGen2 then tmpOffset - 1 else tmpOffset
  }

  /** The lines for one operand that becomes temporary t. */
  function OperandCode(env: Env, tmpOffset: int, t: int, token: string): seq<Instr>
  {
    if env.draft == RiscvGen2 then
      if IsInRegister(tmpOffset, t) then
        var reg := RegName(RegisterIndex(t));
        [Comment(TempInRegister(t, reg, tmpOffset))] + LoadOperandCode(env.draft, env.vars, token, reg)
      else
        [Comment(TempInMemory(t, tmpOffset))] + LoadOperandCode(env.draft, env.vars, token, "t0")
        + [Sw("t0", TempSlot(env.frame, t))]
    else
      LoadOperandCode(env.draft, env.vars, token, "t0") + [Sw("t0", TempSlot(env.frame, t))]
  }

  /** The lines for one reduction: operands op1 and op2 combined by `op` into temporary result. */
  function ReductionCode(env: Env, tmpOffset: int, op: char, op1: int, op2: int, result: int): seq<Instr>
  {
    if env.draft == RiscvGen2 then
      LoadIfNeededCode(tmpOffset, env.frame, op1, "t0") + LoadIfNeededCode(tmpOffset, env.frame, op2, "t1")
      + OperationCode(env.draft, op, "t0", "t1", "t2")
      + (if IsInRegister(tmpOffset, result) then [Mv(RegName(RegisterIndex(result)), "t2")]
         else [Sw("t2", TempSlot(env.frame, result))])
    else
      [Lw("t0", TempSlot(env.frame, op1)), Lw("t1", TempSlot(env.frame, op2))]
      + OperationCode(env.draft, op, "t0", "t1", "t2") + [Sw("t2", TempSlot(env.frame, result))]
  }

  /** An operand token: a fresh handle `temp_count++` is pushed and its code emitted. */
  function Operand(env: Env, token: string, st: EState): EState
  {
    if |token| > MaxToken then st.(fault := Some(TokenTooLong))
    else if |st.temps| >= MaxTemps then st.(fault := Some(ValueStackOverflow))
    else
      var t := st.tempCount;
      st.(temps := st.temps + [t], tempCount := t + 1, tmpOffset := NextOffset(env, st.tmpOffset),
          code := st.code + OperandCode(env, st.tmpOffset, t, token))
  }

  /** One reduction: pop the top operator, pop the right then the left handle, push a fresh
      handle for the result. */
  function Reduce(env: Env, st: EState): (r: EState)
    requires st.ops != []
    ensures r.ops == DropLast(st.ops) && |r.ops| == |st.ops| - 1
    ensures r.fault == (if |st.temps| < 2 then Some(ValueStackUnderflow) else st.fault)
    ensures |st.temps| >= 2 ==> r.tempCount == st.tempCount + 1 && |r.temps| == |st.temps| - 1
  {
    var o := Last(st.ops);
    var n := |st.temps|;
    if n < 2 then st.(ops := DropLast(st.ops), fault := Some(ValueStackUnderflow))
    else
      var op2 := st.temps[n - 1];
      var op1 := st.temps[n - 2];
      var result := st.tempCount;
      st.(ops := DropLast(st.ops), temps := st.temps[..n - 2] + [result], tempCount := result + 1,
          tmpOffset := NextOffset(env, st.tmpOffset),
          code := st.code + ReductionCode(env, st.tmpOffset, o.op, op1, op2, result))
  }

  /** What a reduction does to the value stack: with two handles it replaces the top two by
      the fresh result handle and keeps every handle below them; with fewer it changes neither
      the handles nor the code. The code only grows. */
  lemma ReduceKeepsLowerHandles(env: Env, st: EState)
    requires st.ops != []
    ensures var r := Reduce(env, st);
            (|st.temps| >= 2 ==> r.temps[..|r.temps| - 1] == st.temps[..|st.temps| - 2] &&
                                 Last(r.temps) == st.tempCount) &&
            (|st.temps| < 2 ==> r.temps == st.temps && r.code == st.code) &&
            st.code <= r.code
  {
  }

  /** A reduction with two handles available, spelled out field by field. */
  lemma ReduceWithTwoHandles(env: Env, st: EState)
    requires st.ops != [] && |st.temps| >= 2
    ensures var n := |st.temps|;
            Reduce(env, st) ==
              st.(ops := DropLast(st.ops), temps := st.temps[..n - 2] + [st.tempCount],
                  tempCount := st.tempCount + 1, tmpOffset := NextOffset(env, st.tmpOffset),
                  code := st.code + ReductionCode(env, st.tmpOffset, Last(st.ops).op, st.temps[n - 2], st.temps[n - 1], st.tempCount))
  {
  }

  /** The reduce loop before an incoming operator: reduce while the top of the operator stack
      has precedence at least `prec`. */
  function ReduceWhilePrec(env: Env, prec: int, st: EState): EState
    decreases |st.ops|
  {
    if st.fault.Some? || st.ops == [] || Last(st.ops).precedence < prec then st
    else ReduceWhilePrec(env, prec, Reduce(env, st))
  }

  /** ')': reduce down to the nearest '(' and then pop that '(' if there is one. */
  function CloseParen(env: Env, st: EState): EState
    decreases |st.ops|
  {
    if st.fault.Some? || st.ops == [] then st
    else if Last(st.ops).op == '(' then st.(ops := DropLast(st.ops))
    else CloseParen(env, Reduce(env, st))
  }

  /** '(': push it with precedence 0. */
  function OpenParen(st: EState): EState
  {
    if |st.ops| >= MaxOps then st.(fault := Some(OperatorStackOverflow))
    else st.(ops := st.ops + [Operator('(', 0)])
  }

  /** Any other non-space character is an operator: reduce, then push it with its precedence. */
  function PushOperator(env: Env, c: char, st: EState): EState
  {
    var p := Precedence(env.draft, c);
    var s1 := ReduceWhilePrec(env, p, st);
    if s1.fault.Some? then s1
    else if |s1.ops| >= MaxOps then s1.(fault := Some(OperatorStackOverflow))
    else s1.(ops := s1.ops + [Operator(c, p)])
  }

  /** The main for-loop from position i on. */
  function Scan(env: Env, expr: string, i: nat, st: EState): EState
    requires i <= |expr|
    decreases |expr| - i
  {
    if i == |expr| || st.fault.Some? then st
    else
      var c := expr[i];
      if IsSpace(c) then Scan(env, expr, i + 1, st)
      else if IsWordChar(c) then
        var j := WordEnd(expr, i);
        Scan(env, expr, j, Operand(env, expr[i..j], st))
      else if c == '(' then Scan(env, expr, i + 1, OpenParen(st))
      else if c == ')' then Scan(env, expr, i + 1, CloseParen(env, st))
      else Scan(env, expr, i + 1, PushOperator(env, c, st))
  }

  /** The final loop: reduce whatever is left on the operator stack. */
  function ReduceAll(env: Env, st: EState): EState
    decreases |st.ops|
  {
    if st.fault.Some? || st.ops == [] then st
    else ReduceAll(env, Reduce(env, st))
  }

  /** The state a call starts from: both stacks empty, temp_count and tmpOffset 0; riscv_gen.c
      first emits a comment naming the expression. */
  function Start(env: Env, expr: string): EState
  {
    EState([], [], 0, 0, if env.draft == RiscvGen then [Comment(Processing(expr))] else [], None)
  }

  /** gen2's last step: report where the final temporary is, or load it from its slot. */
  function Finish(env: Env, st: EState): EState
  {
    if env.draft != RiscvGen2 || st.fault.Some? then st
    else if st.temps == [] then st.(fault := Some(NoResult))
    else
      var t := Last(st.temps);
      st.(code := st.code + if IsInRegister(st.tmpOffset, t) then [Comment(ResultInRegister(RegName(RegisterIndex(t))))]
                            else [Lw("t0", TempSlot(env.frame, t))])
  }

  /** One whole process_expression call, up to the final `temp_count = 0`. */
  function Evaluate(env: Env, expr: string): EState
  {
    Finish(env, ReduceAll(env, Scan(env, expr, 0, Start(env, expr))))
  }

  // ---------------------------------------------------------------------------------------
  // The handle discipline

  /** Every store in `code` is a `sw` into a slot at or above `frame`, where the temporaries are. */
  ghost predicate StoresOnlyTemps(frame: int, code: seq<Instr>)
  {
    forall x :: x in code && IsStore(x) ==> x.Sw? && x.offset >= frame
  }

  /** No label and no branch or jump: the expression code runs straight through. */
  ghost predicate StraightLine(code: seq<Instr>)
  {
    forall x :: x in code ==> !IsControl(x)
  }

  /** No store at all: nothing is spilled to memory. */
  ghost predicate SpillFree(code: seq<Instr>)
  {
    forall x :: x in code ==> !IsStore(x)
  }

  /** What holds between any two steps of the scan: both stacks within their arrays; every
      stacked operator carries its own precedence; the handles on the value stack strictly
      increase, lie in [0, temp_count) and the top one is the newest; gen2's tmpOffset moves in
      lockstep with temp_count; the code so far stores only into temporaries' slots, and in
      gen2 it stores nothing. */
  ghost predicate Disciplined(env: Env, st: EState)
  {
    |st.ops| <= MaxOps && |st.temps| <= MaxTemps && 0 <= st.tempCount &&
    (forall j :: 0 <= j < |st.ops| ==> st.ops[j].precedence == Precedence(env.draft, st.ops[j].op)) &&
    (forall i, j :: 0 <= i < j < |st.temps| ==> st.temps[i] < st.temps[j]) &&
    (forall i :: 0 <= i < |st.temps| ==> 0 <= st.temps[i] < st.tempCount) &&
    (st.temps != [] ==> Last(st.temps) == st.tempCount - 1) &&
    st.tmpOffset == (if env.draft == RiscvGen2 then -st.tempCount else 0) &&
    StoresOnlyTemps(env.frame, st.code) && StraightLine(st.code) &&
    (env.draft == RiscvGen2 ==> SpillFree(st.code))
  }

  lemma StartIsDisciplined(env: Env, expr: string)
    ensures Disciplined(env, Start(env, expr))
  {
  }

  /** The code of an operand keeps the discipline: gen/gen3 store only into the new
      temporary's slot, and in gen2 the new temporary is always in the window. */
  lemma OperandKeepsDiscipline(env: Env, token: string, st: EState)
    requires Disciplined(env, st)
    ensures Disciplined(env, Operand(env, token, st))
  {
    if |token| <= MaxToken && |st.temps| < MaxTemps {
      var t := st.tempCount;
      var r := Operand(env, token, st);
      var chunk := OperandCode(env, st.tmpOffset, t, token);
      assert r.code == st.code + chunk;
      if env.draft == RiscvGen2 {
        assert IsInRegister(st.tmpOffset, t);
      }
      assert forall x :: x in chunk && IsStore(x) ==> x == Sw("t0", TempSlot(env.frame, t));
      assert forall i :: 0 <= i < |r.temps| - 1 ==> r.temps[i] == st.temps[i];
    }
  }

  /** The lines of one reduction run straight through, store only the result's slot, and in
      gen2, once the result is in the window, store nothing. */
  lemma ReductionCodeIsTame(env: Env, tmpOffset: int, op: char, op1: int, op2: int, result: int)
    ensures var chunk := ReductionCode(env, tmpOffset, op, op1, op2, result);
            StraightLine(chunk) &&
            (forall x :: x in chunk && IsStore(x) ==> x == Sw("t2", TempSlot(env.frame, result))) &&
            (env.draft == RiscvGen2 && IsInRegister(tmpOffset, result) ==> SpillFree(chunk))
  {
  }

  /** The code predicates of the discipline carry over to a concatenation. */
  lemma TameConcat(frame: int, a: seq<Instr>, b: seq<Instr>)
    ensures StoresOnlyTemps(frame, a) && StoresOnlyTemps(frame, b) ==> StoresOnlyTemps(frame, a + b)
    ensures StraightLine(a) && StraightLine(b) ==> StraightLine(a + b)
    ensures SpillFree(a) && SpillFree(b) ==> SpillFree(a + b)
  {
  }

  /** A reduction keeps the discipline, and its result handle is fresh: it is on the stack
      nowhere else and its slot differs from every remaining handle's slot. */
  lemma ReduceKeepsDiscipline(env: Env, st: EState)
    requires Disciplined(env, st) && st.ops != []
    ensures Disciplined(env, Reduce(env, st))
    ensures |st.temps| >= 2 ==>
              var r := Reduce(env, st);
              Last(r.temps) == st.tempCount &&
              forall i :: 0 <= i < |r.temps| - 1 ==>
                r.temps[i] != st.tempCount && TempSlot(env.frame, r.temps[i]) != TempSlot(env.frame, st.tempCount)
  {
    var n := |st.temps|;
    if n >= 2 {
      ReduceWithTwoHandles(env, st);
      var r := Reduce(env, st);
      var result := st.tempCount;
      var chunk := ReductionCode(env, st.tmpOffset, Last(st.ops).op, st.temps[n - 2], st.temps[n - 1], result);
      assert r.code == st.code + chunk;
      ReductionCodeIsTame(env, st.tmpOffset, Last(st.ops).op, st.temps[n - 2], st.temps[n - 1], result);
      if env.draft == RiscvGen2 {
        assert IsInRegister(st.tmpOffset, result);
      }
      assert StoresOnlyTemps(env.frame, chunk);
      TameConcat(env.frame, st.code, chunk);
      assert forall i :: 0 <= i < n - 2 ==> r.temps[i] == st.temps[i];
    }
  }

  lemma {:induction false} ReduceWhilePrecKeepsDiscipline(env: Env, prec: int, st: EState)
    requires Disciplined(env, st)
    ensures Disciplined(env, ReduceWhilePrec(env, prec, st))
    decreases |st.ops|
  {
    if !(st.fault.Some? || st.ops == [] || Last(st.ops).precedence < prec) {
      ReduceKeepsDiscipline(env, st);
      ReduceWhilePrecKeepsDiscipline(env, prec, Reduce(env, st));
    }
  }

  lemma {:induction false} CloseParenKeepsDiscipline(env: Env, st: EState)
    requires Disciplined(env, st)
    ensures Disciplined(env, CloseParen(env, st))
    decreases |st.ops|
  {
    if !(st.fault.Some? || st.ops == []) && Last(st.ops).op != '(' {
      ReduceKeepsDiscipline(env, st);
      CloseParenKeepsDiscipline(env, Reduce(env, st));
    }
  }

  lemma {:induction false} ReduceAllKeepsDiscipline(env: Env, st: EState)
    requires Disciplined(env, st)
    ensures Disciplined(env, ReduceAll(env, st))
    decreases |st.ops|
  {
    if !(st.fault.Some? || st.ops == []) {
      ReduceKeepsDiscipline(env, st);
      ReduceAllKeepsDiscipline(env, Reduce(env, st));
    }
  }

  lemma PushOperatorKeepsDiscipline(env: Env, c: char, st: EState)
    requires Disciplined(env, st)
    ensures Disciplined(env, PushOperator(env, c, st))
  {
    ReduceWhilePrecKeepsDiscipline(env, Precedence(env.draft, c), st);
  }

  lemma {:induction false} ScanKeepsDiscipline(env: Env, expr: string, i: nat, st: EState)
    requires i <= |expr| && Disciplined(env, st)
    ensures Disciplined(env, Scan(env, expr, i, st))
    decreases |expr| - i
  {
    if i < |expr| && st.fault.None? {
      var c := expr[i];
      if IsSpace(c) {
        ScanKeepsDiscipline(env, expr, i + 1, st);
      } else if IsWordChar(c) {
        var j := WordEnd(expr, i);
        OperandKeepsDiscipline(env, expr[i..j], st);
        ScanKeepsDiscipline(env, expr, j, Operand(env, expr[i..j], st));
      } else if c == '(' {
        ScanKeepsDiscipline(env, expr, i + 1, OpenParen(st));
      } else if c == ')' {
        CloseParenKeepsDiscipline(env, st);
        ScanKeepsDiscipline(env, expr, i + 1, CloseParen(env, st));
      } else {
        PushOperatorKeepsDiscipline(env, c, st);
        ScanKeepsDiscipline(env, expr, i + 1, PushOperator(env, c, st));
      }
    }
  }

  /** The reduce loop at the end leaves the operator stack empty unless a fault stopped it. */
  lemma {:induction false} ReduceAllEmptiesOperators(env: Env, st: EState)
    ensures var r := ReduceAll(env, st);
            (r.fault.None? ==> r.ops == []) && (st.fault.Some? ==> r == st)
    decreases |st.ops|
  {
    if !(st.fault.Some? || st.ops == []) {
      ReduceAllEmptiesOperators(env, Reduce(env, st));
    }
  }

  /** On every input, a whole process_expression call keeps the discipline: temp_stack stays
      strictly increasing and below temp_count with the newest handle on top, every store of the
      emitted code lands in a temporary's slot at or above current_offset, gen2 emits no store
      at all (its "-> memória" branches are unreachable), and a call that did not fault has
      reduced every operator. */
  lemma EvaluateKeepsDiscipline(env: Env, expr: string)
    ensures Disciplined(env, Evaluate(env, expr))
    ensures Evaluate(env, expr).fault.None? ==> Evaluate(env, expr).ops == []
  {
    var s0 := Start(env, expr);
    StartIsDisciplined(env, expr);
    ScanKeepsDiscipline(env, expr, 0, s0);
    var s1 := Scan(env, expr, 0, s0);
    ReduceAllKeepsDiscipline(env, s1);
    ReduceAllEmptiesOperators(env, s1);
    var s2 := ReduceAll(env, s1);
    if env.draft == RiscvGen2 && s2.fault.None? && s2.temps != [] {
      var r := Finish(env, s2);
      assert forall x :: x in r.code ==> x in s2.code || x.Comment? || x.Lw?;
    }
  }

  /** The expression code never writes a declared variable: every store it contains lies above
      every variable's slot. */
  lemma ExpressionNeverWritesVariables(env: Env, expr: string)
    requires WellFormed(env.vars, env.frame)
    ensures forall x, i :: x in Evaluate(env, expr).code && IsStore(x) && 0 <= i < |env.vars| ==>
              env.vars[i].offset + env.vars[i].size <= x.offset
  {
    EvaluateKeepsDiscipline(env, expr);
    LayoutOrdersSlots(env.vars, env.frame);
  }

  // ---------------------------------------------------------------------------------------
  // Reduction order

  /** The reduce loop pops exactly the operators above the topmost one of precedence below
      `prec`, one reduction each: what is left is a prefix of the stack whose top binds less
      tightly than `prec`, every popped operator bound at least as tightly, and each pop made
      one fresh temporary and took one handle off the value stack. */
  lemma ReduceWhilePrecPopsTighterOperators(env: Env, prec: int, st: EState)
    requires st.fault.None?
    ensures var r := ReduceWhilePrec(env, prec, st);
            |r.ops| <= |st.ops| && r.ops == st.ops[..|r.ops|] &&
            (r.fault.None? ==>
               (r.ops == [] || Last(r.ops).precedence < prec) &&
               (forall j :: |r.ops| <= j < |st.ops| ==> st.ops[j].precedence >= prec) &&
               r.tempCount == st.tempCount + (|st.ops| - |r.ops|) &&
               |r.temps| == |st.temps| - (|st.ops| - |r.ops|))
  {
    ReduceWhilePrecKeepsPrefix(env, prec, st);
    ReduceWhilePrecPopsOnlyTighter(env, prec, st);
    ReduceWhilePrecCountsPops(env, prec, st);
  }

  lemma {:induction false} ReduceWhilePrecKeepsPrefix(env: Env, prec: int, st: EState)
    ensures var r := ReduceWhilePrec(env, prec, st);
            |r.ops| <= |st.ops| && r.ops == st.ops[..|r.ops|]
    decreases |st.ops|
  {
    if !(st.fault.Some? || st.ops == [] || Last(st.ops).precedence < prec) {
      var s1 := Reduce(env, st);
      ReduceWhilePrecKeepsPrefix(env, prec, s1);
      assert st.ops == s1.ops + [Last(st.ops)];
    }
  }

  lemma {:induction false} ReduceWhilePrecPopsOnlyTighter(env: Env, prec: int, st: EState)
    ensures var r := ReduceWhilePrec(env, prec, st);
            r.fault.None? ==>
              (r.ops == [] || Last(r.ops).precedence < prec) &&
              (forall j :: |r.ops| <= j < |st.ops| ==> st.ops[j].precedence >= prec)
    decreases |st.ops|
  {
    if !(st.fault.Some? || st.ops == [] || Last(st.ops).precedence < prec) {
      var s1 := Reduce(env, st);
      ReduceWhilePrecPopsOnlyTighter(env, prec, s1);
      ReduceWhilePrecKeepsPrefix(env, prec, s1);
      var r := ReduceWhilePrec(env, prec, s1);
      if r.fault.None? {
        forall j | |r.ops| <= j < |st.ops|
          ensures st.ops[j].precedence >= prec
        {
          if j < |s1.ops| {
            assert st.ops[j] == s1.ops[j];
          } else {
            assert st.ops[j] == Last(st.ops);
          }
        }
      }
    }
  }

  lemma {:induction false} ReduceWhilePrecCountsPops(env: Env, prec: int, st: EState)
    ensures var r := ReduceWhilePrec(env, prec, st);
            r.fault.None? ==>
              r.tempCount == st.tempCount + (|st.ops| - |r.ops|) &&
              |r.temps| == |st.temps| - (|st.ops| - |r.ops|)
    decreases |st.ops|
  {
    if !(st.fault.Some? || st.ops == [] || Last(st.ops).precedence < prec) {
      var s1 := Reduce(env, st);
      ReduceWhilePrecCountsPops(env, prec, s1);
    }
  }

  /** The index of the topmost '(' on an operator stack. */
  function LastOpen(ops: seq<Operator>): (r: Option<nat>)
    ensures r.Some? ==> r.value < |ops| && ops[r.value].op == '('
    ensures r.Some? ==> forall j :: r.value < j < |ops| ==> ops[j].op != '('
    ensures r.None? <==> forall j :: 0 <= j < |ops| ==> ops[j].op != '('
  {
    if ops == [] then None
    else if Last(ops).op == '(' then Some(|ops| - 1)
    else LastOpen(DropLast(ops))
  }

  /** ')' reduces every operator above the nearest '(' and removes that '(' and nothing below
      it; without a '(' it reduces the whole stack. */
  lemma {:induction false} CloseParenStopsAtNearestOpen(env: Env, st: EState)
    requires st.fault.None?
    ensures var r := CloseParen(env, st);
            r.fault.None? ==>
              r.ops == (match LastOpen(st.ops) case Some(p) => st.ops[..p] case None => []) &&
              r.tempCount == st.tempCount + (match LastOpen(st.ops) case Some(p) => |st.ops| - 1 - p case None => |st.ops|)
    decreases |st.ops|
  {
    if st.ops != [] && Last(st.ops).op != '(' {
      var s1 := Reduce(env, st);
      if s1.fault.None? {
        CloseParenStopsAtNearestOpen(env, s1);
        assert s1.ops == DropLast(st.ops);
      }
    }
  }

  /** An incoming operator is pushed only after every stacked operator that binds at least as
      tightly has been reduced: with `>=` this makes operators of one precedence level
      associate to the left. */
  lemma PushOperatorReducesFirst(env: Env, c: char, st: EState)
    requires st.fault.None?
    ensures var r := PushOperator(env, c, st);
            var p := Precedence(env.draft, c);
            r.fault.None? ==>
              r.ops != [] && Last(r.ops) == Operator(c, p) &&
              var below := DropLast(r.ops);
              |below| <= |st.ops| && below == st.ops[..|below|] &&
              (below == [] || Last(below).precedence < p) &&
              (forall j :: |below| <= j < |st.ops| ==> st.ops[j].precedence >= p)
  {
    var p := Precedence(env.draft, c);
    ReduceWhilePrecPopsTighterOperators(env, p, st);
    var s1 := ReduceWhilePrec(env, p, st);
    var r := PushOperator(env, c, st);
    if r.fault.None? {
      assert DropLast(r.ops) == s1.ops;
    }
  }

  /** A character with precedence -1 (an unknown operator) reduces the whole operator stack,
      '(' entries included, before it is pushed. */
  lemma UnknownOperatorFlushesStack(env: Env, c: char, st: EState)
    requires Disciplined(env, st) && st.fault.None? && Precedence(env.draft, c) == -1
    ensures var r := PushOperator(env, c, st);
            r.fault.None? ==> r.ops == [Operator(c, -1)]
  {
    PushOperatorReducesFirst(env, c, st);
    var r := PushOperator(env, c, st);
    if r.fault.None? {
      var below := DropLast(r.ops);
      assert forall j :: 0 <= j < |st.ops| ==> st.ops[j].precedence >= -1;
      assert r.ops == below + [Operator(c, -1)];
    }
  }
}
