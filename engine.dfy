/** The emitters and process_expression as the C code runs them: methods that change the code
    buffer, the operator stack and the `temp_count` / gen2 `tmpOffset` globals step by step,
    each proved to emit exactly what the functions of modules Drafts, Window and Reducer
    describe. */
module Codegen {
  import opened Basics
  import opened CText
  import opened Asm
  import opened Emitter
  import opened Symbols
  import opened Operators
  import opened Drafts
  import opened Window
  import opened Reducer

  /** The Env a call sees: the draft, the table's variables and `current_offset`. */
  ghost predicate EnvOf(env: Env, d: Draft, syms: SymbolTable)
    reads syms, syms.entries
  {
    syms.Valid() && env == Env(d, syms.Vars(), syms.currentOffset)
  }

  /** generate_load_operand. */
  method LoadOperand(d: Draft, syms: SymbolTable, out: CodeBuffer, operand: string, reg: Reg)
    requires syms.Valid() && out.Valid()
    modifies out, out.lines
    ensures out.Valid() && out.Emitted == old(out.Emitted) + (LoadOperandCode(d, syms.Vars(), operand, reg))
  {
    if |operand| > 0 && IsDigit(operand[0]) {
      out.Add(Li(reg, Text(operand)));
    } else if d == RiscvGen3 && |operand| > 0 && operand[0] == '\'' {
      out.Add(Li(reg, Int(CharLiteralCode(operand))));
    } else if d == RiscvGen3 && |operand| > 0 && operand[0] == '"' {
      out.Add(La(reg, operand));
    } else {
      var found := syms.Find(operand);
      if found.None? {
        out.Add(Comment(UndeclaredVariable(operand)));
      } else {
        var v := syms.entries[found.value];
        if d == RiscvGen3 {
          if v.vtype == "FLOAT" || v.vtype == "FLOAT_KW" {
            out.Add(Flw(reg, v.offset));
          } else if v.vtype == "DOUBLE" || v.vtype == "DOUBLE_KW" {
            out.Add(Fld(reg, v.offset));
          } else {
            out.Add(Lw(reg, v.offset));
          }
        } else if d == RiscvGen2 {
          out.Add(Lw(reg, v.offset));
        } else if v.size == 4 {
          out.Add(Lw(reg, v.offset));
        } else if v.size == 8 {
          out.Add(Ld(reg, v.offset));
        } else if v.size == 1 {
          out.Add(Lb(reg, v.offset));
        }
      }
    }
  }

  /** generate_operation. */
  method GenerateOperation(d: Draft, out: CodeBuffer, op: char, reg1: Reg, reg2: Reg, dest: Reg)
    requires out.Valid()
    modifies out, out.lines
    ensures out.Valid() && out.Emitted == old(out.Emitted) + (OperationCode(d, op, reg1, reg2, dest))
  {
    ghost var b := out.Emitted;
    if op == '+' {
      out.Add(Alu(Add, dest, reg1, reg2));
    } else if op == '-' {
      out.Add(Alu(Sub, dest, reg1, reg2));
    } else if op == '*' {
      out.Add(Alu(Mul, dest, reg1, reg2));
    } else if op == '/' {
      out.Add(Alu(Div, dest, reg1, reg2));
    } else if op == '%' {
      out.Add(Alu(Rem, dest, reg1, reg2));
    } else if d == RiscvGen3 {
      if op == '&' {
        out.Add(Alu(And, dest, reg1, reg2));
      } else if op == '|' {
        out.Add(Alu(Or, dest, reg1, reg2));
      } else if op == '^' {
        out.Add(Alu(Xor, dest, reg1, reg2));
      } else if op == '=' || op == '!' {
        out.Add(Alu(Xor, dest, reg1, reg2));
        var second := if op == '=' then Seqz(dest, dest) else Snez(dest, dest);
        out.Add(second);
      } else if op == '<' {
        out.Add(Alu(Slt, dest, reg1, reg2));
      } else if op == '>' {
        out.Add(Alu(Sgt, dest, reg1, reg2));
      }
    }
  }

  /** generate_temp_store: `sw reg` into temporary t's slot. */
  method TempStore(syms: SymbolTable, out: CodeBuffer, t: int, reg: Reg)
    requires out.Valid()
    modifies out, out.lines
    ensures out.Valid() && out.Emitted == old(out.Emitted) + ([Sw(reg, TempSlot(syms.currentOffset, t))])
  {
    out.Add(Sw(reg, TempSlot(syms.currentOffset, t)));
  }

  /** generate_temp_load: `lw reg` from temporary t's slot. */
  method TempLoad(syms: SymbolTable, out: CodeBuffer, t: int, reg: Reg)
    requires out.Valid()
    modifies out, out.lines
    ensures out.Valid() && out.Emitted == old(out.Emitted) + ([Lw(reg, TempSlot(syms.currentOffset, t))])
  {
    out.Add(Lw(reg, TempSlot(syms.currentOffset, t)));
  }

  /** The globals process_expression works on: op_stack, temp_count and, in gen2, tmpOffset. */
  class Engine {
    const draft: Draft
    const ops: OpStack
    var tempCount: int
    var tmpOffset: int

    /** Between two calls temp_count is 0 (each call resets it at the end); only gen2 moves
        tmpOffset, and it leaves it where the last call ended. */
    ghost predicate Valid()
      reads this, ops
    {
      ops.Valid() && tempCount == 0 && (draft != RiscvGen2 ==> tmpOffset == 0)
    }

    constructor (d: Draft)
      ensures Valid() && draft == d && fresh(ops) && ops.Contents() == [] && tmpOffset == 0
    {
      draft := d;
      ops := new OpStack();
      tempCount := 0;
      tmpOffset := 0;
    }

    /** The machine state is the abstract state `st`: the operator stack, the live part of the
        local temp_stack, the two counters, and the lines emitted since the call began. */
    ghost predicate Mirrors(env: Env, st: EState, temps: array<int>, top: int, out: CodeBuffer, out0: seq<Instr>)
      reads this, ops, ops.items, temps, out, out.lines
    {
      env.draft == draft && ops.Valid() && out.Valid() &&
      temps.Length == MaxTemps && -1 <= top < MaxTemps &&
      ops.Contents() == st.ops && temps[..top + 1] == st.temps &&
      tempCount == st.tempCount && tmpOffset == st.tmpOffset &&
      out.Emitted == out0 + st.code
    }

    /** load_if_needed (gen2). */
    method LoadIfNeeded(syms: SymbolTable, out: CodeBuffer, t: int, reg: Reg)
      requires out.Valid()
      modifies out, out.lines
      ensures out.Valid()
      ensures out.Emitted == old(out.Emitted) + (LoadIfNeededCode(tmpOffset, syms.currentOffset, t, reg))
    {
      if IsInRegister(tmpOffset, t) {
        var regIndex := RegisterIndex(t);
        if reg != RegName(regIndex) {
          out.Add(Mv(reg, RegName(regIndex)));
        }
      } else {
        out.Add(Lw(reg, TempSlot(syms.currentOffset, t)));
      }
    }

    /** store_if_needed (gen2; defined there but never called). */
    method StoreIfNeeded(syms: SymbolTable, out: CodeBuffer, t: int, reg: Reg)
      requires out.Valid()
      modifies out, out.lines
      ensures out.Valid()
      ensures out.Emitted == old(out.Emitted) + (StoreIfNeededCode(tmpOffset, syms.currentOffset, t, reg))
    {
      if !IsInRegister(tmpOffset, t) {
        out.Add(Sw(reg, TempSlot(syms.currentOffset, t)));
      }
    }

    /** The lines one operand emits: the gen2 window comment and load, or the load into t0
        and generate_temp_store. */
    method EmitOperand(ghost env: Env, syms: SymbolTable, out: CodeBuffer, t: int, token: string)
      requires EnvOf(env, draft, syms) && out.Valid()
      modifies out, out.lines
      ensures out.Valid() && out.Emitted == old(out.Emitted) + (OperandCode(env, tmpOffset, t, token))
    {
      ghost var b := out.Emitted;
      if draft == RiscvGen2 {
        if IsInRegister(tmpOffset, t) {
          var reg := RegName(RegisterIndex(t));
          var note := Comment(TempInRegister(t, reg, tmpOffset));
          ghost var load := LoadOperandCode(draft, syms.Vars(), token, reg);
          out.Add(note);
          LoadOperand(draft, syms, out, token, reg);
          Extend(b, [note], load);
        } else {
          var note := Comment(TempInMemory(t, tmpOffset));
          ghost var load := LoadOperandCode(draft, syms.Vars(), token, "t0");
          out.Add(note);
          LoadOperand(draft, syms, out, token, "t0");
          Extend(b, [note], load);
          var store := Sw("t0", TempSlot(syms.currentOffset, t));
          out.Add(store);
          Extend(b, [note] + load, [store]);
        }
      } else {
        ghost var load := LoadOperandCode(draft, syms.Vars(), token, "t0");
        LoadOperand(draft, syms, out, token, "t0");
        TempStore(syms, out, t, "t0");
        Extend(b, load, [Sw("t0", TempSlot(syms.currentOffset, t))]);
      }
    }

    /** The lines one reduction emits: the loads of both operands, generate_operation and the
        store (or, in gen2, the register move) of the result. */
    method EmitReduction(ghost env: Env, syms: SymbolTable, out: CodeBuffer, op: char, op1: int, op2: int, result: int)
      requires EnvOf(env, draft, syms) && out.Valid()
      modifies out, out.lines
      ensures out.Valid() && out.Emitted == old(out.Emitted) + (ReductionCode(env, tmpOffset, op, op1, op2, result))
    {
      ghost var b := out.Emitted;
      ghost var opCode := OperationCode(draft, op, "t0", "t1", "t2");
      if draft == RiscvGen2 {
        ghost var l1 := LoadIfNeededCode(tmpOffset, syms.currentOffset, op1, "t0");
        ghost var l2 := LoadIfNeededCode(tmpOffset, syms.currentOffset, op2, "t1");
        LoadIfNeeded(syms, out, op1, "t0");
        LoadIfNeeded(syms, out, op2, "t1");
        Extend(b, l1, l2);
        GenerateOperation(draft, out, op, "t0", "t1", "t2");
        Extend(b, l1 + l2, opCode);
        var last;
        if IsInRegister(tmpOffset, result) {
          var regIndex := RegisterIndex(result);
          last := Mv(RegName(regIndex), "t2");
        } else {
          last := Sw("t2", TempSlot(syms.currentOffset, result));
        }
        out.Add(last);
        Extend(b, l1 + l2 + opCode, [last]);
      } else {
        ghost var l1 := [Lw("t0", TempSlot(syms.currentOffset, op1))];
        ghost var l2 := [Lw("t1", TempSlot(syms.currentOffset, op2))];
        TempLoad(syms, out, op1, "t0");
        TempLoad(syms, out, op2, "t1");
        Extend(b, l1, l2);
        GenerateOperation(draft, out, op, "t0", "t1", "t2");
        Extend(b, l1 + l2, opCode);
        TempStore(syms, out, result, "t2");
        Extend(b, l1 + l2 + opCode, [Sw("t2", TempSlot(syms.currentOffset, result))]);
        assert l1 + l2 == [Lw("t0", TempSlot(env.frame, op1)), Lw("t1", TempSlot(env.frame, op2))];
      }
    }

    /** The operand branch of the main loop, once the token has been collected. */
    method OperandStep(ghost env: Env, syms: SymbolTable, out: CodeBuffer, temps: array<int>, top: int,
                       ghost out0: seq<Instr>, ghost cur: EState, token: string)
      returns (top': int, fault: Option<Fault>, ghost next: EState)
      requires Mirrors(env, cur, temps, top, out, out0) && EnvOf(env, draft, syms) && cur.fault.None?
      modifies this, temps, out, out.lines
      ensures Mirrors(env, next, temps, top', out, out0)
      ensures next == Operand(env, token, cur) && fault == next.fault
    {
      next := Operand(env, token, cur);
      top' := top;
      if |token| > MaxToken {
        return top', Some(TokenTooLong), next;
      }
      if top + 1 >= MaxTemps {
        return top', Some(ValueStackOverflow), next;
      }
      fault := None;
      var t := tempCount;
      EmitOperand(env, syms, out, t, token);
      Extend(out0, cur.code, OperandCode(env, cur.tmpOffset, t, token));
      tempCount := t + 1;
      if draft == RiscvGen2 {
        tmpOffset := tmpOffset - 1;
      }
      top' := top + 1;
      temps[top'] := t;
      assert temps[..top' + 1] == cur.temps + [t];
    }

    /** Pop two handles, emit their reduction by `op` and push the result handle
        `temp_count++`. */
    method Combine(ghost env: Env, syms: SymbolTable, out: CodeBuffer, temps: array<int>, top: int,
                   ghost out0: seq<Instr>, ghost cur: EState, op: char)
      returns (top': int, ghost next: EState)
      requires Mirrors(env, cur, temps, top, out, out0) && EnvOf(env, draft, syms) && |cur.temps| >= 2
      modifies this, temps, out, out.lines
      ensures Mirrors(env, next, temps, top', out, out0)
      ensures var n := |cur.temps|;
              next == cur.(temps := cur.temps[..n - 2] + [cur.tempCount], tempCount := cur.tempCount + 1,
                           tmpOffset := NextOffset(env, cur.tmpOffset),
                           code := cur.code + ReductionCode(env, cur.tmpOffset, op, cur.temps[n - 2], cur.temps[n - 1], cur.tempCount))
    {
      ghost var n := |cur.temps|;
      var op2 := temps[top];
      var op1 := temps[top - 1];
      assert op2 == cur.temps[n - 1] && op1 == cur.temps[n - 2];
      var result := tempCount;
      ghost var chunk := ReductionCode(env, cur.tmpOffset, op, op1, op2, result);
      EmitReduction(env, syms, out, op, op1, op2, result);
      Extend(out0, cur.code, chunk);
      tempCount := result + 1;
      if draft == RiscvGen2 {
        tmpOffset := tmpOffset - 1;
      }
      top' := top - 1;
      ghost var kept := temps[..top'];
      assert kept == cur.temps[..n - 2];
      temps[top'] := result;
      assert temps[..top' + 1] == kept + [result];
      next := cur.(temps := kept + [result], tempCount := result + 1, tmpOffset := NextOffset(env, cur.tmpOffset),
                   code := cur.code + chunk);
    }

    /** One reduction: pop_op, then the two handles, as Combine does. */
    method ReduceStep(ghost env: Env, syms: SymbolTable, out: CodeBuffer, temps: array<int>, top: int,
                      ghost out0: seq<Instr>, ghost cur: EState)
      returns (top': int, fault: Option<Fault>, ghost next: EState)
      requires Mirrors(env, cur, temps, top, out, out0) && EnvOf(env, draft, syms)
      requires cur.fault.None? && cur.ops != []
      modifies this, ops, temps, out, out.lines
      ensures Mirrors(env, next, temps, top', out, out0)
      ensures next == Reduce(env, cur) && fault == next.fault
    {
      var o := ops.Pop();
      ghost var popped := cur.(ops := DropLast(cur.ops));
      if top < 1 {
        return top, Some(ValueStackUnderflow), popped.(fault := Some(ValueStackUnderflow));
      }
      ReduceWithTwoHandles(env, cur);
      top', next := Combine(env, syms, out, temps, top, out0, popped, o.op);
      fault := None;
    }

    /** The reduce loop before an incoming operator. */
    method ReduceWhilePrecLoop(ghost env: Env, syms: SymbolTable, out: CodeBuffer, temps: array<int>, top: int,
                               ghost out0: seq<Instr>, ghost cur: EState, prec: int)
      returns (top': int, fault: Option<Fault>, ghost next: EState)
      requires Mirrors(env, cur, temps, top, out, out0) && EnvOf(env, draft, syms) && cur.fault.None?
      modifies this, ops, temps, out, out.lines
      ensures Mirrors(env, next, temps, top', out, out0)
      ensures next == ReduceWhilePrec(env, prec, cur) && fault == next.fault
    {
      top', fault, next := top, None, cur;
      while fault.None? && !ops.IsEmpty() && ops.Peek().precedence >= prec
        invariant Mirrors(env, next, temps, top', out, out0) && fault == next.fault
        invariant ReduceWhilePrec(env, prec, next) == ReduceWhilePrec(env, prec, cur)
        decreases |next.ops|
      {
        top', fault, next := ReduceStep(env, syms, out, temps, top', out0, next);
      }
    }

    /** The ')' branch: reduce down to the nearest '(' and pop it. */
    method CloseParenStep(ghost env: Env, syms: SymbolTable, out: CodeBuffer, temps: array<int>, top: int,
                          ghost out0: seq<Instr>, ghost cur: EState)
      returns (top': int, fault: Option<Fault>, ghost next: EState)
      requires Mirrors(env, cur, temps, top, out, out0) && EnvOf(env, draft, syms) && cur.fault.None?
      modifies this, ops, temps, out, out.lines
      ensures Mirrors(env, next, temps, top', out, out0)
      ensures next == CloseParen(env, cur) && fault == next.fault
    {
      top', fault, next := top, None, cur;
      while fault.None? && !ops.IsEmpty() && ops.Peek().op != '('
        invariant Mirrors(env, next, temps, top', out, out0) && fault == next.fault
        invariant CloseParen(env, next) == CloseParen(env, cur)
        decreases |next.ops|
      {
        top', fault, next := ReduceStep(env, syms, out, temps, top', out0, next);
      }
      if fault.None? && !ops.IsEmpty() && ops.Peek().op == '(' {
        var _ := ops.Pop();
        next := next.(ops := DropLast(next.ops));
      }
    }

    /** The '(' branch: push_op('(') with precedence 0. */
    method OpenParenStep(ghost env: Env, temps: array<int>, top: int, out: CodeBuffer,
                         ghost out0: seq<Instr>, ghost cur: EState)
      returns (fault: Option<Fault>, ghost next: EState)
      requires Mirrors(env, cur, temps, top, out, out0) && cur.fault.None?
      modifies ops, ops.items
      ensures Mirrors(env, next, temps, top, out, out0)
      ensures next == OpenParen(cur) && fault == next.fault
    {
      next := OpenParen(cur);
      if ops.top + 1 >= MaxOps {
        fault := Some(OperatorStackOverflow);
      } else {
        ops.Push(Operator('(', 0));
        fault := None;
      }
    }

    /** The operator branch: reduce what binds at least as tightly, then push_op. */
    method PushOperatorStep(ghost env: Env, syms: SymbolTable, out: CodeBuffer, temps: array<int>, top: int,
                            ghost out0: seq<Instr>, ghost cur: EState, c: char)
      returns (top': int, fault: Option<Fault>, ghost next: EState)
      requires Mirrors(env, cur, temps, top, out, out0) && EnvOf(env, draft, syms) && cur.fault.None?
      modifies this, ops, ops.items, temps, out, out.lines
      ensures Mirrors(env, next, temps, top', out, out0)
      ensures next == PushOperator(env, c, cur) && fault == next.fault
    {
      var prec := Precedence(draft, c);
      top', fault, next := ReduceWhilePrecLoop(env, syms, out, temps, top, out0, cur, prec);
      if fault.None? {
        if ops.top + 1 >= MaxOps {
          fault := Some(OperatorStackOverflow);
          next := next.(fault := fault);
        } else {
          ops.Push(Operator(c, prec));
          next := next.(ops := next.ops + [Operator(c, prec)]);
        }
      }
    }

    /** One pass of the main for-loop, from the character at i: skip a space, collect an
        operand token, or handle '(', ')' or an operator. */
    method ScanStep(ghost env: Env, syms: SymbolTable, out: CodeBuffer, temps: array<int>, top: int,
                    ghost out0: seq<Instr>, ghost cur: EState, expr: string, i: nat)
      returns (top': int, fault: Option<Fault>, ghost next: EState, i': nat)
      requires Mirrors(env, cur, temps, top, out, out0) && EnvOf(env, draft, syms) && cur.fault.None?
      requires i < |expr|
      modifies this, ops, ops.items, temps, out, out.lines
      ensures Mirrors(env, next, temps, top', out, out0) && fault == next.fault
      ensures i < i' <= |expr| && Scan(env, expr, i', next) == Scan(env, expr, i, cur)
    {
      var c := expr[i];
      if IsSpace(c) {
        top', fault, next, i' := top, None, cur, i + 1;
      } else if IsWordChar(c) {
        var j := i;
        while j < |expr| && IsWordChar(expr[j])
          invariant i <= j <= |expr|
          invariant forall k :: i <= k < j ==> IsWordChar(expr[k])
          decreases |expr| - j
        {
          j := j + 1;
        }
        WordEndIsFirstNonWord(expr, i, j);
        top', fault, next := OperandStep(env, syms, out, temps, top, out0, cur, expr[i..j]);
        i' := j;
      } else if c == '(' {
        fault, next := OpenParenStep(env, temps, top, out, out0, cur);
        top', i' := top, i + 1;
      } else if c == ')' {
        top', fault, next := CloseParenStep(env, syms, out, temps, top, out0, cur);
        i' := i + 1;
      } else {
        top', fault, next := PushOperatorStep(env, syms, out, temps, top, out0, cur, c);
        i' := i + 1;
      }
    }

    /** The main for-loop over the characters of the expression. */
    method ScanLoop(ghost env: Env, syms: SymbolTable, out: CodeBuffer, temps: array<int>,
                    ghost out0: seq<Instr>, expr: string)
      returns (top: int, fault: Option<Fault>, ghost next: EState)
      requires Mirrors(env, Start(env, expr), temps, -1, out, out0) && EnvOf(env, draft, syms)
      modifies this, ops, ops.items, temps, out, out.lines
      ensures Mirrors(env, next, temps, top, out, out0)
      ensures next == Scan(env, expr, 0, Start(env, expr)) && fault == next.fault
    {
      top, fault, next := -1, None, Start(env, expr);
      var i: nat := 0;
      while i < |expr| && fault.None?
        invariant 0 <= i <= |expr|
        invariant Mirrors(env, next, temps, top, out, out0) && fault == next.fault
        invariant Scan(env, expr, i, next) == Scan(env, expr, 0, Start(env, expr))
        decreases |expr| - i
      {
        top, fault, next, i := ScanStep(env, syms, out, temps, top, out0, next, expr, i);
      }
    }

    /** The final loop: reduce whatever is left on the operator stack. */
    method ReduceAllLoop(ghost env: Env, syms: SymbolTable, out: CodeBuffer, temps: array<int>, top: int,
                         ghost out0: seq<Instr>, ghost cur: EState, fault0: Option<Fault>)
      returns (top': int, fault: Option<Fault>, ghost next: EState)
      requires Mirrors(env, cur, temps, top, out, out0) && EnvOf(env, draft, syms) && fault0 == cur.fault
      modifies this, ops, temps, out, out.lines
      ensures Mirrors(env, next, temps, top', out, out0)
      ensures next == ReduceAll(env, cur) && fault == next.fault
    {
      top', fault, next := top, fault0, cur;
      while fault.None? && !ops.IsEmpty()
        invariant Mirrors(env, next, temps, top', out, out0) && fault == next.fault
        invariant ReduceAll(env, next) == ReduceAll(env, cur)
        decreases |next.ops|
      {
        top', fault, next := ReduceStep(env, syms, out, temps, top', out0, next);
      }
    }

    /** gen2's final step: the comment naming the result's register, or its load. */
    method FinishStep(ghost env: Env, syms: SymbolTable, out: CodeBuffer, temps: array<int>, top: int,
                      ghost out0: seq<Instr>, ghost cur: EState, fault0: Option<Fault>)
      returns (fault: Option<Fault>, ghost next: EState)
      requires Mirrors(env, cur, temps, top, out, out0) && EnvOf(env, draft, syms) && fault0 == cur.fault
      modifies out, out.lines
      ensures Mirrors(env, next.(fault := cur.fault), temps, top, out, out0)
      ensures next == Finish(env, cur) && fault == next.fault && next.ops == cur.ops
      ensures next.tmpOffset == cur.tmpOffset
    {
      next := Finish(env, cur);
      fault := fault0;
      if draft == RiscvGen2 && fault.None? {
        if top == -1 {
          fault := Some(NoResult);
        } else {
          var finalTemp := temps[top];
          var line;
          if IsInRegister(tmpOffset, finalTemp) {
            var regIndex := RegisterIndex(finalTemp);
            line := Comment(ResultInRegister(RegName(regIndex)));
          } else {
            line := Lw("t0", TempSlot(syms.currentOffset, finalTemp));
          }
          out.Add(line);
          Extend(out0, cur.code, [line]);
        }
      }
    }

    /** process_expression. */
    method Process(syms: SymbolTable, out: CodeBuffer, expr: string) returns (fault: Option<Fault>)
      requires Valid() && syms.Valid() && out.Valid()
      modifies this, ops, ops.items, out, out.lines
      ensures Valid() && out.Valid()
      ensures var r := Evaluate(Env(draft, syms.Vars(), syms.currentOffset), expr);
              out.Emitted == old(out.Emitted) + (r.code) && fault == r.fault &&
              ops.Contents() == r.ops && tmpOffset == r.tmpOffset
    {
      ghost var env := Env(draft, syms.Vars(), syms.currentOffset);
      ghost var out0 := out.Emitted;
      var temps := new int[MaxTemps];
      ops.Clear();
      tmpOffset := 0;
      if draft == RiscvGen {
        out.Add(Comment(Processing(expr)));
      }
      assert temps[..0] == [];
      var top;
      ghost var st;
      top, fault, st := ScanLoop(env, syms, out, temps, out0, expr);
      top, fault, st := ReduceAllLoop(env, syms, out, temps, top, out0, st, fault);
      fault, st := FinishStep(env, syms, out, temps, top, out0, st, fault);
      EvaluateKeepsDiscipline(env, expr);
      tempCount := 0;
    }
  }
}
