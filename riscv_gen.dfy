/** riscv_gen.c: the first draft. Temporaries live only in stack slots above the variables,
    the size table is inlined in add_variable, and an assignment has a digit-literal path, a
    size-directed copy path and the general path through process_expression. */
module Gen1 {
  import opened Basics
  import opened CText
  import opened Asm
  import opened Emitter
  import opened Symbols
  import opened Drafts
  import opened Reducer
  import opened Codegen
  import opened Operators

  // ---------------------------------------------------------------------------------------
  // Header and footer

  /** generate_riscv_header: the stack adjustment covers the variables only. */
  function HeaderCode(frame: int): seq<Instr>
  {
    [Directive(".text"), Directive(".globl main"), Define(MainLabel), Addi("sp", "sp", -frame)]
  }

  /** generate_riscv_footer: a blank line, a comment, and the exit system call. */
  function FooterCode(): seq<Instr>
  {
    [Blank, Comment(Finalization), Li("a7", Int(10)), Ecall]
  }

  /** The header reserves exactly the bytes of the declared variables: every variable fits in
      the reserved area, and every temporary's slot lies at or beyond its end, outside the
      area the code allocated. */
  lemma HeaderReservesOnlyVariables(vs: seq<Variable>, frame: int)
    requires WellFormed(vs, frame)
    ensures var a := HeaderCode(frame)[3];
            a.Addi? && a.rd == "sp" && a.rs == "sp" && -a.value == frame &&
            (forall i :: 0 <= i < |vs| ==> 0 <= vs[i].offset && vs[i].offset + vs[i].size <= -a.value) &&
            (forall k :: 0 <= k ==> TempSlot(frame, k) >= -a.value)
  {
    LayoutOrdersSlots(vs, frame);
  }

  // ---------------------------------------------------------------------------------------
  // generate_riscv_assignment

  /** The operator characters whose absence the copy path checks with strcspn. */
  const CopyStoppers := "+-*/%()"

  /** generate_riscv_assignment: an undeclared target gets one error comment; any other
      target gets a blank line and a comment naming the assignment, then the store paths. */
  function AssignCode(vars: seq<Variable>, frame: int, target: string, expr: string): (r: Outcome)
  {
    match Lookup(vars, target)
    case None => Outcome([Comment(UndeclaredTarget(target))], None)
    case Some(v) =>
      var body := StoreCode(vars, frame, expr, v.offset);
      Outcome([Blank, Comment(AssignmentNote(target, expr))] + body.code, body.fault)
  }

  /** The store paths, for a target whose slot is at `slot`: a non-empty run of digits, a lone
      declared variable free of operator characters, or a general expression. */
  function StoreCode(vars: seq<Variable>, frame: int, expr: string, slot: int): Outcome
  {
    if AllDigits(expr) then Outcome([Li("t0", Text(expr)), Sw("t0", slot)], None)
    else if Lookup(vars, expr).Some? && FirstOf(expr, CopyStoppers).None? then
      Outcome(CopyCode(Lookup(vars, expr).value, slot), None)
    else ComputedAssignCode(Env(RiscvGen, vars, frame), expr, slot)
  }

  /** The copy path: a word-sized move for 4 bytes, a double-word move for 8, nothing
      otherwise. */
  function CopyCode(src: Variable, slot: int): seq<Instr>
  {
    if src.size == 4 then [Lw("t0", src.offset), Sw("t0", slot)]
    else if src.size == 8 then [Ld("t0", src.offset), Sd("t0", slot)]
    else []
  }

  /** The general path: the expression's code, then a load from `current_offset` and a store
      into the target's slot. */
  function ComputedAssignCode(env: Env, expr: string, slot: int): Outcome
  {
    var e := Evaluate(env, expr);
    if e.fault.Some? then Outcome(e.code, e.fault)
    else Outcome(e.code + [Lw("t0", env.frame), Sw("t0", slot)], None)
  }

  /** The paths that emit no expression code: an undeclared target gets exactly one comment; a
      non-empty digit string gets exactly `li` and `sw` after the two leading lines; a lone
      declared variable is copied by its size, with `lw`/`sw` for 4 bytes, `ld`/`sd` for 8,
      and no instruction at all for a 1-byte variable. */
  lemma AssignFastPaths(vars: seq<Variable>, frame: int, target: string, expr: string)
    ensures Lookup(vars, target).None? ==> AssignCode(vars, frame, target, expr) == Outcome([Comment(UndeclaredTarget(target))], None)
    ensures Lookup(vars, target).Some? && AllDigits(expr) ==>
              AssignCode(vars, frame, target, expr) ==
                Outcome([Blank, Comment(AssignmentNote(target, expr)), Li("t0", Text(expr)), Sw("t0", Lookup(vars, target).value.offset)], None)
    ensures Lookup(vars, target).Some? && !AllDigits(expr) && Lookup(vars, expr).Some? && FirstOf(expr, CopyStoppers).None? ==>
              var src := Lookup(vars, expr).value;
              var off := Lookup(vars, target).value.offset;
              var c := AssignCode(vars, frame, target, expr).code;
              c[..2] == [Blank, Comment(AssignmentNote(target, expr))] &&
              c[2..] == (if src.size == 4 then [Lw("t0", src.offset), Sw("t0", off)]
                         else if src.size == 8 then [Ld("t0", src.offset), Sd("t0", off)]
                         else []) &&
              AssignCode(vars, frame, target, expr).fault.None?
  {
    if Lookup(vars, target).Some? {
      var v := Lookup(vars, target).value;
      var body := StoreCode(vars, frame, expr, v.offset);
      assert AssignCode(vars, frame, target, expr).code[2..] == body.code;
    }
  }

  /** A negative literal is not on the digit path: "-5" names no variable, so it goes to
      process_expression, where the '-' is an operator with only one operand below it. */
  lemma NegativeLiteralUnderflows(vars: seq<Variable>, frame: int, target: string)
    requires Lookup(vars, target).Some? && Lookup(vars, "-5").None?
    ensures AssignCode(vars, frame, target, "-5").fault == Some(ValueStackUnderflow)
  {
    var env := Env(RiscvGen, vars, frame);
    var s0 := Start(env, "-5");
    var s1 := PushOperator(env, '-', s0);
    assert Scan(env, "-5", 0, s0) == Scan(env, "-5", 1, s1);
    assert WordEnd("-5", 1) == 2;
    var s2 := Operand(env, "5", s1);
    assert "-5"[1..2] == "5";
    assert Scan(env, "-5", 1, s1) == Scan(env, "-5", 2, s2);
    assert ReduceAll(env, s2).fault == Some(ValueStackUnderflow);
  }

  /** The general path reads the value it stores into the target from `current_offset`, which
      is the slot of handle 0 (the first operand's temporary); the expression code stores only
      into temporaries' slots, so the only store below `current_offset` is the one into the
      target's slot. */
  lemma ComplexAssignmentReadsHandleZero(vars: seq<Variable>, frame: int, target: string, expr: string)
    requires WellFormed(vars, frame)
    requires Lookup(vars, target).Some?
    requires !AllDigits(expr) && !(Lookup(vars, expr).Some? && FirstOf(expr, CopyStoppers).None?)
    requires AssignCode(vars, frame, target, expr).fault.None?
    ensures var c := AssignCode(vars, frame, target, expr).code;
            var off := Lookup(vars, target).value.offset;
            |c| >= 4 && c[|c| - 2..] == [Lw("t0", TempSlot(frame, 0)), Sw("t0", off)]
    ensures forall x :: x in AssignCode(vars, frame, target, expr).code && IsStore(x) ==>
              x.Sw? && (x.offset >= frame || x.offset == Lookup(vars, target).value.offset)
  {
    var env := Env(RiscvGen, vars, frame);
    EvaluateKeepsDiscipline(env, expr);
  }

  /** The three declarations `a`, `b`, `x` of type INT used by the example below. */
  function ThreeInts(): seq<Variable>
  {
    [Variable("a", "INT", 0, 4, false, false), Variable("b", "INT", 4, 4, false, false),
     Variable("x", "INT", 8, 4, false, false)]
  }

  /** The environment of the example: the three INT variables, with `current_offset` 12. */
  function ThreeIntsEnv(): Env
  {
    Env(RiscvGen, ThreeInts(), 12)
  }

  /** The scan of `a+b` up to the second operand: handle 0 holds `a`, the '+' is stacked. */
  lemma SumScanFirstOperand()
    ensures Scan(ThreeIntsEnv(), "a+b", 0, Start(ThreeIntsEnv(), "a+b")) ==
      Scan(ThreeIntsEnv(), "a+b", 2,
           EState([Operator('+', 1)], [0], 1, 0, [Comment(Processing("a+b")), Lw("t0", 0), Sw("t0", 12)], None))
  {
    var env := ThreeIntsEnv();
    var vars := ThreeInts();
    assert Lookup(vars, "a") == Some(vars[0]);
    var s0 := Start(env, "a+b");
    assert WordEnd("a+b", 0) == 1;
    assert "a+b"[0..1] == "a";
    var s1 := Operand(env, "a", s0);
    assert Scan(env, "a+b", 0, s0) == Scan(env, "a+b", 1, s1);
    assert s1 == EState([], [0], 1, 0, [Comment(Processing("a+b")), Lw("t0", 0), Sw("t0", 12)], None);
    var s2 := PushOperator(env, '+', s1);
    assert s2 == s1.(ops := [Operator('+', 1)]);
    assert Scan(env, "a+b", 1, s1) == Scan(env, "a+b", 2, s2);
  }

  /** The scan of `a+b`: two operands in handles 0 and 1, the '+' still on the stack. */
  lemma SumScan()
    ensures Scan(ThreeIntsEnv(), "a+b", 0, Start(ThreeIntsEnv(), "a+b")) ==
      EState([Operator('+', 1)], [0, 1], 2, 0,
             [Comment(Processing("a+b")), Lw("t0", 0), Sw("t0", 12), Lw("t0", 4), Sw("t0", 16)], None)
  {
    var env := ThreeIntsEnv();
    var vars := ThreeInts();
    SumScanFirstOperand();
    assert Lookup(vars, "b") == Some(vars[1]);
    var s2 := EState([Operator('+', 1)], [0], 1, 0, [Comment(Processing("a+b")), Lw("t0", 0), Sw("t0", 12)], None);
    assert WordEnd("a+b", 2) == 3;
    assert "a+b"[2..3] == "b";
    var s3 := Operand(env, "b", s2);
    assert Scan(env, "a+b", 2, s2) == s3;
  }

  /** The whole process_expression call on `a+b`: the reduction combines handles 0 and 1 into
      handle 2, stored at current_offset + 8. */
  lemma SumEvaluate()
    ensures Evaluate(ThreeIntsEnv(), "a+b") ==
      EState([], [2], 3, 0,
             [Comment(Processing("a+b")), Lw("t0", 0), Sw("t0", 12), Lw("t0", 4), Sw("t0", 16),
              Lw("t0", 12), Lw("t1", 16), Alu(Add, "t2", "t0", "t1"), Sw("t2", 20)], None)
  {
    var env := ThreeIntsEnv();
    SumScan();
    var s3 := Scan(env, "a+b", 0, Start(env, "a+b"));
    assert ReduceAll(env, s3) == ReduceAll(env, Reduce(env, s3));
  }

  /** `x = a+b` over three INT variables: the sum is stored in handle 2's slot (20), while the
      assignment reads handle 0's slot (12), which holds the value of `a`. */
  lemma SumLandsOutsideTheSlotRead()
    ensures AssignCode(ThreeInts(), 12, "x", "a+b") ==
      Outcome([Blank, Comment(AssignmentNote("x", "a+b"))] +
               ([Comment(Processing("a+b")), Lw("t0", 0), Sw("t0", 12), Lw("t0", 4), Sw("t0", 16),
                 Lw("t0", 12), Lw("t1", 16), Alu(Add, "t2", "t0", "t1"), Sw("t2", 20)] +
                [Lw("t0", 12), Sw("t0", 8)]), None)
  {
    var vars := ThreeInts();
    assert Lookup(vars, "x") == Some(vars[2]);
    assert Lookup(vars, "a+b").None?;
    assert !IsDigit("a+b"[0]);
    SumEvaluate();
    var e := Evaluate(ThreeIntsEnv(), "a+b");
    assert StoreCode(vars, 12, "a+b", 8) == Outcome(e.code + [Lw("t0", 12), Sw("t0", 8)], None);
    assert AssignCode(vars, 12, "x", "a+b") ==
           Outcome([Blank, Comment(AssignmentNote("x", "a+b"))] + (e.code + [Lw("t0", 12), Sw("t0", 8)]), None);
  }

  // ---------------------------------------------------------------------------------------
  // The state of one compilation

  class Session {
    const syms: SymbolTable
    const out: CodeBuffer
    const engine: Engine

    /** Besides the components' own invariants: this file's size table gives every variable
        1, 4 or 8 bytes. */
    ghost predicate Valid()
      reads this, syms, syms.entries, out, out.lines, engine, engine.ops
    {
      syms.Valid() && out.Valid() && engine.Valid() && engine.draft == RiscvGen &&
      forall i :: 0 <= i < |syms.Vars()| ==> syms.Vars()[i].size in {1, 4, 8}
    }

    constructor ()
      ensures Valid() && syms.Vars() == [] && syms.currentOffset == 0 && out.Emitted == []
    {
      syms := new SymbolTable();
      out := new CodeBuffer();
      engine := new Engine(RiscvGen);
    }

    /** add_variable with the inline size table. */
    method AddVariable(name: string, vtype: string)
      requires Valid() && |name| < NameCapacity && |vtype| < TypeCapacity
      modifies syms, syms.entries
      ensures Valid()
      ensures (syms.Vars(), syms.currentOffset) ==
              Declare(old(syms.Vars()), old(syms.currentOffset), name, vtype, SizeFromType(RiscvGen, vtype), false, false)
    {
      syms.Add(name, vtype, SizeFromType(RiscvGen, vtype), false, false);
    }

    /** generate_riscv_header. */
    method Header()
      requires Valid()
      modifies out, out.lines
      ensures Valid() && out.Emitted == old(out.Emitted) + HeaderCode(syms.currentOffset)
    {
      out.AddAll(HeaderCode(syms.currentOffset));
    }

    /** generate_riscv_footer. */
    method Footer()
      requires Valid()
      modifies out, out.lines
      ensures Valid() && out.Emitted == old(out.Emitted) + FooterCode()
    {
      out.AddAll(FooterCode());
    }

    /** generate_riscv_assignment. */
    method Assign(target: string, expr: string) returns (fault: Option<Fault>)
      requires Valid()
      modifies out, out.lines, engine, engine.ops, engine.ops.items
      ensures Valid()
      ensures var r := AssignCode(syms.Vars(), syms.currentOffset, target, expr);
              out.Emitted == old(out.Emitted) + r.code && fault == r.fault
    {
      var found := syms.Find(target);
      if found.None? {
        out.AddAll([Comment(UndeclaredTarget(target))]);
        return None;
      }
      ghost var b := out.Emitted;
      var head := [Blank, Comment(AssignmentNote(target, expr))];
      out.AddAll(head);
      ghost var body := StoreCode(syms.Vars(), syms.currentOffset, expr, syms.entries[found.value].offset);
      fault := Store(expr, syms.entries[found.value].offset);
      Extend(b, head, body.code);
    }

    /** generate_riscv_assignment past its check of the target. */
    method Store(expr: string, slot: int) returns (fault: Option<Fault>)
      requires Valid()
      modifies out, out.lines, engine, engine.ops, engine.ops.items
      ensures Valid()
      ensures var r := StoreCode(syms.Vars(), syms.currentOffset, expr, slot);
              out.Emitted == old(out.Emitted) + r.code && fault == r.fault
    {
      if AllDigits(expr) {
        out.AddAll([Li("t0", Text(expr)), Sw("t0", slot)]);
        fault := None;
      } else {
        fault := StoreNonLiteral(expr, slot);
      }
    }

    /** The copy path and the general path. */
    method StoreNonLiteral(expr: string, slot: int) returns (fault: Option<Fault>)
      requires Valid() && !AllDigits(expr)
      modifies out, out.lines, engine, engine.ops, engine.ops.items
      ensures Valid()
      ensures var r := StoreCode(syms.Vars(), syms.currentOffset, expr, slot);
              out.Emitted == old(out.Emitted) + r.code && fault == r.fault
    {
      var src := syms.Find(expr);
      if src.Some? && FirstOf(expr, CopyStoppers).None? {
        out.AddAll(CopyCode(syms.entries[src.value], slot));
        fault := None;
      } else {
        fault := StoreComputed(expr, slot);
      }
    }

    /** The general path: process_expression, then the load from `current_offset`. */
    method StoreComputed(expr: string, slot: int) returns (fault: Option<Fault>)
      requires Valid()
      modifies out, out.lines, engine, engine.ops, engine.ops.items
      ensures Valid()
      ensures var r := ComputedAssignCode(Env(RiscvGen, syms.Vars(), syms.currentOffset), expr, slot);
              out.Emitted == old(out.Emitted) + r.code && fault == r.fault
    {
      fault := engine.Process(syms, out, expr);
      if fault.None? {
        out.AddAll([Lw("t0", syms.currentOffset), Sw("t0", slot)]);
      }
    }
  }
}
