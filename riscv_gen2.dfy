/** riscv_gen2_otimizado.c: the register-window draft. Its process_expression is the shared
    engine run with the RiscvGen2 tables and the window of module Window; what is its own is
    the header, the footer, the recursive assignment over `current_temp_reg`, and
    remove_spaces. */
module Gen2 {
  import opened Basics
  import opened CText
  import opened Asm
  import opened Emitter
  import opened Symbols
  import opened Drafts
  import opened Window
  import opened Reducer
  import opened Codegen

  // ---------------------------------------------------------------------------------------
  // Header and footer

  /** generate_riscv_header: the stack adjustment covers the variables only, and a comment
      announces the register window. */
  function HeaderCode(frame: int): seq<Instr>
  {
    [Directive(".text"), Directive(".globl main"), Define(MainLabel), Addi("sp", "sp", -frame),
     Comment(WindowNote)]
  }

  /** generate_riscv_footer: the exit system call. */
  function FooterCode(): seq<Instr>
  {
    [Li("a7", Int(10)), Ecall]
  }

  // ---------------------------------------------------------------------------------------
  // generate_riscv_assignment

  /** The characters strpbrk looks for. */
  const ArithmeticChars := "+-*/"
  /** `char left[20]`, `char right[20]`. */
  const OperandCapacity := 20

  /** The lines of one call, the new `current_temp_reg`, and the fault that stopped the call,
      if any. */
  datatype Step = Step(code: seq<Instr>, reg: int, fault: Option<Fault>)

  /** `expr[0] == 't' && isdigit(expr[1])`: the text names a temporary register. */
  predicate LooksLikeRegister(expr: string)
  {
    |expr| >= 2 && expr[0] == 't' && IsDigit(expr[1])
  }

  /** The line of the operator path: add or sub; the other operators have none. */
  function OperatorLine(op: char, dest: Reg, left: Reg, right: Reg): seq<Instr>
  {
    if op == '+' then [Alu(Add, dest, left, right)]
    else if op == '-' then [Alu(Sub, dest, left, right)]
    else []
  }

  /** The simple path: while a register of the window is free, move a register name or load
      the text as an immediate into it, and take the next register. */
  function SimpleCode(reg: int, expr: string): Step
  {
    if reg <= 4 then
      var dest := RegName(reg);
      Step([if LooksLikeRegister(expr) then Mv(dest, expr) else Li(dest, Text(expr))], reg + 1, None)
    else Step([], reg, None)
  }

  /** generate_riscv_assignment, starting with `current_temp_reg == reg`. An undeclared target
      does nothing. Otherwise, at the first of `+`, `-`, `*` or `/`, the two operands are copied into
      20-character buffers (an operand too long for its buffer is a Fault); with at most
      three registers used, each operand is assigned recursively to the helper targets
      `_temp_left` and `_temp_right`, then the operator's line is emitted and the counter
      advanced by two. Every other case takes the simple path. */
  function AssignCode(vars: seq<Variable>, reg: int, target: string, expr: string): Step
    decreases |expr|, 1
  {
    if Lookup(vars, target).None? then Step([], reg, None)
    else match FirstOf(expr, ArithmeticChars)
      case None => SimpleCode(reg, expr)
      case Some(p) =>
        if p >= OperandCapacity || |expr| - p - 1 >= OperandCapacity then Step([], reg, Some(OperandTooLong))
        else if reg > 2 then SimpleCode(reg, expr)
        else OperatorCode(vars, reg, expr, p)
  }

  /** The operator path at index p: the left operand, then (unless it faulted) the right. */
  function OperatorCode(vars: seq<Variable>, reg: int, expr: string, p: nat): Step
    requires p < |expr|
    decreases |expr|, 0
  {
    var l := AssignCode(vars, reg, "_temp_left", expr[..p]);
    if l.fault.Some? then l
    else Join(expr[p], l, AssignCode(vars, l.reg, "_temp_right", expr[p + 1..]))
  }

  /** OperatorCode spelled out: the left operand's step, and the right operand's joined to it
      unless the left one faulted. */
  lemma OperatorCodeIsLeftThenRight(vars: seq<Variable>, reg: int, expr: string, p: nat)
    requires p < |expr|
    ensures var l := AssignCode(vars, reg, "_temp_left", expr[..p]);
            OperatorCode(vars, reg, expr, p) ==
              if l.fault.Some? then l else Join(expr[p], l, AssignCode(vars, l.reg, "_temp_right", expr[p + 1..]))
  {
  }

  /** The end of the operator path, once both operands are done: the left operand's register
      is two below the counter after it, the right operand's one below, and the result goes to
      the register the counter then names. */
  function Join(op: char, l: Step, r: Step): Step
  {
    if r.fault.Some? then Step(l.code + r.code, r.reg, r.fault)
    else Step(l.code + r.code + OperatorLine(op, RegName(r.reg), RegName(l.reg - 2), RegName(l.reg - 1)), r.reg + 2, None)
  }

  /** An undeclared target emits nothing and leaves `current_temp_reg` alone. */
  lemma UndeclaredTargetIsNoOp(vars: seq<Variable>, reg: int, target: string, expr: string)
    requires Lookup(vars, target).None?
    ensures AssignCode(vars, reg, target, expr) == Step([], reg, None)
  {
  }

  /** Without an operator character: while `current_temp_reg <= 4` exactly one line, into
      `t<current_temp_reg>`, a `mv` exactly when the text looks like a register and an `li`
      otherwise, and the counter moves up by one; past t4 nothing at all. */
  lemma SimplePath(vars: seq<Variable>, reg: int, target: string, expr: string)
    requires Lookup(vars, target).Some? && FirstOf(expr, ArithmeticChars).None?
    ensures var r := AssignCode(vars, reg, target, expr);
            r.fault.None? &&
            (reg <= 4 ==> |r.code| == 1 && r.reg == reg + 1 && r.code[0].rd == RegName(reg) &&
                          (r.code[0].Mv? <==> LooksLikeRegister(expr)) &&
                          (r.code[0].Li? <==> !LooksLikeRegister(expr))) &&
            (reg > 4 ==> r.code == [] && r.reg == reg)
  {
  }

  /** The operator path when the helper targets are not declared: both recursive calls do
      nothing, so the counter advances by exactly two and the only line is the add or sub (none
      for `*` and `/`), whose operand registers t<reg-2> and t<reg-1> no line of this call
      loaded. */
  lemma OperatorPathWithUndeclaredHelpers(vars: seq<Variable>, reg: int, target: string, expr: string, p: nat)
    requires Lookup(vars, target).Some? && FirstOf(expr, ArithmeticChars) == Some(p)
    requires Lookup(vars, "_temp_left").None? && Lookup(vars, "_temp_right").None?
    requires p < OperandCapacity && |expr| - p - 1 < OperandCapacity && reg <= 2
    ensures var r := AssignCode(vars, reg, target, expr);
            r.fault.None? && r.reg == reg + 2 &&
            r.code == (if expr[p] == '+' then [Alu(Add, RegName(reg), RegName(reg - 2), RegName(reg - 1))]
                       else if expr[p] == '-' then [Alu(Sub, RegName(reg), RegName(reg - 2), RegName(reg - 1))]
                       else []) &&
            (expr[p] in "*/" ==> r.code == [])
  {
    UndeclaredTargetIsNoOp(vars, reg, "_temp_left", expr[..p]);
    UndeclaredTargetIsNoOp(vars, reg, "_temp_right", expr[p + 1..]);
    OperatorCodeIsLeftThenRight(vars, reg, expr, p);
    assert AssignCode(vars, reg, target, expr) == OperatorCode(vars, reg, expr, p);
  }

  /** An operand of 20 or more characters on the operator path overruns its buffer, whatever
      the counter: the call stops before emitting anything. */
  lemma LongOperandFaults(vars: seq<Variable>, reg: int, target: string, expr: string, p: nat)
    requires Lookup(vars, target).Some? && FirstOf(expr, ArithmeticChars) == Some(p)
    requires p >= OperandCapacity || |expr| - p - 1 >= OperandCapacity
    ensures AssignCode(vars, reg, target, expr) == Step([], reg, Some(OperandTooLong))
  {
  }

  /** Every line is a `mv`, an `li` or an add/sub that writes a register of the window
      t0..t4. */
  ghost predicate WritesWindow(code: seq<Instr>)
  {
    forall k :: 0 <= k < |code| ==>
      (code[k].Mv? || code[k].Li? || code[k].Alu?) && code[k].rd in {"t0", "t1", "t2", "t3", "t4"}
  }

  lemma WritesWindowConcat(a: seq<Instr>, b: seq<Instr>)
    requires WritesWindow(a) && WritesWindow(b)
    ensures WritesWindow(a + b)
  {
    assert forall k :: 0 <= k < |a + b| ==> (a + b)[k] == if k < |a| then a[k] else b[k - |a|];
  }

  /** What every call keeps, however deep the recursion: `current_temp_reg` never goes down,
      each emitted line uses up at least one register position, and every line writes a
      register of the window t0..t4. */
  lemma {:induction false} CounterBoundsTheCode(vars: seq<Variable>, reg: int, target: string, expr: string)
    ensures var r := AssignCode(vars, reg, target, expr);
            reg <= r.reg && |r.code| <= r.reg - reg && WritesWindow(r.code)
    decreases |expr|, 1
  {
    if Lookup(vars, target).Some? {
      match FirstOf(expr, ArithmeticChars)
      case None =>
        SimplePathBounds(reg, expr);
      case Some(p) =>
        if p >= OperandCapacity || |expr| - p - 1 >= OperandCapacity {
        } else if reg > 2 {
          SimplePathBounds(reg, expr);
        } else {
          OperatorPathBounds(vars, reg, expr, p);
        }
    }
  }

  lemma SimplePathBounds(reg: int, expr: string)
    ensures var r := SimpleCode(reg, expr);
            reg <= r.reg && |r.code| <= r.reg - reg && WritesWindow(r.code)
  {
  }

  /** The operator path keeps what CounterBoundsTheCode states, given that both recursive
      calls keep it. */
  lemma {:induction false} OperatorPathBounds(vars: seq<Variable>, reg: int, expr: string, p: nat)
    requires p < |expr|
    ensures var r := OperatorCode(vars, reg, expr, p);
            reg <= r.reg && |r.code| <= r.reg - reg && WritesWindow(r.code)
    decreases |expr|, 0
  {
    CounterBoundsTheCode(vars, reg, "_temp_left", expr[..p]);
    var l := AssignCode(vars, reg, "_temp_left", expr[..p]);
    if l.fault.None? {
      CounterBoundsTheCode(vars, l.reg, "_temp_right", expr[p + 1..]);
      JoinBounds(expr[p], reg, l, AssignCode(vars, l.reg, "_temp_right", expr[p + 1..]));
    }
  }

  lemma JoinBounds(op: char, reg: int, l: Step, r: Step)
    requires reg <= l.reg && |l.code| <= l.reg - reg && WritesWindow(l.code)
    requires l.reg <= r.reg && |r.code| <= r.reg - l.reg && WritesWindow(r.code)
    ensures var j := Join(op, l, r);
            reg <= j.reg && |j.code| <= j.reg - reg && WritesWindow(j.code)
  {
    WritesWindowConcat(l.code, r.code);
    var line := OperatorLine(op, RegName(r.reg), RegName(l.reg - 2), RegName(l.reg - 1));
    WritesWindowConcat(l.code + r.code, line);
  }

  // ---------------------------------------------------------------------------------------
  // remove_spaces

  /** The text with every ' ' deleted and all other characters kept in order. */
  function NoSpaces(s: string): string
  {
    if s == [] then []
    else NoSpaces(DropLast(s)) + (if Last(s) == ' ' then [] else [Last(s)])
  }

  /** One more character: a space is dropped, anything else is kept at the end. */
  lemma NoSpacesSnoc(s: string, c: char)
    ensures NoSpaces(s + [c]) == if c == ' ' then NoSpaces(s) else NoSpaces(s) + [c]
  {
    assert DropLast(s + [c]) == s;
  }

  /** Deleting spaces distributes over concatenation. */
  lemma {:induction false} NoSpacesOfConcat(s: string, t: string)
    ensures NoSpaces(s + t) == NoSpaces(s) + NoSpaces(t)
    decreases |t|
  {
    if t != [] {
      var u := s + t;
      assert u != [] && DropLast(u) == s + DropLast(t) && Last(u) == Last(t);
      var tail := if Last(t) == ' ' then [] else [Last(t)];
      NoSpacesOfConcat(s, DropLast(t));
      calc {
        NoSpaces(u);
        NoSpaces(s + DropLast(t)) + tail;
        (NoSpaces(s) + NoSpaces(DropLast(t))) + tail;
        NoSpaces(s) + (NoSpaces(DropLast(t)) + tail);
        NoSpaces(s) + NoSpaces(t);
      }
    } else {
      assert s + t == s;
    }
  }

  /** The result holds no space. */
  lemma {:induction false} NoSpacesHasNoSpace(s: string)
    ensures forall k :: 0 <= k < |NoSpaces(s)| ==> NoSpaces(s)[k] != ' '
    decreases |s|
  {
    if s != [] {
      NoSpacesHasNoSpace(DropLast(s));
    }
  }

  /** Every character other than a space is kept as often as the input has it. */
  lemma {:induction false} NoSpacesKeepsOtherCharacters(s: string, c: char)
    requires c != ' '
    ensures multiset(NoSpaces(s))[c] == multiset(s)[c]
    decreases |s|
  {
    if s != [] {
      NoSpacesKeepsOtherCharacters(DropLast(s), c);
      assert s == DropLast(s) + [Last(s)];
      assert multiset(s) == multiset(DropLast(s)) + multiset([Last(s)]);
    }
  }

  /** A text without spaces is its own result. */
  lemma {:induction false} NoSpacesKeepsSpaceFreeText(s: string)
    requires forall k :: 0 <= k < |s| ==> s[k] != ' '
    ensures NoSpaces(s) == s
    decreases |s|
  {
    if s != [] {
      NoSpacesKeepsSpaceFreeText(DropLast(s));
      assert s == DropLast(s) + [Last(s)];
    }
  }

  /** Removing spaces twice is removing them once. */
  lemma NoSpacesIsIdempotent(s: string)
    ensures NoSpaces(NoSpaces(s)) == NoSpaces(s)
  {
    NoSpacesHasNoSpace(s);
    NoSpacesKeepsSpaceFreeText(NoSpaces(s));
  }

  /** remove_spaces on the NUL-terminated text that occupies a[..n]: the kept characters move
      down in order, a NUL follows them, and the cells past that NUL are left as they were. */
  method RemoveSpaces(a: array<char>, ghost n: nat)
    requires n < a.Length && a[n] == '\0' && forall k :: 0 <= k < n ==> a[k] != '\0'
    modifies a
    ensures var kept := NoSpaces(old(a[..n]));
            |kept| <= n && a[..|kept|] == kept && a[|kept|] == '\0' && a[|kept| + 1..] == old(a[|kept| + 1..])
  {
    var src := 0;
    var dst := 0;
    while a[src] != '\0'
      invariant 0 <= dst <= src <= n
      invariant a[..dst] == NoSpaces(old(a[..src]))
      invariant a[dst..] == old(a[dst..])
      decreases n - src
    {
      ghost var before := old(a[..src]);
      ghost var c := old(a[src]);
      assert a[src] == c;
      assert old(a[..src + 1]) == before + [c];
      NoSpacesSnoc(before, c);
      if a[src] != ' ' {
        ghost var pre := a[..];
        a[dst] := a[src];
        assert a[..dst + 1] == pre[..dst] + [c];
        assert a[dst + 1..] == pre[dst + 1..] == pre[dst..][1..];
        dst := dst + 1;
      }
      assert a[..dst] == NoSpaces(before + [c]);
      src := src + 1;
    }
    assert a[src] == old(a[src]);
    assert src == n;
    a[dst] := '\0';
  }

  // ---------------------------------------------------------------------------------------
  // The state of one compilation

  class Session {
    const syms: SymbolTable
    const out: CodeBuffer
    const engine: Engine
    /** current_temp_reg: 0 stands for t0, ..., 4 for t4. */
    var tempReg: int

    ghost predicate Valid()
      reads this, syms, syms.entries, out, out.lines, engine, engine.ops
    {
      syms.Valid() && out.Valid() && engine.Valid() && engine.draft == RiscvGen2 && tempReg >= 0
    }

    constructor ()
      ensures Valid() && syms.Vars() == [] && syms.currentOffset == 0 && out.Emitted == [] && tempReg == 0
    {
      syms := new SymbolTable();
      out := new CodeBuffer();
      engine := new Engine(RiscvGen2);
      tempReg := 0;
    }

    /** add_variable with get_size_from_type. */
    method AddVariable(name: string, vtype: string)
      requires Valid() && |name| < NameCapacity && |vtype| < TypeCapacity
      modifies syms, syms.entries
      ensures Valid()
      ensures (syms.Vars(), syms.currentOffset) ==
              Declare(old(syms.Vars()), old(syms.currentOffset), name, vtype, SizeFromType(RiscvGen2, vtype), false, false)
    {
      syms.Add(name, vtype, SizeFromType(RiscvGen2, vtype), false, false);
    }

    /** generate_riscv_header. */
    method Header()
      requires Valid()
      modifies out, out.lines
      ensures Valid() && out.Emitted == old(out.Emitted) + HeaderCode(syms.currentOffset)
    {
      out.AddAll(HeaderCode(syms.currentOffset));
    }

    /** generate_riscv_footer. */
    method Footer()
      requires Valid()
      modifies out, out.lines
      ensures Valid() && out.Emitted == old(out.Emitted) + FooterCode()
    {
      out.AddAll(FooterCode());
    }

    /** generate_riscv_assignment. */
    method Assign(target: string, expr: string) returns (fault: Option<Fault>)
      requires Valid()
      modifies this`tempReg, out, out.lines
      decreases |expr|, 3
      ensures Valid()
      ensures var r := AssignCode(syms.Vars(), old(tempReg), target, expr);
              out.Emitted == old(out.Emitted) + r.code && tempReg == r.reg && fault == r.fault
    {
      var found := syms.Find(target);
      if found.None? {
        return None;
      }
      fault := AssignDeclared(target, expr);
    }

    /** generate_riscv_assignment past its check of the target. */
    method AssignDeclared(target: string, expr: string) returns (fault: Option<Fault>)
      requires Valid() && Lookup(syms.Vars(), target).Some?
      modifies this`tempReg, out, out.lines
      decreases |expr|, 2
      ensures Valid()
      ensures var r := AssignCode(syms.Vars(), old(tempReg), target, expr);
              out.Emitted == old(out.Emitted) + r.code && tempReg == r.reg && fault == r.fault
    {
      var opPos := FirstOf(expr, ArithmeticChars);
      if opPos.Some? {
        var p := opPos.value;
        if p >= OperandCapacity || |expr| - p - 1 >= OperandCapacity {
          return Some(OperandTooLong);
        }
        if tempReg <= 2 {
          fault := AssignOperation(expr, p);
          return;
        }
      }
      Simple(expr);
      fault := None;
    }

    /** The simple path. */
    method Simple(expr: string)
      requires Valid()
      modifies this`tempReg, out, out.lines
      ensures Valid()
      ensures var r := SimpleCode(old(tempReg), expr);
              out.Emitted == old(out.Emitted) + r.code && tempReg == r.reg
    {
      if tempReg <= 4 {
        var regName := RegName(tempReg);
        if |expr| >= 2 && expr[0] == 't' && IsDigit(expr[1]) {
          out.Add(Mv(regName, expr));
        } else {
          out.Add(Li(regName, Text(expr)));
        }
        tempReg := tempReg + 1;
      }
    }

    /** The operator path: both operands through the recursion, then the operator's line. */
    method AssignOperation(expr: string, p: nat) returns (fault: Option<Fault>)
      requires Valid() && p < |expr|
      modifies this`tempReg, out, out.lines
      decreases |expr|, 1
      ensures Valid()
      ensures var r := OperatorCode(syms.Vars(), old(tempReg), expr, p);
              out.Emitted == old(out.Emitted) + r.code && tempReg == r.reg && fault == r.fault
    {
      OperatorCodeIsLeftThenRight(syms.Vars(), tempReg, expr, p);
      ghost var b := out.Emitted;
      ghost var l := AssignCode(syms.Vars(), tempReg, "_temp_left", expr[..p]);
      fault := Assign("_temp_left", expr[..p]);
      if fault.None? {
        fault := AssignRight(expr[p], expr[p + 1..], b, l);
      }
    }

    /** The right operand and the operator's line, once the left operand `l` is done. */
    method AssignRight(op: char, right: string, ghost b: seq<Instr>, ghost l: Step) returns (fault: Option<Fault>)
      requires Valid() && out.Emitted == b + l.code && tempReg == l.reg && l.fault.None?
      modifies this`tempReg, out, out.lines
      decreases |right| + 1, 0
      ensures Valid()
      ensures var j := Join(op, l, AssignCode(syms.Vars(), l.reg, "_temp_right", right));
              out.Emitted == b + j.code && tempReg == j.reg && fault == j.fault
    {
      var leftReg := RegName(tempReg - 2);
      var rightIndex := tempReg;
      ghost var r := AssignCode(syms.Vars(), tempReg, "_temp_right", right);
      fault := Assign("_temp_right", right);
      Extend(b, l.code, r.code);
      if fault.None? {
        var line := OperatorLine(op, RegName(tempReg), leftReg, RegName(rightIndex - 1));
        out.AddAll(line);
        Extend(b, l.code + r.code, line);
        tempReg := tempReg + 2;
      }
    }
  }
}
