/** The tables in which the three drafts differ: the type-size table, get_precedence,
    generate_operation and generate_load_operand. Each is a function of the draft. */
module Drafts {
  import opened Basics
  import opened CText
  import opened Asm
  import opened Symbols

  /** riscv_gen.c, riscv_gen2_otimizado.c and riscv_gen3.c. */
  datatype Draft = RiscvGen | RiscvGen2 | RiscvGen3

  /** The type tags a draft's size table names explicitly. */
  function KnownTypes(d: Draft): set<string>
  {
    match d
    case RiscvGen => {"INT", "FLOAT", "DOUBLE", "LONG", "CHAR"}
    case RiscvGen2 => {"CHAR", "SHORT", "INT", "FLOAT", "DOUBLE", "LONG"}
    case RiscvGen3 =>
      {"CHAR", "CHAR_KW", "SHORT", "SHORT_KW", "INT", "INT_KW", "FLOAT", "FLOAT_KW",
       "DOUBLE", "DOUBLE_KW", "LONG", "LONG_KW", "BOOL_KW", "STRING"}
  }

  /** get_size_from_type (riscv_gen3.c, riscv_gen2_otimizado.c) and the size chain inlined
      in add_variable (riscv_gen.c). */
  function SizeFromType(d: Draft, t: string): (n: int)
    ensures n in {1, 2, 4, 8}
    ensures d == RiscvGen ==> n in {1, 4, 8}
  {
    match d
    case RiscvGen =>
      if t == "INT" || t == "FLOAT" then 4
      else if t == "DOUBLE" || t == "LONG" then 8
      else if t == "CHAR" then 1
      else 4
    case RiscvGen2 =>
      if t == "CHAR" then 1
      else if t == "SHORT" then 2
      else if t == "INT" then 4
      else if t == "FLOAT" then 4
      else if t == "DOUBLE" then 8
      else if t == "LONG" then 8
      else 4
    case RiscvGen3 =>
      if t == "CHAR" || t == "CHAR_KW" then 1
      else if t == "SHORT" || t == "SHORT_KW" then 2
      else if t == "INT" || t == "INT_KW" then 4
      else if t == "FLOAT" || t == "FLOAT_KW" then 4
      else if t == "DOUBLE" || t == "DOUBLE_KW" then 8
      else if t == "LONG" || t == "LONG_KW" then 8
      else if t == "BOOL_KW" then 1
      else if t == "STRING" then 4
      else 4
  }

  /** Every tag a table does not name gets the default of 4 bytes. */
  lemma UnknownTypesTakeFourBytes(d: Draft, t: string)
    requires t !in KnownTypes(d)
    ensures SizeFromType(d, t) == 4
  {
  }

  /** In riscv_gen3.c a `_KW` tag is as large as its plain counterpart, except that BOOL_KW
      is 1 byte while the plain BOOL falls to the default of 4. */
  lemma KeywordTagsMatchPlainTags(t: string)
    requires t in {"CHAR", "SHORT", "INT", "FLOAT", "DOUBLE", "LONG"}
    ensures SizeFromType(RiscvGen3, t + "_KW") == SizeFromType(RiscvGen3, t)
    ensures SizeFromType(RiscvGen3, t) == SizeFromType(RiscvGen2, t)
    ensures SizeFromType(RiscvGen3, "BOOL_KW") == 1 && SizeFromType(RiscvGen3, "BOOL") == 4
  {
    assert "CHAR" + "_KW" == "CHAR_KW";
    assert "SHORT" + "_KW" == "SHORT_KW";
    assert "INT" + "_KW" == "INT_KW";
    assert "FLOAT" + "_KW" == "FLOAT_KW";
    assert "DOUBLE" + "_KW" == "DOUBLE_KW";
    assert "LONG" + "_KW" == "LONG_KW";
  }

  /** get_precedence. riscv_gen.c and riscv_gen2_otimizado.c know only the arithmetic
      operators; riscv_gen3.c adds the bitwise and the comparison characters. */
  function Precedence(d: Draft, c: char): (p: int)
    ensures -1 <= p <= 4
    ensures d != RiscvGen3 ==> p <= 2
  {
    if c == '+' || c == '-' then 1
    else if c == '*' || c == '/' || c == '%' then 2
    else if d == RiscvGen3 && (c == '&' || c == '|' || c == '^') then 3
    else if d == RiscvGen3 && (c == '=' || c == '!' || c == '<' || c == '>') then 4
    else if c == '(' then 0
    else -1
  }

  /** The characters each draft treats as binary operators. */
  function OperatorChars(d: Draft): string
  {
    if d == RiscvGen3 then "+-*/%&|^=!<>" else "+-*/%"
  }

  /** generate_operation: the instructions that combine reg1 and reg2 into reg_dest. */
  function OperationCode(d: Draft, op: char, reg1: Reg, reg2: Reg, dest: Reg): (r: seq<Instr>)
    ensures |r| <= 2
    ensures forall x :: x in r ==> !IsLoad(x) && !IsStore(x) && !IsControl(x)
  {
    if op == '+' then [Alu(Add, dest, reg1, reg2)]
    else if op == '-' then [Alu(Sub, dest, reg1, reg2)]
    else if op == '*' then [Alu(Mul, dest, reg1, reg2)]
    else if op == '/' then [Alu(Div, dest, reg1, reg2)]
    else if op == '%' then [Alu(Rem, dest, reg1, reg2)]
    else if d != RiscvGen3 then []
    else if op == '&' then [Alu(And, dest, reg1, reg2)]
    else if op == '|' then [Alu(Or, dest, reg1, reg2)]
    else if op == '^' then [Alu(Xor, dest, reg1, reg2)]
    else if op == '=' then [Alu(Xor, dest, reg1, reg2), Seqz(dest, dest)]
    else if op == '!' then [Alu(Xor, dest, reg1, reg2), Snez(dest, dest)]
    else if op == '<' then [Alu(Slt, dest, reg1, reg2)]
    else if op == '>' then [Alu(Sgt, dest, reg1, reg2)]
    else []
  }

  /** The two tables agree: a character has a positive precedence exactly when
      generate_operation has code for it; that code is one instruction, or two (xor, then
      seqz or snez) for '=' and '!'; '(' and every other character yield none. */
  lemma OperationCodeMatchesPrecedence(d: Draft, op: char, reg1: Reg, reg2: Reg, dest: Reg)
    ensures Precedence(d, op) > 0 <==> op in OperatorChars(d)
    ensures |OperationCode(d, op, reg1, reg2, dest)| > 0 <==> Precedence(d, op) > 0
    ensures |OperationCode(d, op, reg1, reg2, dest)| ==
            (if d == RiscvGen3 && (op == '=' || op == '!') then 2
             else if Precedence(d, op) > 0 then 1 else 0)
    ensures forall k :: 0 <= k < |OperationCode(d, op, reg1, reg2, dest)| ==>
              var x := OperationCode(d, op, reg1, reg2, dest)[k];
              (x.Alu? && x.rd == dest && x.rs1 == reg1 && x.rs2 == reg2) || x == Seqz(dest, dest) || x == Snez(dest, dest)
  {
  }

  /** The one-byte immediate `li reg, %d` prints for a character literal: the character after
      the opening quote, or the terminating NUL of a lone quote. */
  function CharLiteralCode(operand: string): int
  {
    if |operand| >= 2 then operand[1] as int else 0
  }

  /** generate_load_operand: a literal, a declared variable or an error comment. */
  function LoadOperandCode(d: Draft, vars: seq<Variable>, operand: string, reg: Reg): (r: seq<Instr>)
    ensures |r| <= 1
    ensures forall x :: x in r ==> !IsStore(x) && !IsControl(x)
  {
    if |operand| > 0 && IsDigit(operand[0]) then [Li(reg, Text(operand))]
    else if d == RiscvGen3 && |operand| > 0 && operand[0] == '\'' then [Li(reg, Int(CharLiteralCode(operand)))]
    else if d == RiscvGen3 && |operand| > 0 && operand[0] == '"' then [La(reg, operand)]
    else match Lookup(vars, operand)
      case None => [Comment(UndeclaredVariable(operand))]
      case Some(v) =>
        match d
        case RiscvGen3 =>
          if v.vtype == "FLOAT" || v.vtype == "FLOAT_KW" then [Flw(reg, v.offset)]
          else if v.vtype == "DOUBLE" || v.vtype == "DOUBLE_KW" then [Fld(reg, v.offset)]
          else [Lw(reg, v.offset)]
        case RiscvGen2 => [Lw(reg, v.offset)]
        case RiscvGen =>
          if v.size == 4 then [Lw(reg, v.offset)]
          else if v.size == 8 then [Ld(reg, v.offset)]
          else if v.size == 1 then [Lb(reg, v.offset)]
          else []
  }

  /** generate_load_operand emits exactly one line, which writes the requested register; a
      load from memory reads precisely the slot of the variable the operand names, and an
      operand that names no variable and is no literal yields the error comment. In
      riscv_gen.c this needs every size to be 1, 4 or 8, which its own size table ensures. */
  lemma LoadOperandIsOneLine(d: Draft, vars: seq<Variable>, operand: string, reg: Reg)
    requires d == RiscvGen ==> forall i :: 0 <= i < |vars| ==> vars[i].size in {1, 4, 8}
    ensures |LoadOperandCode(d, vars, operand, reg)| == 1
    ensures var x := LoadOperandCode(d, vars, operand, reg)[0];
            (x.Comment? <==> x == Comment(UndeclaredVariable(operand))) &&
            (x.Comment? <==> !(|operand| > 0 && (IsDigit(operand[0]) || (d == RiscvGen3 && operand[0] in "'\"")))
                             && Lookup(vars, operand).None?) &&
            (IsLoad(x) ==> Lookup(vars, operand).Some? && x.offset == Lookup(vars, operand).value.offset) &&
            (!x.Comment? ==> x.rd == reg)
  {
  }

  /** The size-directed loads of riscv_gen.c: lb for a 1-byte variable, lw for 4 bytes, ld for
      8 bytes, and nothing at all for any other size. */
  lemma RiscvGenLoadFollowsSize(vars: seq<Variable>, operand: string, reg: Reg)
    requires !(|operand| > 0 && IsDigit(operand[0])) && Lookup(vars, operand).Some?
    ensures var v := Lookup(vars, operand).value;
            LoadOperandCode(RiscvGen, vars, operand, reg) ==
              if v.size == 1 then [Lb(reg, v.offset)]
              else if v.size == 4 then [Lw(reg, v.offset)]
              else if v.size == 8 then [Ld(reg, v.offset)]
              else []
  {
  }
}
