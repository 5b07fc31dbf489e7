/** The lines the code generators emit, as values rather than printf text. The mnemonics are
    those of the RISC-V Unprivileged ISA (version 20191213): the RV32I base (chapter 2), the
    "M" extension (chapter 7), the "F" extension (chapter 11) and the assembler
    pseudoinstructions of chapter 25 (li, la, mv, seqz, snez, sgt, ble, bgt, beqz, bnez, j).
    They are tags only: nothing here gives them an execution semantics. */
module Asm {

  /** Register names are kept as the strings the C code passes around ("t0", "sp", "ft1"). */
  type Reg = string

  /** R-type ALU instructions (and sgt, the pseudoinstruction for slt with swapped sources). */
  datatype AluOp = Add | Sub | Mul | Div | Rem | And | Or | Xor | Slt | Sgt

  /** Conditional branches comparing two registers (ble and bgt are pseudoinstructions). */
  datatype BranchOp = Beq | Bne | Blt | Bge | Ble | Bgt

  /** Single-precision comparisons feq.s, flt.s and fle.s. */
  datatype FCmpOp = FeqS | FltS | FleS

  /** The immediate of `li`: either the token text printed with %s or a number printed with %d. */
  datatype Imm = Text(text: string) | Int(value: int)

  /** Label names, one constructor per printf pattern that makes one. */
  datatype Label =
    | MainLabel            // main
    | MainEnd              // main_end
    | LFalse(n: int)       // L_false_n
    | LIf(n: int)          // L_if_n
    | LElse(n: int)        // L_else_n
    | LWhileStart(n: int)  // L_while_start_n
    | LWhileEnd(n: int)    // L_while_end_n
    | LLoopStart(n: int)   // L_loop_start_n

  /** The whole-line `#` comments, by what they report. */
  datatype Note =
    | UndeclaredVariable(name: string)
    | UndeclaredTarget(name: string)
    | ConstTarget(name: string)
    | Computing(target: string, expr: string)
    | Processing(expr: string)
    | AssignmentNote(target: string, expr: string)
    | Finalization
    | MalformedCondition(cond: string)
    | EvaluatingCondition(left: string, op: string, right: string)
    | IfStart
    | IfBlock
    | WhileStart
    | WhileBody
    | ConditionalIfNote
    | ConditionalIfElseNote
    | LoopWhileNote
    | ScanfCall
    | UnsupportedScanfType
    | TempInRegister(temp: int, reg: Reg, window: int)
    | TempInMemory(temp: int, window: int)
    | ResultInRegister(reg: Reg)
    | WindowNote

  /** One emitted line. Loads and stores are all relative to `sp`. */
  datatype Instr =
    | Directive(name: string)                    // .text, .globl main, .section .rodata
    | Define(at: Label)                          // label:
    | Comment(note: Note)                        // # ...
    | Blank                                      // an empty line
    | Li(rd: Reg, imm: Imm)
    | La(rd: Reg, symbol: string)
    | Mv(rd: Reg, rs: Reg)
    | Lb(rd: Reg, offset: int)
    | Lw(rd: Reg, offset: int)
    | Ld(rd: Reg, offset: int)
    | Flw(rd: Reg, offset: int)
    | Fld(rd: Reg, offset: int)
    | Sw(rs: Reg, offset: int)
    | Sd(rs: Reg, offset: int)
    | Fsw(rs: Reg, offset: int)
    | Addi(rd: Reg, rs: Reg, value: int)
    | Alu(op: AluOp, rd: Reg, rs1: Reg, rs2: Reg)
    | Seqz(rd: Reg, rs: Reg)
    | Snez(rd: Reg, rs: Reg)
    | FmvWX(rd: Reg, rs: Reg)
    | FCmp(fop: FCmpOp, rd: Reg, rs1: Reg, rs2: Reg)
    | Branch(bop: BranchOp, rs1: Reg, rs2: Reg, target: Label)
    | Beqz(rs: Reg, target: Label)
    | Bnez(rs: Reg, target: Label)
    | J(target: Label)
    | Ecall

  /** A load from memory. */
  predicate IsLoad(x: Instr)
  {
    x.Lb? || x.Lw? || x.Ld? || x.Flw? || x.Fld?
  }

  /** A store to memory. */
  predicate IsStore(x: Instr)
  {
    x.Sw? || x.Sd? || x.Fsw?
  }

  /** A label definition, a branch or a jump: anything that is not straight-line code. */
  predicate IsControl(x: Instr)
  {
    x.Define? || x.Branch? || x.Beqz? || x.Bnez? || x.J?
  }
}
