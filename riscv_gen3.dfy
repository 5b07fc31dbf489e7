/** riscv_gen3.c: the session-level lowering of assignment, condition, control-flow and scanf
    events on top of the shared symbol table, code buffer and expression engine. */
module Gen3 {
  import opened Basics
  import opened CText
  import opened Asm
  import opened Emitter
  import opened Symbols
  import opened Drafts
  import opened Reducer
  import opened Codegen

  /** TEMP_RESULT_OFFSET: the fixed slot the assignment and control-flow code read results
      from. */
  const TempResultOffset := 16
  /** MAX_TEMPORARIES: the header reserves four bytes for each. */
  const MaxTemporaries := 100

  // ---------------------------------------------------------------------------------------
  // Header and footer

  /** generate_riscv_header. */
  function HeaderCode(frame: int): seq<Instr>
  {
    [Directive(".text"), Directive(".globl main"), Define(MainLabel),
     Addi("sp", "sp", -(frame + MaxTemporaries * 4))]
  }

  /** generate_riscv_footer: the exit system call. */
  function FooterCode(): seq<Instr>
  {
    [Li("a7", Int(10)), Ecall]
  }

  /** The header's stack adjustment reserves room for every variable and for the slots of all
      MAX_TEMPORARIES temporaries, which lie right above the variables. */
  lemma HeaderReservesVariablesAndTemporaries(vs: seq<Variable>, frame: int)
    requires WellFormed(vs, frame)
    ensures var a := HeaderCode(frame)[3];
            a.Addi? && a.rd == "sp" && a.rs == "sp" && a.value < 0 &&
            (forall k :: 0 <= k < MaxTemporaries ==> TempSlot(frame, k) + 4 <= -a.value) &&
            (forall i :: 0 <= i < |vs| ==> 0 <= vs[i].offset && vs[i].offset + vs[i].size <= -a.value)
  {
    LayoutOrdersSlots(vs, frame);
  }

  // ---------------------------------------------------------------------------------------
  // get_expression_type

  /** The tag of a declared variable with a "_KW" inside it loses its last three characters:
      the result is a prefix of the type, shorter by three exactly when the type holds "_KW". */
  function StripKeyword(t: string): (r: string)
    ensures |r| <= |t| && r == t[..|r|]
    ensures r != t <==> HasSubstring(t, "_KW")
    ensures r != t ==> |r| == |t| - 3
  {
    if HasSubstring(t, "_KW") then
      SubstringFits(t, "_KW");
      t[..|t| - 3]
    else t
  }

  lemma {:induction false} HasSubstringInside(a: string, t: string, b: string)
    ensures HasSubstring(a + t + b, t)
    decreases |a|
  {
    if a == [] {
      assert (a + t + b)[..|t|] == t;
    } else {
      HasSubstringInside(a[1..], t, b);
      assert (a + t + b)[1..] == a[1..] + t + b;
    }
  }

  /** A keyword type loses exactly its "_KW" suffix: INT_KW becomes INT, FLOAT_KW FLOAT. */
  lemma KeywordSuffixIsRemoved(p: string)
    ensures StripKeyword(p + "_KW") == p
  {
    HasSubstringInside(p, "_KW", []);
    assert p + "_KW" + [] == p + "_KW";
    assert (p + "_KW")[..|p|] == p;
  }

  /** strstr finds "_KW" anywhere, but the cut is always the last three characters, so a type
      with "_KW" inside it keeps the "_KW" and loses whatever ends it: "A_KWB" becomes "A_". */
  lemma InnerKeywordCutsTheEnd(a: string, b: string)
    ensures var t := a + "_KW" + b; StripKeyword(t) == t[..|a| + |b|]
    ensures StripKeyword("A_KWB") == "A_"
  {
    HasSubstringInside(a, "_KW", b);
    HasSubstringInside("A", "_KW", "B");
    assert "A_KWB" == "A" + "_KW" + "B";
  }

  lemma {:induction false} SubstringFits(s: string, t: string)
    requires HasSubstring(s, t)
    ensures |t| <= |s|
    decreases |s|
  {
    if !(|t| <= |s| && s[..|t|] == t) {
      SubstringFits(s[1..], t);
    }
  }

  /** A declared variable of type FLOAT or FLOAT_KW. */
  predicate IsFloatVariable(vars: seq<Variable>, name: string)
  {
    Lookup(vars, name).Some? && Lookup(vars, name).value.vtype in {"FLOAT", "FLOAT_KW"}
  }

  /** The delimiters the operand scan of get_expression_type hands to strtok. */
  const TokenDelimiters := " +-*/%"

  /** get_expression_type. */
  function ExpressionType(vars: seq<Variable>, expr: string): (r: string)
  {
    if |expr| > 0 && expr[0] == '\'' then "CHAR"
    else if |expr| > 0 && expr[0] == '"' then "STRING"
    else if exists k :: 0 <= k < |expr| && expr[k] in ".eE" then "FLOAT"
    else if Lookup(vars, expr).Some? then StripKeyword(Lookup(vars, expr).value.vtype)
    else OperandScanType(vars, expr)
  }

  /** The last two steps of get_expression_type: text holding '.', '/', '*', '+' or '-' is
      split by strtok, and is FLOAT when a token holds a '.' or names a float variable; all
      else is INT. */
  function OperandScanType(vars: seq<Variable>, expr: string): string
  {
    if exists k :: 0 <= k < |expr| && expr[k] in "./*+-" then
      var toks := Tokens(expr, TokenDelimiters);
      if exists j :: 0 <= j < |toks| && ('.' in toks[j] || IsFloatVariable(vars, toks[j])) then "FLOAT"
      else "INT"
    else "INT"
  }

  /** The tag is one of the four fixed ones or the (suffix-stripped) type of a declared
      variable; a declared variable's tag is its own type, "_KW" removed, whenever its name
      starts with no quote and holds no '.', 'e' or 'E'. */
  lemma ExpressionTypeIsATag(vars: seq<Variable>, expr: string)
    ensures var r := ExpressionType(vars, expr);
            r in {"CHAR", "STRING", "FLOAT", "INT"} ||
            exists i :: 0 <= i < |vars| && r == StripKeyword(vars[i].vtype)
    ensures Lookup(vars, expr).Some? && !(|expr| > 0 && expr[0] in "'\"") &&
            (forall k :: 0 <= k < |expr| ==> expr[k] !in ".eE") ==>
              ExpressionType(vars, expr) == StripKeyword(Lookup(vars, expr).value.vtype)
  {
    var r := ExpressionType(vars, expr);
    if Lookup(vars, expr).Some? && r == StripKeyword(Lookup(vars, expr).value.vtype) {
      var v := Lookup(vars, expr).value;
      var i :| 0 <= i < |vars| && vars[i] == v;
    }
  }

  /** The operand scan of get_expression_type, for text that is not a quote, holds no '.', 'e'
      or 'E' and names no variable: the tag is FLOAT exactly when the text holds one of the
      operators '/', '*', '+', '-' and one of its strtok tokens names a FLOAT or FLOAT_KW
      variable, and INT otherwise. A '%' is a delimiter of the scan but does not start it. */
  lemma OperatorScanFindsFloatOperands(vars: seq<Variable>, expr: string)
    requires !(|expr| > 0 && expr[0] in "'\"") && Lookup(vars, expr).None?
    requires forall k :: 0 <= k < |expr| ==> expr[k] !in ".eE"
    ensures var toks := Tokens(expr, TokenDelimiters);
            ExpressionType(vars, expr) == "FLOAT" <==>
              (exists k :: 0 <= k < |expr| && expr[k] in "/*+-") &&
              exists j :: 0 <= j < |toks| && IsFloatVariable(vars, toks[j])
    ensures ExpressionType(vars, expr) in {"FLOAT", "INT"}
  {
    assert ExpressionType(vars, expr) == OperandScanType(vars, expr) by {
      assert !(exists k :: 0 <= k < |expr| && expr[k] in ".eE");
    }
    ScanTypeOfDotFreeText(vars, expr);
  }

  /** Without a '.', the scan starts only at a '/', '*', '+' or '-' and looks only for float
      variables. */
  lemma ScanTypeOfDotFreeText(vars: seq<Variable>, expr: string)
    requires forall k :: 0 <= k < |expr| ==> expr[k] != '.'
    ensures var toks := Tokens(expr, TokenDelimiters);
            OperandScanType(vars, expr) == "FLOAT" <==>
              (exists k :: 0 <= k < |expr| && expr[k] in "/*+-") &&
              exists j :: 0 <= j < |toks| && IsFloatVariable(vars, toks[j])
    ensures OperandScanType(vars, expr) in {"FLOAT", "INT"}
  {
    var toks := Tokens(expr, TokenDelimiters);
    TokensOfDotFreeText(expr);
    assert (exists j :: 0 <= j < |toks| && ('.' in toks[j] || IsFloatVariable(vars, toks[j]))) <==>
           (exists j :: 0 <= j < |toks| && IsFloatVariable(vars, toks[j]));
    assert (exists k :: 0 <= k < |expr| && expr[k] in "./*+-") <==>
           (exists k :: 0 <= k < |expr| && expr[k] in "/*+-");
  }

  /** The tokens of text without a '.' hold no '.' either. */
  lemma TokensOfDotFreeText(expr: string)
    requires forall k :: 0 <= k < |expr| ==> expr[k] != '.'
    ensures var toks := Tokens(expr, TokenDelimiters);
            forall j :: 0 <= j < |toks| ==> '.' !in toks[j]
  {
    var toks := Tokens(expr, TokenDelimiters);
    forall j | 0 <= j < |toks|
      ensures '.' !in toks[j]
    {
      assert forall k :: 0 <= k < |toks[j]| ==> toks[j][k] in expr;
    }
  }

  /** With x a FLOAT variable, "x+y" is FLOAT but "x%y" is INT: the remainder operator alone
      never starts the operand scan. */
  lemma RemainderAloneSkipsTheScan(vars: seq<Variable>)
    requires IsFloatVariable(vars, "x") && Lookup(vars, "x+y").None? && Lookup(vars, "x%y").None?
    ensures ExpressionType(vars, "x+y") == "FLOAT"
    ensures ExpressionType(vars, "x%y") == "INT"
  {
    var sum, rem := "x+y", "x%y";
    assert forall k :: 0 <= k < |sum| ==> sum[k] !in ".eE";
    assert forall k :: 0 <= k < |rem| ==> rem[k] !in ".eE" && rem[k] !in "/*+-";
    OperatorScanFindsFloatOperands(vars, rem);
    OperatorScanFindsFloatOperands(vars, sum);
    SumTokens();
    assert sum[1] in "/*+-";
  }

  /** strtok splits "x+y" into "x" and "y". */
  lemma SumTokens()
    ensures Tokens("x+y", TokenDelimiters) == ["x", "y"]
  {
    var x, y := "x", "y";
    assert x[0] == 'x' && 'x' !in TokenDelimiters && y[0] == 'y' && 'y' !in TokenDelimiters;
    TokensOfWord(x, TokenDelimiters);
    TokensOfWord(y, TokenDelimiters);
    assert "x+y" == x + ['+'] + y;
    TokensSplitAtDelimiter(x, '+', y, TokenDelimiters);
  }

  /** Any expression with the letter 'e' in it is tagged FLOAT before the symbol table is even
      consulted, so an INT variable whose name contains an 'e' is compared as a float. */
  lemma NamesWithLetterEAreFloat(vars: seq<Variable>, name: string, k: nat)
    requires k < |name| && name[k] == 'e' && !(name[0] in "'\"")
    ensures ExpressionType(vars, name) == "FLOAT"
  {
    assert name[k] in ".eE";
  }

  /** A decimal literal that names no variable is an INT; a literal with a '.' is a FLOAT. */
  lemma LiteralTypes(vars: seq<Variable>, expr: string)
    ensures AllDigits(expr) && Lookup(vars, expr).None? ==> ExpressionType(vars, expr) == "INT"
    ensures |expr| > 0 && IsDigit(expr[0]) && '.' in expr ==> ExpressionType(vars, expr) == "FLOAT"
  {
    if AllDigits(expr) && Lookup(vars, expr).None? {
      assert forall k :: 0 <= k < |expr| ==> expr[k] !in ".eE" && expr[k] !in "./*+-" by {
        assert forall k :: 0 <= k < |expr| ==> IsDigit(expr[k]);
      }
    }
    if |expr| > 0 && IsDigit(expr[0]) && '.' in expr {
      var k :| 0 <= k < |expr| && expr[k] == '.';
      assert expr[k] in ".eE";
    }
  }

  // ---------------------------------------------------------------------------------------
  // process_condition

  /** `sscanf(condition, "%49s %2s %49s", left, op, right) == 3`. */
  function ParseCondition(cond: string): Option<(string, string, string)>
  {
    match ScanField(cond, 49)
    case None => None
    case Some((left, rest)) =>
      match ScanField(rest, 2)
      case None => None
      case Some((op, rest2)) =>
        match ScanField(rest2, 49)
        case None => None
        case Some((right, _)) => Some((left, op, right))
  }

  /** The six relations the comparison code knows. */
  predicate IsRelation(op: string)
  {
    op in {"==", "!=", "<", ">", "<=", ">="}
  }

  /** Loading one side of a condition: a FLOAT side into its float register (flw from the
      variable, or li then fmv.w.x for a literal), any other side by generate_load_operand into
      its integer register. */
  function ConditionOperandCode(vars: seq<Variable>, s: string, freg: Reg, ireg: Reg): (r: seq<Instr>)
    ensures |r| <= 2
    ensures forall k :: 0 <= k < |r| ==> !IsControl(r[k]) && !IsStore(r[k])
    ensures forall k :: 0 <= k < |r| && (r[k].Flw? || r[k].Fld? || r[k].FmvWX?) ==>
              r[k].rd == ireg || (ExpressionType(vars, s) == "FLOAT" && r[k].rd == freg)
  {
    if ExpressionType(vars, s) == "FLOAT" then
      match Lookup(vars, s)
      case Some(v) => [Flw(freg, v.offset)]
      case None => [Li(ireg, Text(s)), FmvWX(freg, ireg)]
    else LoadOperandCode(RiscvGen3, vars, s, ireg)
  }

  /** The comparison: a float compare into t2 and a beqz/bnez, or an integer branch, in either
      case to L_false_<label>. An unknown relation gives no line. */
  function ComparisonCode(op: string, isFloat: bool, lb: int): (r: seq<Instr>)
    ensures |r| <= 2
    ensures forall k :: 0 <= k < |r| ==>
              r[k].FCmp? || ((r[k].Branch? || r[k].Beqz? || r[k].Bnez?) && r[k].target == LFalse(lb))
    ensures !IsRelation(op) <==> r == []
  {
    var f := LFalse(lb);
    if isFloat then
      if op == "==" then [FCmp(FeqS, "t2", "ft0", "ft1"), Beqz("t2", f)]
      else if op == "!=" then [FCmp(FeqS, "t2", "ft0", "ft1"), Bnez("t2", f)]
      else if op == "<" then [FCmp(FltS, "t2", "ft0", "ft1"), Beqz("t2", f)]
      else if op == ">" then [FCmp(FltS, "t2", "ft1", "ft0"), Beqz("t2", f)]
      else if op == "<=" then [FCmp(FleS, "t2", "ft0", "ft1"), Beqz("t2", f)]
      else if op == ">=" then [FCmp(FleS, "t2", "ft1", "ft0"), Beqz("t2", f)]
      else []
    else
      if op == "==" then [Branch(Bne, "t0", "t1", f)]
      else if op == "!=" then [Branch(Beq, "t0", "t1", f)]
      else if op == "<" then [Branch(Bge, "t0", "t1", f)]
      else if op == ">" then [Branch(Ble, "t0", "t1", f)]
      else if op == "<=" then [Branch(Bgt, "t0", "t1", f)]
      else if op == ">=" then [Branch(Blt, "t0", "t1", f)]
      else []
  }

  /** The comparison branch of process_condition, as its if-chain picks the lines. The integer
      branch jumps on the negated relation. */
  method ComparisonLines(op: string, isFloat: bool, lb: int) returns (lines: seq<Instr>)
    ensures lines == ComparisonCode(op, isFloat, lb)
    ensures !isFloat && IsRelation(op) ==>
              |lines| == 1 && lines[0].Branch? && lines[0].target == LFalse(lb) &&
              forall a: int, b: int :: BranchTaken(lines[0].bop, a, b) <==> !Holds(op, a as real, b as real)
  {
    var f := LFalse(lb);
    if isFloat {
      if op == "==" {
        lines := [FCmp(FeqS, "t2", "ft0", "ft1"), Beqz("t2", f)];
      } else if op == "!=" {
        lines := [FCmp(FeqS, "t2", "ft0", "ft1"), Bnez("t2", f)];
      } else if op == "<" {
        lines := [FCmp(FltS, "t2", "ft0", "ft1"), Beqz("t2", f)];
      } else if op == ">" {
        lines := [FCmp(FltS, "t2", "ft1", "ft0"), Beqz("t2", f)];
      } else if op == "<=" {
        lines := [FCmp(FleS, "t2", "ft0", "ft1"), Beqz("t2", f)];
      } else if op == ">=" {
        lines := [FCmp(FleS, "t2", "ft1", "ft0"), Beqz("t2", f)];
      } else {
        lines := [];
      }
    } else {
      if op == "==" {
        lines := [Branch(Bne, "t0", "t1", f)];
      } else if op == "!=" {
        lines := [Branch(Beq, "t0", "t1", f)];
      } else if op == "<" {
        lines := [Branch(Bge, "t0", "t1", f)];
      } else if op == ">" {
        lines := [Branch(Ble, "t0", "t1", f)];
      } else if op == "<=" {
        lines := [Branch(Bgt, "t0", "t1", f)];
      } else if op == ">=" {
        lines := [Branch(Blt, "t0", "t1", f)];
      } else {
        lines := [];
      }
    }
  }

  /** process_condition. */
  function ConditionCode(vars: seq<Variable>, cond: string, lb: int, isWhile: bool): seq<Instr>
  {
    match ParseCondition(cond)
    case None => [Comment(MalformedCondition(cond))]
    case Some((left, op, right)) => ConditionBlock(vars, left, op, right, lb, isWhile)
  }

  /** The code of a condition that splits into its three fields: the loads, the comparison,
      for a while the jump back, and the L_false_<lb> label. */
  function ConditionBlock(vars: seq<Variable>, left: string, op: string, right: string, lb: int, isWhile: bool): seq<Instr>
  {
    ConditionLoads(vars, left, op, right) + ComparisonCode(op, FloatComparison(vars, left, right), lb)
    + (if isWhile then [J(LLoopStart(lb))] else []) + [Define(LFalse(lb))]
  }

  /** The comparison is done in the float registers when either side is tagged FLOAT. */
  predicate FloatComparison(vars: seq<Variable>, left: string, right: string)
  {
    ExpressionType(vars, left) == "FLOAT" || ExpressionType(vars, right) == "FLOAT"
  }

  /** The opening of a well-formed condition's code: the comment, then the left side loaded
      into ft0 or t0 and the right side into ft1 or t1. It neither jumps nor stores. */
  function ConditionLoads(vars: seq<Variable>, left: string, op: string, right: string): (r: seq<Instr>)
    ensures forall k :: 0 <= k < |r| ==> !IsControl(r[k]) && !IsStore(r[k])
  {
    var a := ConditionOperandCode(vars, left, "ft0", "t0");
    var b := ConditionOperandCode(vars, right, "ft1", "t1");
    var head := [Comment(EvaluatingCondition(left, op, right))];
    NoJumpOrStoreConcat(head, a);
    NoJumpOrStoreConcat(head + a, b);
    head + a + b
  }

  lemma NoJumpOrStoreConcat(a: seq<Instr>, b: seq<Instr>)
    requires forall k :: 0 <= k < |a| ==> !IsControl(a[k]) && !IsStore(a[k])
    requires forall k :: 0 <= k < |b| ==> !IsControl(b[k]) && !IsStore(b[k])
    ensures forall k :: 0 <= k < |a + b| ==> !IsControl((a + b)[k]) && !IsStore((a + b)[k])
  {
    assert forall k :: |a| <= k < |a + b| ==> (a + b)[k] == b[k - |a|];
  }

  /** A left side that is not FLOAT is loaded into t0, and the right side into ft1 or t1, so
      the loads leave ft0 alone. */
  lemma IntegerLeftLeavesFt0(vars: seq<Variable>, left: string, op: string, right: string)
    requires ExpressionType(vars, left) != "FLOAT"
    ensures NeverWritesFloat(ConditionLoads(vars, left, op, right), "ft0")
  {
    var head := [Comment(EvaluatingCondition(left, op, right))];
    var a := ConditionOperandCode(vars, left, "ft0", "t0");
    var b := ConditionOperandCode(vars, right, "ft1", "t1");
    assert ConditionLoads(vars, left, op, right) == head + a + b;
    assert NeverWritesFloat(head, "ft0") && NeverWritesFloat(a, "ft0") && NeverWritesFloat(b, "ft0");
    NeverWritesFloatConcat(head, a, "ft0");
    NeverWritesFloatConcat(head + a, b, "ft0");
  }

  /** What a relation means on two numbers. */
  predicate Holds(op: string, a: real, b: real)
  {
    if op == "==" then a == b
    else if op == "!=" then a != b
    else if op == "<" then a < b
    else if op == ">" then a > b
    else if op == "<=" then a <= b
    else a >= b
  }

  /** When a two-register branch jumps, per the RV32I base instruction set (ble and bgt are
      bge and blt with the operands swapped). */
  predicate BranchTaken(bop: BranchOp, a: int, b: int)
  {
    match bop
    case Beq => a == b
    case Bne => a != b
    case Blt => a < b
    case Bge => a >= b
    case Ble => a <= b
    case Bgt => a > b
  }

  /** What feq.s, flt.s and fle.s write into their destination (1 when true), read on ordered
      values. */
  predicate FCmpHolds(fop: FCmpOp, x: real, y: real)
  {
    match fop
    case FeqS => x == y
    case FltS => x < y
    case FleS => x <= y
  }

  /** The integer comparison is one branch from t0 (left) and t1 (right) to L_false_<label>,
      taken exactly when the relation fails: it branches on the negated relation. */
  lemma IntBranchSkipsExactlyWhenFalse(op: string, lb: int, a: int, b: int)
    requires IsRelation(op)
    ensures var c := ComparisonCode(op, false, lb);
            |c| == 1 && c[0].Branch? && c[0].rs1 == "t0" && c[0].rs2 == "t1" && c[0].target == LFalse(lb) &&
            (BranchTaken(c[0].bop, a, b) <==> !Holds(op, a as real, b as real))
  {
  }

  /** The float comparison is a compare of ft0 (left) and ft1 (right) into t2, in one order or
      the other, and a beqz or bnez on t2 to L_false_<label>; the jump is taken exactly when the
      relation fails. */
  lemma FloatBranchSkipsExactlyWhenFalse(op: string, lb: int, a: real, b: real)
    requires IsRelation(op)
    ensures var c := ComparisonCode(op, true, lb);
            |c| == 2 && c[0].FCmp? && c[0].rd == "t2" &&
            ((c[0].rs1, c[0].rs2) == ("ft0", "ft1") || (c[0].rs1, c[0].rs2) == ("ft1", "ft0")) &&
            (c[1] == Beqz("t2", LFalse(lb)) || c[1] == Bnez("t2", LFalse(lb))) &&
            var x := if c[0].rs1 == "ft0" then a else b;
            var y := if c[0].rs2 == "ft0" then a else b;
            ((FCmpHolds(c[0].fop, x, y) == c[1].Bnez?) <==> !Holds(op, a, b))
  {
  }

  /** The shape of a well-formed condition's code, line by line, from its parts: the loads,
      which neither jump nor define; the comparison, whose jumps go to L_false_<lb>; the back
      edge of a while; and the closing definition of L_false_<lb>. */
  lemma ConditionShape(loads: seq<Instr>, cmp: seq<Instr>, back: seq<Instr>, lb: int, isWhile: bool)
    requires forall k :: 0 <= k < |loads| ==> !IsControl(loads[k])
    requires forall k :: 0 <= k < |cmp| ==>
               cmp[k].FCmp? || ((cmp[k].Branch? || cmp[k].Beqz? || cmp[k].Bnez?) && cmp[k].target == LFalse(lb))
    requires back == if isWhile then [J(LLoopStart(lb))] else []
    ensures var c := loads + cmp + back + [Define(LFalse(lb))];
            c[|c| - 1] == Define(LFalse(lb)) &&
            (forall k :: 0 <= k < |c| - 1 ==> !c[k].Define?) &&
            (forall k :: 0 <= k < |c| && (c[k].Branch? || c[k].Beqz? || c[k].Bnez?) ==>
               |loads| <= k < |loads| + |cmp| && c[k].target == LFalse(lb)) &&
            (forall k :: 0 <= k < |c| && c[k].J? ==> isWhile && c[k].target == LLoopStart(lb)) &&
            (isWhile ==> c[|c| - 2] == J(LLoopStart(lb))) &&
            DefinesOwnLabels(c, lb) && JumpsToOwnLabels(c, lb)
  {
    var c := loads + cmp + back + [Define(LFalse(lb))];
    forall k | 0 <= k < |c|
      ensures k < |c| - 1 ==> !c[k].Define?
      ensures (c[k].Branch? || c[k].Beqz? || c[k].Bnez?) ==> |loads| <= k < |loads| + |cmp| && c[k].target == LFalse(lb)
      ensures c[k].J? ==> isWhile && c[k].target == LLoopStart(lb)
    {
      if k < |loads| {
        assert c[k] == loads[k];
      } else if k < |loads| + |cmp| {
        assert c[k] == cmp[k - |loads|];
      } else if k < |loads| + |cmp| + |back| {
        assert c[k] == back[k - |loads| - |cmp|];
      }
    }
  }

  /** A relation other than the six emits no comparison at all: the code falls through to the
      block whatever the operands are. */
  lemma UnknownRelationNeverBranches(vars: seq<Variable>, left: string, op: string, right: string, lb: int, isWhile: bool)
    requires !IsRelation(op)
    ensures var c := ConditionBlock(vars, left, op, right, lb, isWhile);
            forall k :: 0 <= k < |c| ==> !c[k].Branch? && !c[k].Beqz? && !c[k].Bnez?
  {
    ConditionShape(ConditionLoads(vars, left, op, right), ComparisonCode(op, FloatComparison(vars, left, right), lb),
                   if isWhile then [J(LLoopStart(lb))] else [], lb, isWhile);
  }

  /** A condition that does not split into three fields gives the error comment and nothing
      else, and only such a condition does. */
  lemma MalformedConditionOnlyReports(vars: seq<Variable>, cond: string, lb: int, isWhile: bool)
    ensures ConditionCode(vars, cond, lb, isWhile) == [Comment(MalformedCondition(cond))]
            <==> ParseCondition(cond).None?
    ensures (forall k :: 0 <= k < |cond| ==> IsSpace(cond[k])) ==> ParseCondition(cond).None?
  {
    if ParseCondition(cond).Some? {
      assert ConditionCode(vars, cond, lb, isWhile)[0].note.EvaluatingCondition?;
    }
  }

  /** Every label the condition code defines or jumps to carries the label number it was
      given: L_false_<lb> is defined once, as the last line, the comparison's jumps go there,
      and the only other jump is the back edge of a while, to L_loop_start_<lb>. */
  lemma ConditionLabelsAreItsOwn(vars: seq<Variable>, left: string, op: string, right: string, lb: int, isWhile: bool)
    ensures var c := ConditionBlock(vars, left, op, right, lb, isWhile);
            c[|c| - 1] == Define(LFalse(lb)) &&
            (forall k :: 0 <= k < |c| - 1 ==> !c[k].Define?) &&
            (forall k :: 0 <= k < |c| && (c[k].Branch? || c[k].Beqz? || c[k].Bnez?) ==> c[k].target == LFalse(lb)) &&
            (forall k :: 0 <= k < |c| && c[k].J? ==> isWhile && c[k].target == LLoopStart(lb)) &&
            (isWhile ==> c[|c| - 2] == J(LLoopStart(lb))) &&
            DefinesOwnLabels(c, lb) && JumpsToOwnLabels(c, lb)
  {
    ConditionShape(ConditionLoads(vars, left, op, right), ComparisonCode(op, FloatComparison(vars, left, right), lb),
                   if isWhile then [J(LLoopStart(lb))] else [], lb, isWhile);
  }

  /** An instruction that writes float register `reg`. */
  predicate WritesFloat(x: Instr, reg: Reg)
  {
    (x.Flw? || x.Fld? || x.FmvWX?) && x.rd == reg
  }

  /** No line of `s` writes float register `reg`. */
  predicate NeverWritesFloat(s: seq<Instr>, reg: Reg)
  {
    forall k :: 0 <= k < |s| ==> !WritesFloat(s[k], reg)
  }

  lemma NeverWritesFloatConcat(p: seq<Instr>, q: seq<Instr>, reg: Reg)
    requires NeverWritesFloat(p, reg) && NeverWritesFloat(q, reg)
    ensures NeverWritesFloat(p + q, reg)
  {
    forall k | 0 <= k < |p + q|
      ensures !WritesFloat((p + q)[k], reg)
    {
      if k >= |p| {
        assert (p + q)[k] == q[k - |p|];
      }
    }
  }

  /** When only the right side is FLOAT, the float compare reads ft0, which the condition code
      never loads: the left side went to t0 through generate_load_operand. */
  lemma MixedComparisonReadsUnloadedRegister(vars: seq<Variable>, left: string, op: string, right: string, lb: int, isWhile: bool)
    requires IsRelation(op) && ExpressionType(vars, left) != "FLOAT" && ExpressionType(vars, right) == "FLOAT"
    ensures var c := ConditionBlock(vars, left, op, right, lb, isWhile);
            (exists k :: 0 <= k < |c| && c[k].FCmp? && (c[k].rs1 == "ft0" || c[k].rs2 == "ft0")) &&
            NeverWritesFloat(c, "ft0")
  {
    FloatBranchSkipsExactlyWhenFalse(op, lb, 0.0, 0.0);
    IntegerLeftLeavesFt0(vars, left, op, right);
    var loads := ConditionLoads(vars, left, op, right);
    ConditionFloatShape(loads, ComparisonCode(op, true, lb), if isWhile then [J(LLoopStart(lb))] else [], lb, isWhile, "ft0");
    var c := ConditionBlock(vars, left, op, right, lb, isWhile);
    assert c[|loads|] == ComparisonCode(op, true, lb)[0];
  }

  /** The float-register facts of a well-formed condition's code, from its parts: a register
      the loads leave alone is written by no line, and the first comparison line keeps its
      place after the loads. */
  lemma ConditionFloatShape(loads: seq<Instr>, cmp: seq<Instr>, back: seq<Instr>, lb: int, isWhile: bool, reg: Reg)
    requires NeverWritesFloat(loads, reg)
    requires forall k :: 0 <= k < |cmp| ==>
               cmp[k].FCmp? || ((cmp[k].Branch? || cmp[k].Beqz? || cmp[k].Bnez?) && cmp[k].target == LFalse(lb))
    requires back == if isWhile then [J(LLoopStart(lb))] else []
    requires |cmp| > 0
    ensures var c := loads + cmp + back + [Define(LFalse(lb))];
            c[|loads|] == cmp[0] && NeverWritesFloat(c, reg)
  {
    assert NeverWritesFloat(cmp, reg) && NeverWritesFloat(back, reg);
    NeverWritesFloatConcat(loads, cmp, reg);
    NeverWritesFloatConcat(loads + cmp, back, reg);
    NeverWritesFloatConcat(loads + cmp + back, [Define(LFalse(lb))], reg);
  }

  // ---------------------------------------------------------------------------------------
  // The if, if-else and while events of generate_riscv_code

  datatype Event = IfEvent | IfElseEvent | WhileEvent

  /** The lines one control-flow event puts around its condition code `cc`. */
  function EventFrame(e: Event, lc: int, cc: seq<Instr>): seq<Instr>
  {
    match e
    case IfEvent => [Comment(ConditionalIfNote)] + cc + [Define(LIf(lc))]
    case IfElseEvent => [Comment(ConditionalIfElseNote)] + cc + [Define(LElse(lc))]
    case WhileEvent => [Comment(LoopWhileNote), Define(LWhileStart(lc))] + cc + [Define(LWhileEnd(lc))]
  }

  /** The lines one control-flow event adds, with label number lc. */
  function EventCode(vars: seq<Variable>, e: Event, cond: string, lc: int): seq<Instr>
  {
    EventFrame(e, lc, ConditionCode(vars, cond, lc, e == WhileEvent))
  }

  /** The labels an event with label number lc may define. */
  predicate EventDefinable(l: Label, lc: int)
  {
    l == LFalse(lc) || l == LIf(lc) || l == LElse(lc) || l == LWhileStart(lc) || l == LWhileEnd(lc)
  }

  /** Every label `s` defines is one an event with number lc may define. */
  predicate DefinesOwnLabels(s: seq<Instr>, lc: int)
  {
    forall k :: 0 <= k < |s| && s[k].Define? ==> EventDefinable(s[k].at, lc)
  }

  /** Every jump of `s` goes to L_false_<lc> or L_loop_start_<lc>. */
  predicate JumpsToOwnLabels(s: seq<Instr>, lc: int)
  {
    forall k :: 0 <= k < |s| && (s[k].Branch? || s[k].Beqz? || s[k].Bnez? || s[k].J?) ==>
      s[k].target == LFalse(lc) || s[k].target == LLoopStart(lc)
  }

  lemma OwnLabelsConcat(p: seq<Instr>, q: seq<Instr>, lc: int)
    requires DefinesOwnLabels(p, lc) && JumpsToOwnLabels(p, lc)
    requires DefinesOwnLabels(q, lc) && JumpsToOwnLabels(q, lc)
    ensures DefinesOwnLabels(p + q, lc) && JumpsToOwnLabels(p + q, lc)
  {
    forall k | |p| <= k < |p + q|
      ensures (p + q)[k] == q[k - |p|]
    {
    }
  }

  /** A line `s` never holds: a definition of a label outside the event's own. */
  lemma DefinesOwnLabelsExcludes(s: seq<Instr>, lc: int, l: Label)
    requires DefinesOwnLabels(s, lc) && !EventDefinable(l, lc)
    ensures Define(l) !in s
  {
  }

  /** The condition code, well-formed or not, defines and jumps to its own labels only; a
      well-formed while condition ends with its back edge and L_false_<lb>. */
  lemma ConditionCodeOwnLabels(vars: seq<Variable>, cond: string, lb: int, isWhile: bool)
    ensures DefinesOwnLabels(ConditionCode(vars, cond, lb, isWhile), lb)
    ensures JumpsToOwnLabels(ConditionCode(vars, cond, lb, isWhile), lb)
    ensures ParseCondition(cond).Some? && isWhile ==>
              var c := ConditionCode(vars, cond, lb, isWhile);
              |c| >= 2 && c[|c| - 2] == J(LLoopStart(lb))
  {
    match ParseCondition(cond)
    case None =>
    case Some((left, op, right)) =>
      ConditionLabelsAreItsOwn(vars, left, op, right, lb, isWhile);
  }

  /** The lines around the condition code define and jump to the event's own labels only. */
  lemma EventFrameOwnLabels(e: Event, lc: int, cc: seq<Instr>)
    requires DefinesOwnLabels(cc, lc) && JumpsToOwnLabels(cc, lc)
    ensures DefinesOwnLabels(EventFrame(e, lc, cc), lc) && JumpsToOwnLabels(EventFrame(e, lc, cc), lc)
  {
    var pre: seq<Instr> := match e
      case IfEvent => [Comment(ConditionalIfNote)]
      case IfElseEvent => [Comment(ConditionalIfElseNote)]
      case WhileEvent => [Comment(LoopWhileNote), Define(LWhileStart(lc))];
    var post: seq<Instr> := match e
      case IfEvent => [Define(LIf(lc))]
      case IfElseEvent => [Define(LElse(lc))]
      case WhileEvent => [Define(LWhileEnd(lc))];
    assert EventFrame(e, lc, cc) == pre + cc + post;
    assert DefinesOwnLabels(pre, lc) && JumpsToOwnLabels(pre, lc);
    assert DefinesOwnLabels(post, lc) && JumpsToOwnLabels(post, lc);
    OwnLabelsConcat(pre, cc, lc);
    OwnLabelsConcat(pre + cc, post, lc);
  }

  /** Every label an event defines is one of its own five, and every jump goes to its own
      L_false_<lc> or L_loop_start_<lc>; so with label_count bumped after each event two events
      never share a label. */
  lemma EventLabelsAreItsOwn(vars: seq<Variable>, e: Event, cond: string, lc: int)
    ensures DefinesOwnLabels(EventCode(vars, e, cond, lc), lc)
    ensures JumpsToOwnLabels(EventCode(vars, e, cond, lc), lc)
  {
    ConditionCodeOwnLabels(vars, cond, lc, e == WhileEvent);
    EventFrameOwnLabels(e, lc, ConditionCode(vars, cond, lc, e == WhileEvent));
  }

  /** The loop head and the back edge of the while frame. */
  lemma WhileFrameShape(lc: int, cc: seq<Instr>)
    requires |cc| >= 2 && cc[|cc| - 2] == J(LLoopStart(lc))
    ensures var c := EventFrame(WhileEvent, lc, cc);
            J(LLoopStart(lc)) in c && Define(LWhileStart(lc)) in c
  {
    var c := EventFrame(WhileEvent, lc, cc);
    assert c[|cc|] == cc[|cc| - 2];
    assert c[1] == Define(LWhileStart(lc));
  }

  /** No event defines L_loop_start_<n>, for any n. */
  lemma NoEventDefinesLoopStart(vars: seq<Variable>, e: Event, cond: string, lc: int, n: int)
    ensures Define(LLoopStart(n)) !in EventCode(vars, e, cond, lc)
  {
    EventLabelsAreItsOwn(vars, e, cond, lc);
    DefinesOwnLabelsExcludes(EventCode(vars, e, cond, lc), lc, LLoopStart(n));
  }

  /** The while event's back edge jumps to L_loop_start_<lc>, a label no event ever defines:
      the label it does define at the loop head is L_while_start_<lc>. */
  lemma WhileBackEdgeMissesItsLabel(vars: seq<Variable>, cond: string, lc: int)
    requires ParseCondition(cond).Some?
    ensures var c := EventCode(vars, WhileEvent, cond, lc);
            J(LLoopStart(lc)) in c && Define(LWhileStart(lc)) in c
    ensures forall e, cond', lc', n :: Define(LLoopStart(n)) !in EventCode(vars, e, cond', lc')
  {
    ConditionCodeOwnLabels(vars, cond, lc, true);
    WhileFrameShape(lc, ConditionCode(vars, cond, lc, true));
    forall e, cond', lc', n
      ensures Define(LLoopStart(n)) !in EventCode(vars, e, cond', lc')
    {
      NoEventDefinesLoopStart(vars, e, cond', lc', n);
    }
  }

  // ---------------------------------------------------------------------------------------
  // generate_riscv_assignment

  /** generate_riscv_assignment: the error and warning paths, the literal and copy fast paths,
      and the general path through process_expression. A fault of the expression stops the
      call after the expression's code. */
  function AssignCode(vars: seq<Variable>, frame: int, target: string, expr: string): (r: Outcome)
  {
    match Lookup(vars, target)
    case None => Outcome([Comment(UndeclaredTarget(target))], None)
    case Some(v) =>
      if v.isConst then Outcome([Comment(ConstTarget(target))], None)
      else StoreCode(vars, frame, target, expr, v.offset)
  }

  /** The paths of generate_riscv_assignment past its checks of the target, whose slot is at
      `slot`: a numeric literal, a lone declared variable, or a general expression. */
  function StoreCode(vars: seq<Variable>, frame: int, target: string, expr: string, slot: int): Outcome
  {
    if NumericConstant(expr) then Outcome([Li("t0", Text(expr)), Sw("t0", slot)], None)
    else match Lookup(vars, expr)
      case Some(src) => Outcome([Lw("t0", src.offset), Sw("t0", slot)], None)
      case None => ComputedAssignCode(Env(RiscvGen3, vars, frame), target, expr, slot)
  }

  /** The general path of generate_riscv_assignment: the expression's code, then its result
      moved from the temporary result slot to the target's slot, and the slot cleared. */
  function ComputedAssignCode(env: Env, target: string, expr: string, slot: int): Outcome
  {
    var e := Evaluate(env, expr);
    var head := [Comment(Computing(target, expr))] + e.code;
    if e.fault.Some? then Outcome(head, e.fault)
    else Outcome(head + [Lw("t0", TempResultOffset), Sw("t0", slot), Sw("zero", TempResultOffset)], None)
  }

  /** The paths that emit no expression code: an undeclared or const target gets one comment
      and no store; a numeric constant (also "" and "-") and a lone declared variable get one
      load and one store to the target's slot. */
  lemma AssignFastPaths(vars: seq<Variable>, frame: int, target: string, expr: string)
    ensures Lookup(vars, target).None? ==> AssignCode(vars, frame, target, expr).code == [Comment(UndeclaredTarget(target))]
    ensures Lookup(vars, target).Some? && Lookup(vars, target).value.isConst ==>
              AssignCode(vars, frame, target, expr).code == [Comment(ConstTarget(target))]
    ensures Lookup(vars, target).Some? && !Lookup(vars, target).value.isConst && (NumericConstant(expr) || Lookup(vars, expr).Some?) ==>
              var c := AssignCode(vars, frame, target, expr).code;
              |c| == 2 && c[1] == Sw("t0", Lookup(vars, target).value.offset) &&
              (c[0] == Li("t0", Text(expr)) || c[0] == Lw("t0", Lookup(vars, expr).value.offset))
    ensures Lookup(vars, target).Some? && !Lookup(vars, target).value.isConst ==>
              AssignCode(vars, frame, target, "").code == [Li("t0", Text("")), Sw("t0", Lookup(vars, target).value.offset)] &&
              AssignCode(vars, frame, target, "-").code == [Li("t0", Text("-")), Sw("t0", Lookup(vars, target).value.offset)]
  {
    NumericConstantAcceptsEmptyAndMinus();
  }

  /** The stores of an assignment in a well-formed frame: only the target's slot among the
      variables, the temporary slots above the frame, and TEMP_RESULT_OFFSET; an undeclared or
      const target gets no store at all. */
  lemma AssignStoresOnlyTargetTempsAndResultSlot(vars: seq<Variable>, frame: int, target: string, expr: string)
    requires WellFormed(vars, frame)
    ensures forall x :: x in AssignCode(vars, frame, target, expr).code && IsStore(x) ==>
              Lookup(vars, target).Some? && !Lookup(vars, target).value.isConst &&
              (x.offset == Lookup(vars, target).value.offset || x.offset >= frame || x.offset == TempResultOffset)
  {
    var env := Env(RiscvGen3, vars, frame);
    EvaluateKeepsDiscipline(env, expr);
  }

  /** The general path reads the value it stores into the target from TEMP_RESULT_OFFSET and
      then zeroes that slot. When the variables take more than 16 bytes the expression code
      never stores there, and the zeroing store lands inside a declared variable. */
  lemma ComplexAssignmentUsesFixedSlot(vars: seq<Variable>, frame: int, target: string, expr: string)
    requires WellFormed(vars, frame)
    requires Lookup(vars, target).Some? && !Lookup(vars, target).value.isConst
    requires !NumericConstant(expr) && Lookup(vars, expr).None?
    requires AssignCode(vars, frame, target, expr).fault.None?
    ensures var c := AssignCode(vars, frame, target, expr).code;
            var off := Lookup(vars, target).value.offset;
            |c| >= 3 && c[|c| - 3..] == [Lw("t0", TempResultOffset), Sw("t0", off), Sw("zero", TempResultOffset)]
    ensures frame > TempResultOffset ==>
              (forall x :: x in Evaluate(Env(RiscvGen3, vars, frame), expr).code && IsStore(x) ==> x.offset != TempResultOffset) &&
              (exists i :: 0 <= i < |vars| && vars[i].offset <= TempResultOffset < vars[i].offset + vars[i].size)
  {
    var env := Env(RiscvGen3, vars, frame);
    EvaluateKeepsDiscipline(env, expr);
    if frame > TempResultOffset {
      FrameBytesBelongToVariables(vars, frame, TempResultOffset);
    }
  }

  // ---------------------------------------------------------------------------------------
  // The scanf event (the syscall-code choice of generate_riscv_code)

  /** A scanf of one variable: its address in a0, read_int (5) or read_float (6) by its type,
      the float result stored from fa0; any other type stops after an error comment. */
  function ScanfCode(vars: seq<Variable>, name: string): seq<Instr>
  {
    match Lookup(vars, name)
    case None => [Comment(UndeclaredVariable(name))]
    case Some(v) =>
      var head := [Comment(ScanfCall), Addi("a0", "sp", v.offset)];
      if v.vtype in {"INT", "INT_KW"} then head + [Li("a7", Int(5)), Ecall]
      else if v.vtype in {"FLOAT", "FLOAT_KW"} then head + [Li("a7", Int(6)), Ecall, Fsw("fa0", v.offset)]
      else head + [Comment(UnsupportedScanfType)]
  }

  /** scanf issues a system call only for INT and FLOAT variables; only the float read is
      stored, into the variable's own slot; the integer read leaves its result in a0. */
  lemma ScanfStoresOnlyFloats(vars: seq<Variable>, name: string)
    ensures Ecall in ScanfCode(vars, name) <==>
              Lookup(vars, name).Some? && Lookup(vars, name).value.vtype in {"INT", "INT_KW", "FLOAT", "FLOAT_KW"}
    ensures forall x :: x in ScanfCode(vars, name) && IsStore(x) ==>
              x == Fsw("fa0", Lookup(vars, name).value.offset) && Lookup(vars, name).value.vtype in {"FLOAT", "FLOAT_KW"}
    ensures Lookup(vars, name).Some? && Lookup(vars, name).value.vtype in {"INT", "INT_KW"} ==>
              forall x :: x in ScanfCode(vars, name) ==> !IsStore(x)
  {
  }

  // ---------------------------------------------------------------------------------------
  // generate_if_statement, generate_while_loop, generate_return (never called by the file)

  /** generate_if_statement with label number lc. */
  function IfStatementCode(env: Env, cond: string, lc: int): (r: Outcome)
  {
    var e := Evaluate(env, cond);
    var head := [Comment(IfStart)] + e.code;
    if e.fault.Some? then Outcome(head, e.fault)
    else Outcome(head + [Lw("t0", TempResultOffset), Beqz("t0", LElse(lc)), Comment(IfBlock), Define(LElse(lc))], None)
  }

  /** generate_while_loop with label number lc. */
  function WhileLoopCode(env: Env, cond: string, lc: int): (r: Outcome)
  {
    var e := Evaluate(env, cond);
    var head := [Comment(WhileStart), Define(LWhileStart(lc))] + e.code;
    if e.fault.Some? then Outcome(head, e.fault)
    else Outcome(head + [Lw("t0", TempResultOffset), Beqz("t0", LWhileEnd(lc)), Comment(WhileBody),
                         J(LWhileStart(lc)), Define(LWhileEnd(lc))], None)
  }

  /** generate_return: the expression, if any, its result into a0, and a jump to main_end. */
  function ReturnCode(env: Env, expr: Option<string>): (r: Outcome)
  {
    match expr
    case None => Outcome([J(MainEnd)], None)
    case Some(x) =>
      var e := Evaluate(env, x);
      if e.fault.Some? then Outcome(e.code, e.fault)
      else Outcome(e.code + [Lw("a0", TempResultOffset), J(MainEnd)], None)
  }

  /** generate_if_statement branches on the expression's result only to the else label it
      defines last, with the "if" block comment in between: the true block itself is never
      emitted, and the expression code defines no label and jumps nowhere. */
  lemma IfStatementSkipsToItsOwnElse(env: Env, cond: string, lc: int)
    requires IfStatementCode(env, cond, lc).fault.None?
    ensures var c := IfStatementCode(env, cond, lc).code;
            |c| >= 5 && c[0] == Comment(IfStart) &&
            c[|c| - 4..] == [Lw("t0", TempResultOffset), Beqz("t0", LElse(lc)), Comment(IfBlock), Define(LElse(lc))] &&
            (forall x :: x in c && (x.Branch? || x.Beqz? || x.Bnez? || x.J?) ==> x == Beqz("t0", LElse(lc))) &&
            forall x :: x in c && x.Define? ==> x == Define(LElse(lc))
  {
    EvaluateKeepsDiscipline(env, cond);
  }

  /** Unlike the while event, generate_while_loop jumps back to the label it defines at the loop
      head, and exits to the label it defines at the end; the expression code between them
      defines no label. */
  lemma WhileLoopJumpsToItsOwnLabels(env: Env, cond: string, lc: int)
    requires WhileLoopCode(env, cond, lc).fault.None?
    ensures var c := WhileLoopCode(env, cond, lc).code;
            c[1] == Define(LWhileStart(lc)) && c[|c| - 1] == Define(LWhileEnd(lc)) &&
            (forall x :: x in c && (x.Branch? || x.Beqz? || x.Bnez? || x.J?) ==> x.target in {LWhileStart(lc), LWhileEnd(lc)}) &&
            forall x :: x in c && x.Define? ==> x.at in {LWhileStart(lc), LWhileEnd(lc)}
  {
    EvaluateKeepsDiscipline(env, cond);
  }

  /** generate_return jumps to main_end, a label neither the header, the footer, an event nor
      any other emitter of this file defines. */
  lemma ReturnJumpsToUndefinedLabel(vars: seq<Variable>, env: Env, expr: Option<string>, frame: int)
    requires ReturnCode(env, expr).fault.None?
    ensures J(MainEnd) in ReturnCode(env, expr).code
    ensures Define(MainEnd) !in HeaderCode(frame) + FooterCode()
    ensures forall e, cond, lc :: Define(MainEnd) !in EventCode(vars, e, cond, lc)
  {
    var c := ReturnCode(env, expr).code;
    assert c[|c| - 1] == J(MainEnd);
    forall e, cond, lc
      ensures Define(MainEnd) !in EventCode(vars, e, cond, lc)
    {
      EventLabelsAreItsOwn(vars, e, cond, lc);
      DefinesOwnLabelsExcludes(EventCode(vars, e, cond, lc), lc, MainEnd);
    }
  }

  // ---------------------------------------------------------------------------------------
  // The session: the globals of riscv_gen3.c


  class Session {
    const syms: SymbolTable
    const out: CodeBuffer
    const engine: Engine
    /** label_count. */
    var labelCount: int

    ghost predicate Valid()
      reads this, syms, syms.entries, out, out.lines, engine, engine.ops
    {
      syms.Valid() && out.Valid() && engine.Valid() && engine.draft == RiscvGen3
    }

    /** The symbols as process_expression sees them. */
    ghost function Env3(): Env
      reads this, syms, syms.entries
      requires syms.Valid()
    {
      Env(RiscvGen3, syms.Vars(), syms.currentOffset)
    }

    constructor ()
      ensures Valid() && syms.Vars() == [] && syms.currentOffset == 0 && out.Emitted == [] && labelCount == 0
    {
      syms := new SymbolTable();
      out := new CodeBuffer();
      engine := new Engine(RiscvGen3);
      labelCount := 0;
    }

    /** add_variable. */
    method AddVariable(name: string, vtype: string, isConst: bool, isStatic: bool)
      requires Valid() && |name| < NameCapacity && |vtype| < TypeCapacity
      modifies syms, syms.entries
      ensures Valid()
      ensures (syms.Vars(), syms.currentOffset) ==
              Declare(old(syms.Vars()), old(syms.currentOffset), name, vtype, SizeFromType(RiscvGen3, vtype), isConst, isStatic)
    {
      syms.Add(name, vtype, SizeFromType(RiscvGen3, vtype), isConst, isStatic);
    }

    /** generate_riscv_header. */
    method Header()
      requires Valid()
      modifies out, out.lines
      ensures Valid() && out.Emitted == old(out.Emitted) + HeaderCode(syms.currentOffset)
    {
      out.AddAll(HeaderCode(syms.currentOffset));
    }

    /** generate_riscv_footer. */
    method Footer()
      requires Valid()
      modifies out, out.lines
      ensures Valid() && out.Emitted == old(out.Emitted) + FooterCode()
    {
      out.AddAll(FooterCode());
    }

    /** generate_riscv_assignment. */
    method Assign(target: string, expr: string) returns (fault: Option<Fault>)
      requires Valid()
      modifies out, out.lines, engine, engine.ops, engine.ops.items
      ensures Valid()
      ensures var r := AssignCode(syms.Vars(), syms.currentOffset, target, expr);
              out.Emitted == old(out.Emitted) + r.code && fault == r.fault
    {
      var found := syms.Find(target);
      if found.None? {
        out.AddAll([Comment(UndeclaredTarget(target))]);
        return None;
      }
      var v := syms.entries[found.value];
      if v.isConst {
        out.AddAll([Comment(ConstTarget(target))]);
        return None;
      }
      fault := Store(target, expr, v.offset);
    }

    /** generate_riscv_assignment past its checks of the target. */
    method Store(target: string, expr: string, slot: int) returns (fault: Option<Fault>)
      requires Valid()
      modifies out, out.lines, engine, engine.ops, engine.ops.items
      ensures Valid()
      ensures var r := StoreCode(syms.Vars(), syms.currentOffset, target, expr, slot);
              out.Emitted == old(out.Emitted) + r.code && fault == r.fault
    {
      var numeric := IsNumericConstant(expr);
      if numeric {
        out.AddAll([Li("t0", Text(expr)), Sw("t0", slot)]);
        fault := None;
      } else {
        fault := StoreExpression(target, expr, slot);
      }
    }

    /** The store paths for a right-hand side that is not a numeric literal. */
    method StoreExpression(target: string, expr: string, slot: int) returns (fault: Option<Fault>)
      requires Valid() && !NumericConstant(expr)
      modifies out, out.lines, engine, engine.ops, engine.ops.items
      ensures Valid()
      ensures var r := StoreCode(syms.Vars(), syms.currentOffset, target, expr, slot);
              out.Emitted == old(out.Emitted) + r.code && fault == r.fault
    {
      var src := syms.Find(expr);
      if src.Some? {
        out.AddAll([Lw("t0", syms.entries[src.value].offset), Sw("t0", slot)]);
        fault := None;
      } else {
        fault := AssignComputed(target, expr, slot);
      }
    }

    /** The general path of generate_riscv_assignment, for a target whose slot is at `slot`. */
    method AssignComputed(target: string, expr: string, slot: int) returns (fault: Option<Fault>)
      requires Valid()
      modifies out, out.lines, engine, engine.ops, engine.ops.items
      ensures Valid()
      ensures var r := ComputedAssignCode(Env3(), target, expr, slot);
              out.Emitted == old(out.Emitted) + r.code && fault == r.fault
    {
      ghost var b := out.Emitted;
      var head := [Comment(Computing(target, expr))];
      out.AddAll(head);
      fault := engine.Process(syms, out, expr);
      ghost var e := Evaluate(Env3(), expr);
      Extend(b, head, e.code);
      if fault.None? {
        var tail := [Lw("t0", TempResultOffset), Sw("t0", slot), Sw("zero", TempResultOffset)];
        out.AddAll(tail);
        Extend(b, head + e.code, tail);
      }
    }

    /** One side of process_condition's operand loading. */
    method ConditionOperandLines(s: string, freg: Reg, ireg: Reg) returns (lines: seq<Instr>)
      requires syms.Valid()
      ensures lines == ConditionOperandCode(syms.Vars(), s, freg, ireg)
    {
      if ExpressionType(syms.Vars(), s) == "FLOAT" {
        var found := syms.Find(s);
        if found.Some? {
          lines := [Flw(freg, syms.entries[found.value].offset)];
        } else {
          lines := [Li(ireg, Text(s)), FmvWX(freg, ireg)];
        }
      } else {
        lines := LoadOperandCode(RiscvGen3, syms.Vars(), s, ireg);
      }
    }

    /** The lines of process_condition. */
    method ConditionLines(cond: string, lb: int, isWhile: bool) returns (lines: seq<Instr>)
      requires syms.Valid()
      ensures lines == ConditionCode(syms.Vars(), cond, lb, isWhile)
    {
      var parsed := ParseCondition(cond);
      if parsed.None? {
        return [Comment(MalformedCondition(cond))];
      }
      var (left, op, right) := parsed.value;
      var vars := syms.Vars();
      var isFloat := ExpressionType(vars, left) == "FLOAT" || ExpressionType(vars, right) == "FLOAT";
      var l := ConditionOperandLines(left, "ft0", "t0");
      var r := ConditionOperandLines(right, "ft1", "t1");
      var loads := [Comment(EvaluatingCondition(left, op, right))] + l + r;
      assert loads == ConditionLoads(vars, left, op, right);
      var cmp := ComparisonLines(op, isFloat, lb);
      var back: seq<Instr> := [];
      if isWhile {
        back := [J(LLoopStart(lb))];
      }
      lines := loads + cmp + back + [Define(LFalse(lb))];
    }

    /** process_condition. */
    method ProcessCondition(cond: string, lb: int, isWhile: bool)
      requires Valid()
      modifies out, out.lines
      ensures Valid() && out.Emitted == old(out.Emitted) + ConditionCode(syms.Vars(), cond, lb, isWhile)
    {
      var lines := ConditionLines(cond, lb, isWhile);
      out.AddAll(lines);
    }

    /** The "Condicional if:", "Condicional if-else:" and "Loop while:" events. */
    method ControlEvent(e: Event, cond: string)
      requires Valid()
      modifies this, out, out.lines
      ensures Valid() && labelCount == old(labelCount) + 1
      ensures out.Emitted == old(out.Emitted) + EventCode(syms.Vars(), e, cond, old(labelCount))
    {
      var lc := labelCount;
      var c := ConditionLines(cond, lc, e == WhileEvent);
      out.AddAll(EventFrame(e, lc, c));
      labelCount := lc + 1;
    }

    /** The scanf event for one variable. */
    method Scanf(name: string)
      requires Valid()
      modifies out, out.lines
      ensures Valid() && out.Emitted == old(out.Emitted) + ScanfCode(syms.Vars(), name)
    {
      var found := syms.Find(name);
      var lines;
      if found.None? {
        lines := [Comment(UndeclaredVariable(name))];
      } else {
        var v := syms.entries[found.value];
        lines := [Comment(ScanfCall), Addi("a0", "sp", v.offset)];
        if v.vtype == "INT" || v.vtype == "INT_KW" {
          lines := lines + [Li("a7", Int(5)), Ecall];
        } else if v.vtype == "FLOAT" || v.vtype == "FLOAT_KW" {
          lines := lines + [Li("a7", Int(6)), Ecall, Fsw("fa0", v.offset)];
        } else {
          lines := lines + [Comment(UnsupportedScanfType)];
        }
      }
      out.AddAll(lines);
    }

    /** generate_if_statement. */
    method IfStatement(cond: string) returns (fault: Option<Fault>)
      requires Valid()
      modifies this, out, out.lines, engine, engine.ops, engine.ops.items
      ensures Valid() && labelCount == old(labelCount) + 1
      ensures var r := IfStatementCode(Env3(), cond, old(labelCount));
              out.Emitted == old(out.Emitted) + r.code && fault == r.fault
    {
      var lc := labelCount;
      labelCount := labelCount + 1;
      ghost var b := out.Emitted;
      var head := [Comment(IfStart)];
      out.AddAll(head);
      fault := engine.Process(syms, out, cond);
      ghost var e := Evaluate(Env3(), cond);
      Extend(b, head, e.code);
      if fault.None? {
        var tail := [Lw("t0", TempResultOffset), Beqz("t0", LElse(lc)), Comment(IfBlock), Define(LElse(lc))];
        out.AddAll(tail);
        Extend(b, head + e.code, tail);
      }
    }

    /** generate_while_loop. */
    method WhileLoop(cond: string) returns (fault: Option<Fault>)
      requires Valid()
      modifies this, out, out.lines, engine, engine.ops, engine.ops.items
      ensures Valid() && labelCount == old(labelCount) + 1
      ensures var r := WhileLoopCode(Env3(), cond, old(labelCount));
              out.Emitted == old(out.Emitted) + r.code && fault == r.fault
    {
      var lc := labelCount;
      labelCount := labelCount + 1;
      ghost var b := out.Emitted;
      var head := [Comment(WhileStart), Define(LWhileStart(lc))];
      ghost var env := Env3();
      out.AddAll(head);
      fault := engine.Process(syms, out, cond);
      assert Env3() == env;
      ghost var e := Evaluate(env, cond);
      Extend(b, head, e.code);
      if fault.None? {
        var tail := [Lw("t0", TempResultOffset), Beqz("t0", LWhileEnd(lc)), Comment(WhileBody),
                     J(LWhileStart(lc)), Define(LWhileEnd(lc))];
        out.AddAll(tail);
        Extend(b, head + e.code, tail);
      }
    }

    /** generate_return. */
    method Return(expr: Option<string>) returns (fault: Option<Fault>)
      requires Valid()
      modifies out, out.lines, engine, engine.ops, engine.ops.items
      ensures Valid()
      ensures var r := ReturnCode(Env3(), expr);
              out.Emitted == old(out.Emitted) + r.code && fault == r.fault
    {
      if expr.None? {
        out.AddAll([J(MainEnd)]);
        return None;
      }
      fault := engine.Process(syms, out, expr.value);
      if fault.None? {
        out.AddAll([Lw("a0", TempResultOffset), J(MainEnd)]);
      }
    }
  }
}
