/** The positional register window of riscv_gen2_otimizado.c: get_reg_name,
    is_in_register, get_register_index and the code of store_if_needed and load_if_needed.
    `tmpOffset` is the global the C code moves down by one for every new temporary. */
module Window {
  import opened Asm
  import opened Symbols

  /** MAX_REGISTERS: t0 .. t4. */
  const MaxRegisters := 5

  /** get_reg_name: t0 .. t4 for the indices 0 .. 4, and t0 for every other index. */
  function RegName(i: int): (r: Reg)
    ensures r in {"t0", "t1", "t2", "t3", "t4"}
    ensures r == "t0" <==> !(1 <= i < MaxRegisters)
    ensures 0 <= i < MaxRegisters ==> r == ['t', "01234"[i]]
  {
    if 0 <= i < MaxRegisters then ["t0", "t1", "t2", "t3", "t4"][i] else "t0"
  }

  /** Within the window, distinct indices name distinct registers. */
  lemma RegNamesAreDistinct(i: int, j: int)
    requires 0 <= i < MaxRegisters && 0 <= j < MaxRegisters && i != j
    ensures RegName(i) != RegName(j)
  {
    assert RegName(i)[1] == "01234"[i];
  }

  /** is_in_register: temporaries whose `tmpOffset + temp` is -4 or more count as held in a
      register. */
  predicate IsInRegister(tmpOffset: int, t: int)
  {
    tmpOffset + t >= -4
  }

  /** get_register_index: `-x - 1`, meant for a tmpOffset but called with a temporary number. */
  function RegisterIndex(x: int): int
  {
    -x - 1
  }

  /** While tmpOffset is minus the number of temporaries made so far, a temporary is
      register-classified exactly when it is one of the five most recent ones, and the
      temporary about to be made is always register-classified. */
  lemma WindowHoldsFiveMostRecent(tempCount: int, t: int)
    ensures IsInRegister(-tempCount, t) <==> tempCount - t <= 4
    ensures IsInRegister(-tempCount, tempCount)
  {
  }

  /** Called with a temporary number (never negative), get_register_index is negative, so every
      temporary is named t0. */
  lemma TemporariesAreAllNamedT0(t: int)
    requires t >= 0
    ensures RegisterIndex(t) < 0 && RegName(RegisterIndex(t)) == "t0"
  {
  }

  /** store_if_needed: one store to the temporary's slot, only when it is not register-classified. */
  function StoreIfNeededCode(tmpOffset: int, frame: int, t: int, reg: Reg): (r: seq<Instr>)
    ensures |r| == (if IsInRegister(tmpOffset, t) then 0 else 1)
    ensures forall x :: x in r ==> x == Sw(reg, TempSlot(frame, t))
  {
    if IsInRegister(tmpOffset, t) then [] else [Sw(reg, TempSlot(frame, t))]
  }

  /** load_if_needed: a register-classified temporary is copied with mv unless it already sits in
      the requested register; any other one is loaded from its slot. */
  function LoadIfNeededCode(tmpOffset: int, frame: int, t: int, reg: Reg): (r: seq<Instr>)
    ensures |r| <= 1
    ensures r == [] <==> IsInRegister(tmpOffset, t) && reg == RegName(RegisterIndex(t))
    ensures forall x :: x in r ==> x.Mv? || x == Lw(reg, TempSlot(frame, t))
    ensures forall x :: x in r ==> !IsStore(x)
  {
    if IsInRegister(tmpOffset, t) then
      var held := RegName(RegisterIndex(t));
      if reg != held then [Mv(reg, held)] else []
    else [Lw(reg, TempSlot(frame, t))]
  }

  /** With temporaries all named t0, load_if_needed into t0 of a register-classified temporary
      emits nothing, and into t1 emits `mv t1, t0`. */
  lemma LoadIfNeededInWindow(tmpOffset: int, frame: int, t: int)
    requires t >= 0 && IsInRegister(tmpOffset, t)
    ensures LoadIfNeededCode(tmpOffset, frame, t, "t0") == []
    ensures LoadIfNeededCode(tmpOffset, frame, t, "t1") == [Mv("t1", "t0")]
  {
  }
}
