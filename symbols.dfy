/** The symbol table the three drafts share: `variables[MAX_VARIABLES]`, `var_count` and the
    running frame size `current_offset`, with find_variable and the append logic of
    add_variable. Each draft supplies its own size table (module Drafts). */
module Symbols {
  import opened Basics

  /** MAX_VARIABLES. */
  const MaxVariables := 50
  /** `char name[50]` and `char type[20]` of the Variable record. */
  const NameCapacity := 50
  const TypeCapacity := 20

  /** One declared variable. riscv_gen.c and riscv_gen2_otimizado.c have no const/static
      flags; their declarations always carry false for both. */
  datatype Variable = Variable(name: string, vtype: string, offset: int, size: int,
                               isConst: bool, isStatic: bool)

  /** The first index at or after `from` whose entry is called `name`. */
  function IndexFrom(vs: seq<Variable>, name: string, from: nat): (r: Option<nat>)
    requires from <= |vs|
    ensures r.Some? ==> from <= r.value < |vs| && vs[r.value].name == name
    ensures r.Some? ==> forall j :: from <= j < r.value ==> vs[j].name != name
    ensures r.None? <==> forall j :: from <= j < |vs| ==> vs[j].name != name
    decreases |vs| - from
  {
    if from == |vs| then None
    else if vs[from].name == name then Some(from)
    else IndexFrom(vs, name, from + 1)
  }

  /** find_variable: the index of the first entry with this exact name, if any. */
  function IndexOf(vs: seq<Variable>, name: string): (r: Option<nat>)
    ensures r.Some? ==> r.value < |vs| && vs[r.value].name == name
    ensures r.Some? ==> forall j :: 0 <= j < r.value ==> vs[j].name != name
    ensures r.None? <==> forall j :: 0 <= j < |vs| ==> vs[j].name != name
  {
    IndexFrom(vs, name, 0)
  }

  /** find_variable, giving the record rather than its address. */
  function Lookup(vs: seq<Variable>, name: string): (r: Option<Variable>)
    ensures r.Some? ==> r.value in vs && r.value.name == name
    ensures r.None? <==> forall j :: 0 <= j < |vs| ==> vs[j].name != name
  {
    match IndexOf(vs, name)
    case Some(i) => Some(vs[i])
    case None => None
  }

  /** The bytes taken by the entries, in declaration order. */
  function SumSizes(vs: seq<Variable>): int
  {
    if vs == [] then 0 else SumSizes(vs[..|vs| - 1]) + vs[|vs| - 1].size
  }

  /** Where the frame ends after these entries: the end of the last one, or 0. */
  function FrameEnd(vs: seq<Variable>): int
  {
    if vs == [] then 0 else vs[|vs| - 1].offset + vs[|vs| - 1].size
  }

  /** The layout add_variable builds: the first entry sits at 0, each later one where the one
      before it ends, every size is positive, names are unique, and `current_offset` is where
      the last entry ends. */
  ghost predicate WellFormed(vs: seq<Variable>, currentOffset: int)
  {
    (forall i :: 0 <= i < |vs| ==> vs[i].size >= 1) &&
    (|vs| > 0 ==> vs[0].offset == 0) &&
    (forall i :: 0 < i < |vs| ==> vs[i].offset == vs[i - 1].offset + vs[i - 1].size) &&
    (forall i, j :: 0 <= i < j < |vs| ==> vs[i].name != vs[j].name) &&
    currentOffset == FrameEnd(vs)
  }

  /** add_variable on the table's value: a name already present or a full table leaves it
      alone; otherwise one entry is appended at the old frame end and the frame grows by its
      size. */
  function Declare(vs: seq<Variable>, currentOffset: int, name: string, vtype: string,
                   size: int, isConst: bool, isStatic: bool): (r: (seq<Variable>, int))
  {
    if IndexOf(vs, name).Some? || |vs| >= MaxVariables then (vs, currentOffset)
    else (vs + [Variable(name, vtype, currentOffset, size, isConst, isStatic)], currentOffset + size)
  }

  /** Declaring keeps the layout well formed (sizes come from a table whose entries are >= 1). */
  lemma DeclarePreservesLayout(vs: seq<Variable>, currentOffset: int, name: string, vtype: string,
                               size: int, isConst: bool, isStatic: bool)
    requires WellFormed(vs, currentOffset) && size >= 1
    ensures var r := Declare(vs, currentOffset, name, vtype, size, isConst, isStatic);
            WellFormed(r.0, r.1)
  {
  }

  /** Declaring the same name twice has the effect of declaring it once. */
  lemma {:induction false} RedeclarationIsNoOp(vs: seq<Variable>, currentOffset: int, name: string,
                                               t1: string, s1: int, c1: bool, st1: bool,
                                               t2: string, s2: int, c2: bool, st2: bool)
    ensures var once := Declare(vs, currentOffset, name, t1, s1, c1, st1);
            Declare(once.0, once.1, name, t2, s2, c2, st2) == once
  {
    var once := Declare(vs, currentOffset, name, t1, s1, c1, st1);
    if once.0 != vs {
      var v := Variable(name, t1, currentOffset, s1, c1, st1);
      assert once.0[|vs|] == v;
      assert IndexOf(once.0, name).Some?;
    }
  }

  /** Each offset is the sum of the sizes of the variables declared before it, and the frame
      size is the sum of all sizes: no gaps and no reuse. */
  lemma {:induction false} OffsetsAreSumsOfEarlierSizes(vs: seq<Variable>, currentOffset: int)
    requires WellFormed(vs, currentOffset)
    ensures forall i :: 0 <= i < |vs| ==> vs[i].offset == SumSizes(vs[..i])
    ensures currentOffset == SumSizes(vs)
    decreases |vs|
  {
    if vs != [] {
      var front := vs[..|vs| - 1];
      assert WellFormed(front, FrameEnd(front));
      OffsetsAreSumsOfEarlierSizes(front, FrameEnd(front));
      forall i | 0 <= i < |vs|
        ensures vs[i].offset == SumSizes(vs[..i])
      {
        if i < |vs| - 1 {
          assert vs[..i] == front[..i];
        } else {
          assert vs[..i] == front;
        }
      }
    }
  }

  /** Offsets strictly increase in declaration order, no two variables share a byte, and every
      variable lies inside the frame [0, current_offset). */
  lemma {:induction false} LayoutOrdersSlots(vs: seq<Variable>, currentOffset: int)
    requires WellFormed(vs, currentOffset)
    ensures forall i, j :: 0 <= i < j < |vs| ==> vs[i].offset + vs[i].size <= vs[j].offset
    ensures forall i :: 0 <= i < |vs| ==> 0 <= vs[i].offset && vs[i].offset + vs[i].size <= currentOffset
    decreases |vs|
  {
    if vs != [] {
      var front := vs[..|vs| - 1];
      assert WellFormed(front, FrameEnd(front));
      LayoutOrdersSlots(front, FrameEnd(front));
      assert forall i :: 0 <= i < |front| ==> front[i] == vs[i];
    }
  }

  /** Each byte of the frame [0, current_offset) belongs to exactly one declared variable. */
  lemma {:induction false} FrameBytesBelongToVariables(vs: seq<Variable>, currentOffset: int, b: int)
    requires WellFormed(vs, currentOffset) && 0 <= b < currentOffset
    ensures exists i :: 0 <= i < |vs| && vs[i].offset <= b < vs[i].offset + vs[i].size
    ensures forall i, j :: 0 <= i < j < |vs| && vs[i].offset <= b < vs[i].offset + vs[i].size ==>
              !(vs[j].offset <= b < vs[j].offset + vs[j].size)
    decreases |vs|
  {
    LayoutOrdersSlots(vs, currentOffset);
    var n := |vs|;
    if b < vs[n - 1].offset {
      var front := vs[..n - 1];
      assert WellFormed(front, FrameEnd(front));
      FrameBytesBelongToVariables(front, FrameEnd(front), b);
      var i :| 0 <= i < |front| && front[i].offset <= b < front[i].offset + front[i].size;
      assert vs[i] == front[i];
    }
  }

  /** Where temporary number k lives: `current_offset + temp_num * 4`, above the variables. */
  function TempSlot(frame: int, k: int): int
  {
    frame + 4 * k
  }

  /** A temporary's slot never overlaps a variable: every variable ends at or below it. */
  lemma TempSlotsClearOfVariables(vs: seq<Variable>, currentOffset: int, k: int)
    requires WellFormed(vs, currentOffset) && k >= 0
    ensures forall i :: 0 <= i < |vs| ==> vs[i].offset + vs[i].size <= TempSlot(currentOffset, k)
  {
    LayoutOrdersSlots(vs, currentOffset);
  }

  /** The table of one compilation. */
  class SymbolTable {
    const entries: array<Variable>
    var count: nat
    var currentOffset: int

    ghost predicate Valid()
      reads this, entries
    {
      entries.Length == MaxVariables && count <= MaxVariables &&
      WellFormed(entries[..count], currentOffset)
    }

    /** The declared variables in declaration order. */
    function Vars(): seq<Variable>
      reads this, entries
      requires Valid()
    {
      entries[..count]
    }

    constructor ()
      ensures Valid() && fresh(entries) && Vars() == [] && currentOffset == 0
    {
      entries := new Variable[MaxVariables](_ => Variable("", "", 0, 0, false, false));
      count := 0;
      currentOffset := 0;
    }

    /** find_variable: a linear scan for the first entry with this name. */
    method Find(name: string) returns (r: Option<nat>)
      requires Valid()
      ensures r == IndexOf(Vars(), name)
      ensures r.Some? ==> r.value < count && entries[r.value].name == name
    {
      var i := 0;
      while i < count
        invariant 0 <= i <= count
        invariant forall j :: 0 <= j < i ==> entries[j].name != name
      {
        if entries[i].name == name {
          return Some(i);
        }
        i := i + 1;
      }
      return None;
    }

    /** The body of add_variable once the size is known. */
    method Add(name: string, vtype: string, size: int, isConst: bool, isStatic: bool)
      requires Valid() && size >= 1
      requires |name| < NameCapacity && |vtype| < TypeCapacity
      modifies this, entries
      ensures Valid()
      ensures (Vars(), currentOffset) == Declare(old(Vars()), old(currentOffset), name, vtype, size, isConst, isStatic)
    {
      var found := Find(name);
      if found.None? && count < MaxVariables {
        Append(Variable(name, vtype, currentOffset, size, isConst, isStatic));
      }
    }

    /** The append step of add_variable: the entry goes into the next free slot, at the
        current frame end, and the frame grows by its size. */
    method Append(v: Variable)
      requires Valid() && count < MaxVariables && IndexOf(Vars(), v.name).None?
      requires v.offset == currentOffset && v.size >= 1
      modifies this, entries
      ensures Valid() && Vars() == old(Vars()) + [v] && currentOffset == old(currentOffset) + v.size
    {
      ghost var before := Vars();
      DeclarePreservesLayout(before, currentOffset, v.name, v.vtype, v.size, v.isConst, v.isStatic);
      entries[count] := v;
      assert entries[..count + 1] == before + [v];
      currentOffset := currentOffset + v.size;
      count := count + 1;
    }
  }
}
