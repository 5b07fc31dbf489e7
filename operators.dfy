/** The operator stack `op_stack[100]` / `op_stack_top` with push_op, pop_op, peek_op and
    is_op_stack_empty. The three drafts declare it identically. */
module Operators {
  import opened Basics

  /** The capacity of op_stack. */
  const MaxOps := 100

  /** One stacked operator: its character and the precedence it was pushed with. */
  datatype Operator = Operator(op: char, precedence: int)

  class OpStack {
    const items: array<Operator>
    /** op_stack_top: the index of the top entry, -1 when the stack is empty. */
    var top: int

    ghost predicate Valid()
      reads this
    {
      items.Length == MaxOps && -1 <= top < MaxOps
    }

    /** The stacked operators, bottom first. */
    function Contents(): (s: seq<Operator>)
      reads this, items
      requires Valid()
      ensures |s| == top + 1
    {
      items[..top + 1]
    }

    constructor ()
      ensures Valid() && fresh(items) && Contents() == []
    {
      items := new Operator[MaxOps](_ => Operator('(', 0));
      top := -1;
    }

    /** is_op_stack_empty. */
    function IsEmpty(): (b: bool)
      reads this, items
      requires Valid()
      ensures b <==> Contents() == []
    {
      top == -1
    }

    /** peek_op: the most recently pushed operator, still on the stack. */
    function Peek(): (o: Operator)
      reads this, items
      requires Valid() && Contents() != []
      ensures o == Last(Contents()) && o in Contents()
    {
      items[top]
    }

    /** push_op. The C code writes past the array when 100 entries are stacked; callers of
        this model check for room first. */
    method Push(o: Operator)
      requires Valid() && |Contents()| < MaxOps
      modifies this, items
      ensures Valid() && Contents() == old(Contents()) + [o]
    {
      top := top + 1;
      items[top] := o;
    }

    /** pop_op: remove and return the top entry. */
    method Pop() returns (o: Operator)
      requires Valid() && Contents() != []
      modifies this
      ensures Valid()
      ensures o == Last(old(Contents())) && Contents() == DropLast(old(Contents()))
      ensures old(Contents()) == Contents() + [o]
    {
      o := items[top];
      top := top - 1;
    }

    /** `op_stack_top = -1`, done at the start of every process_expression. */
    method Clear()
      requires Valid()
      modifies this
      ensures Valid() && Contents() == []
    {
      top := -1;
    }
  }
}
