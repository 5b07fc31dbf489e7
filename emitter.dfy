/** The instruction buffer `output_code[1000]` with `code_line_count`, add_code_line, and the
    width arithmetic of write_output_with_line_numbers. All three drafts share this code. */
module Emitter {
  import opened Basics
  import opened Asm

  /** The capacity of output_code. */
  const MaxLines := 1000

  /** One slot of output_code: its 1-based line number and the line. */
  datatype CodeLine = CodeLine(lineNumber: int, instr: Instr)

  /** add_code_line on the buffer's contents: the line is kept only while the buffer has room. */
  function AddLine(b: seq<Instr>, x: Instr): (r: seq<Instr>)
  {
    if |b| < MaxLines then b + [x] else b
  }

  /** A run of add_code_line calls, one per line of `s`, in order. */
  function AddLines(b: seq<Instr>, s: seq<Instr>): seq<Instr>
    decreases |s|
  {
    if s == [] then b else AddLines(AddLine(b, s[0]), s[1..])
  }

  /** What the buffer holds of the lines it was asked to add: the first MaxLines of them. */
  function Kept(emitted: seq<Instr>): (r: seq<Instr>)
    ensures |r| == Min(MaxLines, |emitted|) && r == emitted[..|r|]
  {
    emitted[..Min(MaxLines, |emitted|)]
  }

  /** Keeping the first MaxLines of a stream is what add_code_line does line by line: asking
      for the lines of `s` after those of `e` leaves the buffer as the run of add_code_line
      calls over `s` leaves it, so no kept line is ever reordered or changed and the lines past
      the cap are dropped. */
  lemma {:induction false} KeptIsRepeatedAddLine(e: seq<Instr>, s: seq<Instr>)
    ensures Kept(e + s) == AddLines(Kept(e), s)
    decreases |s|
  {
    if s != [] {
      var e' := e + [s[0]];
      KeptIsRepeatedAddLine(e', s[1..]);
      assert e' + s[1..] == e + s;
      if |e| < MaxLines {
        assert Kept(e') == Kept(e) + [s[0]];
      } else {
        assert Kept(e') == Kept(e);
      }
    }
  }

  /** Proof step, no counterpart in the C code: regrouping an append, so that a session
      method's ghost log can be read as the old log followed by each emitter's lines in turn. */
  lemma Extend(b: seq<Instr>, w: seq<Instr>, x: seq<Instr>)
    ensures (b + w) + x == b + (w + x)
  {
  }

  /** output_code[0 .. code_line_count - 1] of one compilation. */
  class CodeBuffer {
    const lines: array<CodeLine>
    var count: nat
    /** Every line add_code_line was called with, in order, kept or not. */
    ghost var Emitted: seq<Instr>

    ghost predicate Valid()
      reads this, lines
    {
      lines.Length == MaxLines && count == Min(MaxLines, |Emitted|) &&
      forall i :: 0 <= i < count ==> lines[i] == CodeLine(i + 1, Emitted[i])
    }

    /** The lines output_code holds: entry i carries line number i + 1. */
    ghost function Contents(): (r: seq<Instr>)
      reads this, lines
      requires Valid()
      ensures r == Kept(Emitted) && |r| == count
      ensures forall i :: 0 <= i < count ==> lines[i] == CodeLine(i + 1, r[i])
    {
      Kept(Emitted)
    }

    constructor ()
      ensures Valid() && fresh(lines) && Emitted == []
    {
      lines := new CodeLine[MaxLines](_ => CodeLine(0, Blank));
      count := 0;
      Emitted := [];
    }

    /** add_code_line: store the line with the next line number while there is room,
        otherwise drop it. */
    method Add(x: Instr)
      requires Valid()
      modifies this, lines
      ensures Valid() && Emitted == old(Emitted) + [x]
      ensures Contents() == AddLine(old(Contents()), x)
    {
      if count < MaxLines {
        lines[count] := CodeLine(count + 1, x);
        count := count + 1;
      }
      Emitted := Emitted + [x];
    }

    /** Consecutive add_code_line calls, one per line of `s`, in order. */
    method AddAll(s: seq<Instr>)
      requires Valid()
      modifies this, lines
      ensures Valid() && Emitted == old(Emitted) + s
      ensures Contents() == AddLines(old(Contents()), s)
    {
      var i := 0;
      while i < |s|
        invariant 0 <= i <= |s| && Valid() && Emitted == old(Emitted) + s[..i]
      {
        Add(s[i]);
        assert s[..i + 1] == s[..i] + [s[i]];
        i := i + 1;
      }
      assert s[..i] == s;
      KeptIsRepeatedAddLine(old(Emitted), s);
    }

    /** The field width write_output_with_line_numbers gives the line numbers. */
    method ListingWidth() returns (width: nat)
      requires Valid()
      ensures width == DigitCount(count) && 1 <= width <= 4
    {
      width := NumDigits(count);
      DigitCountOfAtMostThousand(count);
    }
  }

  /** The number of decimal digits of n (1 for 0). */
  function DigitCount(n: nat): nat
  {
    if n < 10 then 1 else 1 + DigitCount(n / 10)
  }

  function Pow10(k: nat): nat
  {
    if k == 0 then 1 else 10 * Pow10(k - 1)
  }

  /** The width loop: divide by ten while the value has two or more digits. */
  method NumDigits(count: nat) returns (numDigits: nat)
    ensures numDigits == DigitCount(count)
  {
    var maxLineNum := count;
    numDigits := 1;
    while maxLineNum >= 10
      invariant numDigits >= 1
      invariant numDigits - 1 + DigitCount(maxLineNum) == DigitCount(count)
      decreases maxLineNum
    {
      maxLineNum := maxLineNum / 10;
      numDigits := numDigits + 1;
    }
  }

  /** DigitCount(n) really is the number of decimal digits: 10^(w-1) <= n < 10^w for n >= 1,
      and it is 1 below ten. */
  lemma {:induction false} DigitCountIsDecimalLength(n: nat)
    ensures n < 10 ==> DigitCount(n) == 1
    ensures DigitCount(n) >= 1 && n < Pow10(DigitCount(n))
    ensures n >= 1 ==> Pow10(DigitCount(n) - 1) <= n
    decreases n
  {
    if n >= 10 {
      DigitCountIsDecimalLength(n / 10);
    }
  }

  lemma DigitCountOfAtMostThousand(n: nat)
    requires n <= MaxLines
    ensures 1 <= DigitCount(n) <= 4
  {
    if n >= 10 {
      var a := n / 10;
      assert a <= 100;
      if a >= 10 {
        var b := a / 10;
        assert b <= 10;
        assert DigitCount(b) <= 2 by {
          if b >= 10 { assert b / 10 == 1; }
        }
      }
    }
  }
}
