/** The character classes of <ctype.h> in the "C" locale, and the few <string.h> and <stdio.h>
    scans the three drafts rely on, as functions over strings. Characters outside ASCII belong
    to no class. */
module CText {
  import opened Basics

  predicate IsDigit(c: char) { '0' <= c <= '9' }

  predicate IsAlpha(c: char) { 'a' <= c <= 'z' || 'A' <= c <= 'Z' }

  predicate IsAlnum(c: char) { IsDigit(c) || IsAlpha(c) }

  /** isspace: blank, tab, newline, vertical tab, form feed, carriage return. */
  predicate IsSpace(c: char)
  {
    c == ' ' || c == '\t' || c == '\n' || c == '\U{000B}' || c == '\U{000C}' || c == '\r'
  }

  /** A character that continues an operand token of process_expression: isalnum or '_'. */
  predicate IsWordChar(c: char) { IsAlnum(c) || c == '_' }

  /** Where the digits of is_numeric_constant start: after one optional leading '-'. */
  function DigitsStart(s: string): nat
  {
    if |s| > 0 && s[0] == '-' then 1 else 0
  }

  /** is_numeric_constant: an optional '-' followed by any number (even none) of digits. */
  predicate NumericConstant(s: string)
  {
    forall k :: DigitsStart(s) <= k < |s| ==> IsDigit(s[k])
  }

  /** is_numeric_constant, the pointer walk of the C code. */
  method IsNumericConstant(s: string) returns (b: bool)
    ensures b == NumericConstant(s)
    ensures b ==> forall k :: 0 <= k < |s| ==> IsDigit(s[k]) || (k == 0 && s[k] == '-')
  {
    var i := 0;
    if |s| > 0 && s[0] == '-' {
      i := 1;
    }
    while i < |s|
      invariant DigitsStart(s) <= i <= |s|
      invariant forall k :: DigitsStart(s) <= k < i ==> IsDigit(s[k])
    {
      if !IsDigit(s[i]) {
        return false;
      }
      i := i + 1;
    }
    return true;
  }

  /** The empty string and a lone minus sign pass is_numeric_constant. */
  lemma NumericConstantAcceptsEmptyAndMinus()
    ensures NumericConstant("") && NumericConstant("-")
    ensures !NumericConstant("--") && !NumericConstant("1-")
  {
    assert !IsDigit("--"[1]);
    assert !IsDigit("1-"[1]);
  }

  /** `isdigit(s[0]) && strspn(s, "0123456789") == strlen(s)`: a non-empty run of digits. */
  predicate AllDigits(s: string)
  {
    |s| > 0 && forall k :: 0 <= k < |s| ==> IsDigit(s[k])
  }

  /** The index of the first character of `s` that occurs in `cs` (strpbrk / strcspn). */
  function FirstOf(s: string, cs: string): (r: Option<nat>)
    ensures r.Some? ==> r.value < |s| && s[r.value] in cs
    ensures r.Some? ==> forall k :: 0 <= k < r.value ==> s[k] !in cs
    ensures r.None? <==> forall k :: 0 <= k < |s| ==> s[k] !in cs
  {
    if s == [] then None
    else if s[0] in cs then Some(0)
    else match FirstOf(s[1..], cs)
      case Some(i) => Some(i + 1)
      case None => None
  }

  /** strstr(s, t) != NULL. */
  predicate HasSubstring(s: string, t: string)
    decreases |s|
  {
    (|t| <= |s| && s[..|t|] == t) || (s != [] && HasSubstring(s[1..], t))
  }

  /** The suffix of `s` that starts at its first non-space character. */
  function SkipSpace(s: string): (r: string)
    ensures |r| <= |s| && r == s[|s| - |r|..]
    ensures r != [] ==> !IsSpace(r[0])
  {
    if s != [] && IsSpace(s[0]) then SkipSpace(s[1..]) else s
  }

  /** How many leading non-space characters a `%<width>s` conversion takes. */
  function WordLength(s: string, width: nat): (n: nat)
    ensures n <= |s| && n <= width
    ensures forall k :: 0 <= k < n ==> !IsSpace(s[k])
    ensures n < |s| && n < width ==> IsSpace(s[n])
  {
    if s == [] || width == 0 || IsSpace(s[0]) then 0 else 1 + WordLength(s[1..], width - 1)
  }

  /** One `%<width>s` conversion of sscanf: skip white space, then take at most `width`
      non-space characters. None when only white space is left (the conversion fails). */
  function ScanField(s: string, width: nat): (r: Option<(string, string)>)
    requires width > 0
    ensures r.Some? ==> 0 < |r.value.0| <= width && |r.value.1| < |s|
    ensures r.Some? ==> forall k :: 0 <= k < |r.value.0| ==> !IsSpace(r.value.0[k])
    ensures r.None? <==> forall k :: 0 <= k < |s| ==> IsSpace(s[k])
  {
    var t := SkipSpace(s);
    if t == [] then
      assert forall k :: 0 <= k < |s| ==> IsSpace(s[k]) by { SkipSpaceOnlySkipsSpace(s); }
      None
    else
      SkipSpaceOnlySkipsSpace(s);
      var n := WordLength(t, width);
      Some((t[..n], t[n..]))
  }

  lemma {:induction false} SkipSpaceOnlySkipsSpace(s: string)
    ensures forall k :: 0 <= k < |s| - |SkipSpace(s)| ==> IsSpace(s[k])
    decreases |s|
  {
    if s != [] && IsSpace(s[0]) {
      SkipSpaceOnlySkipsSpace(s[1..]);
      assert forall k :: 1 <= k < |s| - |SkipSpace(s)| ==> s[k] == s[1..][k - 1];
    }
  }

  /** The number of leading characters of `s` that are not delimiters. */
  function RunLength(s: string, delims: string): (n: nat)
    ensures n <= |s|
    ensures forall k :: 0 <= k < n ==> s[k] !in delims
    ensures n < |s| ==> s[n] in delims
  {
    if s == [] || s[0] in delims then 0 else 1 + RunLength(s[1..], delims)
  }

  /** The characters of `s` that are not delimiters, in order. */
  function Undelimited(s: string, delims: string): (r: string)
    ensures |r| <= |s|
    decreases |s|
  {
    if s == [] then []
    else if s[0] in delims then Undelimited(s[1..], delims)
    else [s[0]] + Undelimited(s[1..], delims)
  }

  /** The strings of `ts`, one after another. */
  function Concat(ts: seq<string>): string
  {
    if ts == [] then [] else ts[0] + Concat(ts[1..])
  }

  /** The tokens strtok returns for `s` and a delimiter set: its maximal non-empty runs of
      non-delimiter characters, in order. Together they hold every non-delimiter character of
      `s`, in order, and nothing else. */
  function Tokens(s: string, delims: string): (r: seq<string>)
    ensures forall i :: 0 <= i < |r| ==> |r[i]| > 0
    ensures forall i, k :: 0 <= i < |r| && 0 <= k < |r[i]| ==> r[i][k] !in delims && r[i][k] in s
    ensures Concat(r) == Undelimited(s, delims)
    decreases |s|
  {
    if s == [] then []
    else if s[0] in delims then
      var r := Tokens(s[1..], delims);
      assert forall c :: c in s[1..] ==> c in s;
      r
    else
      var n := RunLength(s, delims);
      var r := Tokens(s[n..], delims);
      TokensCons(s, n, r, delims);
      [s[..n]] + r
  }

  /** The inductive step of Tokens' contract: a leading run followed by the tokens of the rest. */
  lemma TokensCons(s: string, n: nat, r: seq<string>, delims: string)
    requires 0 < n <= |s| && forall k :: 0 <= k < n ==> s[k] !in delims
    requires forall i :: 0 <= i < |r| ==> |r[i]| > 0
    requires forall i, k :: 0 <= i < |r| && 0 <= k < |r[i]| ==> r[i][k] !in delims && r[i][k] in s[n..]
    requires Concat(r) == Undelimited(s[n..], delims)
    ensures var t := [s[..n]] + r;
            (forall i :: 0 <= i < |t| ==> |t[i]| > 0) &&
            (forall i, k :: 0 <= i < |t| && 0 <= k < |t[i]| ==> t[i][k] !in delims && t[i][k] in s) &&
            Concat(t) == Undelimited(s, delims)
  {
    var t := [s[..n]] + r;
    forall i, k | 0 <= i < |t| && 0 <= k < |t[i]|
      ensures t[i][k] !in delims && t[i][k] in s
    {
      if i == 0 {
        assert t[i][k] == s[k];
      } else {
        assert t[i] == r[i - 1];
        var c := t[i][k];
        assert c in s[n..];
        var j :| 0 <= j < |s[n..]| && s[n..][j] == c;
        assert s[n + j] == c;
      }
    }
    UndelimitedOfConcat(s[..n], s[n..], delims);
    UndelimitedOfWord(s[..n], delims);
    assert s[..n] + s[n..] == s;
    assert t[1..] == r;
  }

  /** Removing delimiters distributes over concatenation. */
  lemma {:induction false} UndelimitedOfConcat(a: string, b: string, delims: string)
    ensures Undelimited(a + b, delims) == Undelimited(a, delims) + Undelimited(b, delims)
    decreases |a|
  {
    if a == [] {
      assert a + b == b;
    } else {
      UndelimitedOfConcat(a[1..], b, delims);
      assert (a + b)[1..] == a[1..] + b;
    }
  }

  /** Text free of delimiters is kept whole. */
  lemma {:induction false} UndelimitedOfWord(w: string, delims: string)
    requires forall k :: 0 <= k < |w| ==> w[k] !in delims
    ensures Undelimited(w, delims) == w
    decreases |w|
  {
    if w != [] {
      UndelimitedOfWord(w[1..], delims);
      assert [w[0]] + w[1..] == w;
    }
  }

  /** The delimiter-free run of `a` is the run of `a + b` too once it ends inside `a`, or when
      `b` starts with a delimiter. */
  lemma {:induction false} RunLengthOfPrefix(a: string, b: string, delims: string)
    requires RunLength(a, delims) < |a| || (b != [] && b[0] in delims)
    ensures RunLength(a + b, delims) == RunLength(a, delims)
    decreases |a|
  {
    if a != [] && a[0] !in delims {
      RunLengthOfPrefix(a[1..], b, delims);
      assert (a + b)[1..] == a[1..] + b;
    }
  }

  /** A non-empty delimiter-free text is one token. */
  lemma TokensOfWord(w: string, delims: string)
    requires w != [] && forall k :: 0 <= k < |w| ==> w[k] !in delims
    ensures Tokens(w, delims) == [w]
  {
    assert RunLength(w, delims) == |w|;
    assert w[..|w|] == w;
  }

  /** A delimiter splits the text: the tokens of `a`, the delimiter, `b` are those of `a`
      followed by those of `b`. With TokensOfWord and Tokens("") == [] this determines the
      tokens of every text: each token is a whole run between delimiters. */
  lemma {:induction false} TokensSplitAtDelimiter(a: string, d: char, b: string, delims: string)
    requires d in delims
    ensures Tokens(a + [d] + b, delims) == Tokens(a, delims) + Tokens(b, delims)
    decreases |a|
  {
    var s := a + [d] + b;
    if a == [] {
      assert s[0] == d && s[1..] == b;
      assert Tokens(s, delims) == Tokens(b, delims);
    } else if a[0] in delims {
      assert s[0] == a[0] && s[1..] == a[1..] + [d] + b;
      assert Tokens(s, delims) == Tokens(s[1..], delims);
      TokensSplitAtDelimiter(a[1..], d, b, delims);
    } else {
      var m := RunLength(a, delims);
      RunLengthOfPrefix(a, [d] + b, delims);
      assert s == a + ([d] + b);
      assert s[0] == a[0] && RunLength(s, delims) == m;
      assert s[..m] == a[..m];
      assert s[m..] == a[m..] + [d] + b;
      calc {
        Tokens(s, delims);
        [a[..m]] + Tokens(a[m..] + [d] + b, delims);
        { TokensSplitAtDelimiter(a[m..], d, b, delims); }
        [a[..m]] + (Tokens(a[m..], delims) + Tokens(b, delims));
        ([a[..m]] + Tokens(a[m..], delims)) + Tokens(b, delims);
        Tokens(a, delims) + Tokens(b, delims);
      }
    }
  }
}
