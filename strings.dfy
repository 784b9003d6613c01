/** String helpers for the program's output formatting: concatenation, the
    padding std::ostream applies, ::tolower, and jsoncpp's integer rendering.
    Strings stand for byte strings; a `char` stands for one byte. */
module Strings {

  /** Concatenation of a sequence of strings, left to right. */
  function Concat(ss: seq<string>): (r: string)
    ensures |ss| == 0 ==> r == ""
    ensures |ss| == 1 ==> r == ss[0]
  {
    if ss == [] then "" else Concat(ss[..|ss| - 1]) + ss[|ss| - 1]
  }

  lemma {:induction false} ConcatAppend(a: seq<string>, b: seq<string>)
    ensures Concat(a + b) == Concat(a) + Concat(b)
    decreases |b|
  {
    if b == [] {
      assert a + b == a;
    } else {
      assert (a + b)[..|a + b| - 1] == a + b[..|b| - 1];
      ConcatAppend(a, b[..|b| - 1]);
    }
  }

  /** `n` blanks. */
  function Spaces(n: nat): (r: string)
    ensures |r| == n
  {
    if n == 0 then "" else Spaces(n - 1) + " "
  }

  lemma {:induction false} SpacesAreBlanks(n: nat)
    ensures forall i :: 0 <= i < n ==> Spaces(n)[i] == ' '
  {
    if n > 0 {
      SpacesAreBlanks(n - 1);
    }
  }

  /** What `cout << left` with `cout.width(width)` makes of a formatted string:
      the string itself, followed by blanks up to `width` characters. */
  function PadRight(s: string, width: nat): (r: string)
    ensures |r| == if |s| >= width then |s| else width
  {
    if |s| >= width then s else s + Spaces(width - |s|)
  }

  lemma PadRightSpec(s: string, width: nat)
    ensures PadRight(s, width)[..|s|] == s
    ensures forall i :: |s| <= i < |PadRight(s, width)| ==> PadRight(s, width)[i] == ' '
  {
    if |s| < width {
      SpacesAreBlanks(width - |s|);
    }
  }

  /** ::tolower in the C locale. */
  function LowerChar(c: char): char
  {
    if 'A' <= c <= 'Z' then (c as int + 32) as char else c
  }

  /** std::transform(..., ::tolower) over a whole string. */
  function Lower(s: string): (r: string)
    ensures |r| == |s|
    ensures forall i :: 0 <= i < |s| ==> r[i] == LowerChar(s[i])
  {
    if s == [] then "" else [LowerChar(s[0])] + Lower(s[1..])
  }

  predicate IsLowerCase(s: string)
  {
    forall i :: 0 <= i < |s| ==> !('A' <= s[i] <= 'Z')
  }

  /** Lower-casing yields lower-case text, and leaves lower-case text alone. */
  lemma LowerIsLowerCase(s: string)
    ensures IsLowerCase(Lower(s))
    ensures IsLowerCase(s) ==> Lower(s) == s
  {
  }

  function DigitChar(d: nat): char
    requires d < 10
  {
    ('0' as int + d) as char
  }

  function NatToString(n: nat): (r: string)
    ensures |r| > 0
    ensures forall i :: 0 <= i < |r| ==> '0' <= r[i] <= '9'
    decreases n
  {
    if n < 10 then [DigitChar(n)] else NatToString(n / 10) + [DigitChar(n % 10)]
  }

  /** jsoncpp's decimal rendering of an integer value (asString of an int). */
  function IntToString(i: int): (r: string)
    ensures |r| > 0
    ensures (r[0] == '-') <==> i < 0
  {
    if i < 0 then "-" + NatToString(-i) else NatToString(i)
  }
}
