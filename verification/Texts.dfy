/** ASCII text normalisation: strip, upper and lower, with the laws the modules lean on. */
module Texts {

  predicate IsSpace(c: char) { c == ' ' || c == '\t' || c == '\n' || c == '\r' }

  function StripLeft(s: string): string {
    if s != "" && IsSpace(s[0]) then StripLeft(s[1..]) else s
  }

  function StripRight(s: string): string {
    if s != "" && IsSpace(s[|s| - 1]) then StripRight(s[..|s| - 1]) else s
  }

  function Strip(s: string): string {
    StripRight(StripLeft(s))
  }

  /** What is stripped off is the longest run of spaces at each end, and nothing else is touched. */
  lemma StripIsTheMiddle(s: string) returns (i: nat, j: nat)
    ensures i <= j <= |s| && Strip(s) == s[i..j]
    ensures forall k | 0 <= k < i || j <= k < |s| :: IsSpace(s[k])
    ensures i == j || (!IsSpace(s[i]) && !IsSpace(s[j - 1]))
  {
    i := 0;
    assert s[0..] == s;
    while i < |s| && IsSpace(s[i])
      invariant 0 <= i <= |s| && StripLeft(s) == StripLeft(s[i..])
      invariant forall k | 0 <= k < i :: IsSpace(s[k])
    {
      assert s[i..][1..] == s[i + 1..];
      i := i + 1;
    }
    assert StripLeft(s) == s[i..];
    j := |s|;
    assert s[i..j] == s[i..];
    while i < j && IsSpace(s[j - 1])
      invariant i <= j <= |s| && StripRight(s[i..]) == StripRight(s[i..j])
      invariant forall k | j <= k < |s| :: IsSpace(s[k])
    {
      assert s[i..j][..j - i - 1] == s[i..j - 1];
      j := j - 1;
    }
    assert StripRight(s[i..j]) == s[i..j];
  }

  lemma StripIsEmptyIff(s: string)
    ensures Strip(s) != "" <==> exists k :: 0 <= k < |s| && !IsSpace(s[k])
  {
    var i, j := StripIsTheMiddle(s);
    if Strip(s) != "" { assert !IsSpace(s[i]); }
  }

  function UpperChar(c: char): char {
    if 'a' <= c <= 'z' then c - 'a' + 'A' else c
  }

  function LowerChar(c: char): char {
    if 'A' <= c <= 'Z' then c - 'A' + 'a' else c
  }

  function Upper(s: string): (r: string)
    ensures |r| == |s| && forall i | 0 <= i < |s| :: r[i] == UpperChar(s[i])
  {
    seq(|s|, i requires 0 <= i < |s| => UpperChar(s[i]))
  }

  function Lower(s: string): (r: string)
    ensures |r| == |s| && forall i | 0 <= i < |s| :: r[i] == LowerChar(s[i])
  {
    seq(|s|, i requires 0 <= i < |s| => LowerChar(s[i]))
  }

  /** No space at either end: exactly the texts `Strip` leaves alone. */
  predicate Stripped(s: string) {
    s == "" || (!IsSpace(s[0]) && !IsSpace(s[|s| - 1]))
  }

  lemma {:induction false} StripRightStripped(s: string)
    requires s == "" || !IsSpace(s[0])
    ensures Stripped(StripRight(s))
  {
    if s != "" && IsSpace(s[|s| - 1]) {
      StripRightStripped(s[..|s| - 1]);
    }
  }

  lemma {:induction false} StripLeftHead(s: string)
    ensures StripLeft(s) == "" || !IsSpace(StripLeft(s)[0])
  {
    if s != "" && IsSpace(s[0]) { StripLeftHead(s[1..]); }
  }

  lemma StripIdempotent(s: string)
    ensures Stripped(Strip(s)) && Strip(Strip(s)) == Strip(s)
  {
    StripLeftHead(s);
    StripRightStripped(StripLeft(s));
  }

  lemma StrippedIsFixed(s: string)
    requires Stripped(s)
    ensures Strip(s) == s
  {
  }

  lemma UpperKeepsStripped(s: string)
    ensures Stripped(s) ==> Stripped(Upper(s)) && Strip(Upper(s)) == Upper(s)
    ensures Upper(Upper(s)) == Upper(s)
  {
    assert Upper(Upper(s)) == Upper(s);
  }

  lemma LowerKeepsStripped(s: string)
    ensures Stripped(s) ==> Stripped(Lower(s)) && Strip(Lower(s)) == Lower(s)
    ensures Lower(Lower(s)) == Lower(s)
  {
    assert Lower(Lower(s)) == Lower(s);
  }
}
