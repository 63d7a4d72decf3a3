// Definitions shared by the models of the telephony applications.
module Prelude {
  datatype Option<+T> = None | Some(value: T)

  // One byte of a buffer, an unsigned char of the source.
  type Byte = x: int | 0 <= x < 256

  // tolower in the C locale, and the case folding behind strcasecmp.
  function LowerChar(c: char): char {
    if 'A' <= c <= 'Z' then c - 'A' + 'a' else c
  }

  function Lower(s: string): (r: string)
    ensures |r| == |s|
  {
    seq(|s|, i requires 0 <= i < |s| => LowerChar(s[i]))
  }

  // strcasecmp(a, b) == 0
  predicate SameName(a: string, b: string) {
    Lower(a) == Lower(b)
  }

  predicate SameLetter(x: char, y: char) {
    || x == y
    || ('a' <= x <= 'z' && 'A' <= y <= 'Z' && x - 'a' == y - 'A')
    || ('A' <= x <= 'Z' && 'a' <= y <= 'z' && x - 'A' == y - 'a')
  }

  // Names are the same exactly when they are letter by letter the same but for case.
  lemma SameNameIff(a: string, b: string)
    ensures SameName(a, b) <==> |a| == |b| && forall i :: 0 <= i < |a| ==> SameLetter(a[i], b[i])
  {
    if SameName(a, b) {
      assert |Lower(a)| == |Lower(b)|;
      forall i | 0 <= i < |a|
        ensures SameLetter(a[i], b[i])
      {
        assert Lower(a)[i] == Lower(b)[i];
      }
    }
  }

  // tris_copy_string: at most size - 1 characters are kept.
  function Truncated(s: string, size: nat): (r: string)
    requires size > 0
    ensures r <= s && |r| == if |s| < size then |s| else size - 1
  {
    if |s| < size then s else s[..size - 1]
  }

  // C division, which truncates toward zero.
  function CDiv(a: int, b: int): (q: int)
    requires b != 0
  {
    var q := Abs(a) / Abs(b);
    if (a < 0) == (b < 0) then q else -q
  }

  function Abs(x: int): nat { if x < 0 then -x else x }
}
