/** Small shared vocabulary: optional values, minimum and maximum, ends of sequences. */
module Prelude {

  datatype Option<+T> = None | Some(value: T)

  function MinR(a: real, b: real): real {
    if a <= b then a else b
  }

  function MaxR(a: real, b: real): real {
    if a <= b then b else a
  }

  function Abs(x: real): real { if x < 0.0 then -x else x }

  function MinI(a: int, b: int): int { if a <= b then a else b }

  function MaxI(a: int, b: int): int { if a <= b then b else a }

  function Last<T>(s: seq<T>): T
    requires |s| > 0
  {
    s[|s| - 1]
  }

  function Front<T>(s: seq<T>): seq<T>
    requires |s| > 0
  {
    s[..|s| - 1]
  }

  lemma PrefixPush<T>(s: seq<T>, k: nat)
    requires k < |s|
    ensures s[..k] + [s[k]] == s[..k + 1]
  {
  }

  /** A deque of bounded length keeps its newest entries. */
  function Newest<T>(s: seq<T>, n: nat): (r: seq<T>)
    ensures |r| <= n && |r| <= |s|
  {
    if |s| <= n then s else s[|s| - n..]
  }

  // Sign and order facts about products, kept apart so that each use stays linear.

  lemma MulPos(a: real, b: real)
    requires 0.0 < a && 0.0 < b
    ensures 0.0 < a * b
  {
  }

  lemma MulNonNeg(a: real, b: real)
    requires 0.0 <= a && 0.0 <= b
    ensures 0.0 <= a * b
  {
  }

  lemma MulMono(a: real, b: real, c: real)
    requires a <= b && 0.0 <= c
    ensures a * c <= b * c
  {
    MulNonNeg(b - a, c);
    assert (b - a) * c == b * c - a * c;
  }

  lemma DivNonNeg(a: real, b: real)
    requires 0.0 <= a && 0.0 < b
    ensures 0.0 <= a / b
  {
  }
}
