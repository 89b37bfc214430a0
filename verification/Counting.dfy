/** Counting with finite sets. */
module Counting {

  function Bit(b: bool): nat {
    if b then 1 else 0
  }

  lemma Without<T>(s: set<T>, x: T)
    ensures |s| == |s - {x}| + Bit(x in s)
  {
    if x in s { assert s == s - {x} + {x}; } else { assert s == s - {x}; }
  }
}
