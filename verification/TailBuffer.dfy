/** The bounded tail buffer of internal/vllm/runtime.go, refined to "the last max bytes". */
module TailBuffer {
  type Bytes = seq<bv8>

  /** The last n bytes of s, or all of s when it is shorter. */
  function Last(n: nat, s: Bytes): (r: Bytes)
  {
    if |s| > n then s[|s| - n..] else s
  }

  function Flatten(writes: seq<Bytes>): Bytes
  {
    if writes == [] then [] else Flatten(writes[..|writes| - 1]) + writes[|writes| - 1]
  }

  /** Forgetting early and forgetting late agree. */
  lemma LastAbsorbs(n: nat, a: Bytes, b: Bytes)
    ensures Last(n, Last(n, a) + b) == Last(n, a + b)
  {
    if |a| > n {
      assert a + b == a[..|a| - n] + (Last(n, a) + b);
    }
  }

  class Tail {
    const max: nat
    var buf: Bytes
    ghost var writes: seq<Bytes>

    ghost predicate Valid()
      reads this
    {
      buf == Last(max, Flatten(writes))
    }

    constructor (max: nat)
      ensures Valid() && this.max == max && writes == []
    {
      this.max := max;
      buf, writes := [], [];
    }

    method Write(p: Bytes) returns (n: nat)
      requires Valid()
      modifies this
      ensures Valid() && writes == old(writes) + [p] && n == |p|
    {
      LastAbsorbs(max, Flatten(writes), p);
      buf := buf + p;
      if |buf| > max {
        buf := buf[|buf| - max..];
      }
      writes := writes + [p];
      assert writes[..|writes| - 1] == old(writes);
      n := |p|;
    }

    method String() returns (s: Bytes)
      requires Valid()
      ensures s == Last(max, Flatten(writes))
    {
      s := buf;
    }
  }
}
