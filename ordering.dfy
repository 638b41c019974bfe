/** `std::cmp::Ordering`, the lexicographic order Rust gives `&str`, and the
    `then_with` combinator the entity orderings are built from. */
module Ordering {

  datatype Ordering = Less | Equal | Greater {

    /** `Ordering::reverse`. */
    function Reverse(): Ordering
    {
      match this
      case Less => Greater
      case Equal => Equal
      case Greater => Less
    }

    /** `Ordering::then_with`: the closure's answer decides only a tie. */
    function ThenWith(next: Ordering): (r: Ordering)
      ensures this != Equal ==> r == this
      ensures this == Equal ==> r == next
    {
      if this == Equal then next else this
    }
  }

  /** `<str as Ord>::cmp`: lexicographic, a proper prefix is smaller. UTF-8
      byte order and code-point order agree, so comparing characters gives
      the same answer as Rust's byte comparison. */
  function CmpStr(a: string, b: string): (r: Ordering)
    ensures r == Equal <==> a == b
  {
    if a == [] then (if b == [] then Equal else Less)
    else if b == [] then Greater
    else if a[0] < b[0] then Less
    else if a[0] > b[0] then Greater
    else
      assert a == [a[0]] + a[1..] && b == [b[0]] + b[1..];
      CmpStr(a[1..], b[1..])
  }

  /** Comparing the other way round gives the reverse answer. */
  lemma {:induction false} CmpStrAntisymmetric(a: string, b: string)
    ensures CmpStr(b, a) == CmpStr(a, b).Reverse()
  {
    if a != [] && b != [] && a[0] == b[0] {
      CmpStrAntisymmetric(a[1..], b[1..]);
    }
  }

  /** The string order is transitive. */
  lemma {:induction false} CmpStrTransitive(a: string, b: string, c: string)
    requires CmpStr(a, b) == Less && CmpStr(b, c) == Less
    ensures CmpStr(a, c) == Less
  {
    if a != [] && a[0] == b[0] && b[0] == c[0] {
      CmpStrTransitive(a[1..], b[1..], c[1..]);
    }
  }

  /** `<u32 as Ord>::cmp`. */
  function CmpNat(a: nat, b: nat): (r: Ordering)
    ensures r == Equal <==> a == b
    ensures r == Less <==> a < b
  {
    if a < b then Less else if a > b then Greater else Equal
  }

  /** Order by source location: file first, then line. This is the order
      the entity `cmp` implementations evidently mean to give; as written
      they compare the file twice (see `EnumEntity.CmpIgnoresLine`). */
  function CmpLocation(fileA: string, lineA: nat, fileB: string, lineB: nat): (r: Ordering)
    ensures r == Equal <==> fileA == fileB && lineA == lineB
  {
    CmpStr(fileA, fileB).ThenWith(CmpNat(lineA, lineB))
  }

  /** The location order is antisymmetric and breaks a file tie by line. */
  lemma CmpLocationProperties(fileA: string, lineA: nat, fileB: string, lineB: nat)
    ensures CmpLocation(fileB, lineB, fileA, lineA) == CmpLocation(fileA, lineA, fileB, lineB).Reverse()
    ensures fileA == fileB ==> (CmpLocation(fileA, lineA, fileB, lineB) == Less <==> lineA < lineB)
  {
    CmpStrAntisymmetric(fileA, fileB);
  }
}
