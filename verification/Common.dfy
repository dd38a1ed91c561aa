/** What several models share: optional and failing values, machine integers, and facts about sets and sequences. */
module Common {

  datatype Option<+T> = None | Some(value: T)

  datatype Result<+T, +E> = Ok(value: T) | Err(error: E)

  function Max(a: int, b: int): int {
    if a >= b then a else b
  }

  function Min(a: int, b: int): int {
    if a <= b then a else b
  }

  ghost function MinOf(s: set<nat>): (m: nat)
    requires s != {}
    ensures m in s
    ensures forall x :: x in s ==> m <= x
  {
    var x :| x in s;
    if s == {x} then x
    else
      var y := MinOf(s - {x});
      assert s == {x} + (s - {x});
      if x < y then x else y
  }

  // Machine integers

  const U64_MAX: nat := 0xFFFF_FFFF_FFFF_FFFF
  const U64_MODULUS: nat := 0x1_0000_0000_0000_0000
  const TWO31: int := 0x8000_0000
  const TWO32: int := 0x1_0000_0000

  function SatAdd(a: nat, b: nat, max: nat): nat {
    if a + b <= max then a + b else max
  }

  /** `as i32`. */
  function AsI32(n: int): (r: int)
    ensures -TWO31 <= r < TWO31
    ensures 0 <= n < TWO31 ==> r == n
    ensures n >= TWO31 ==> r != n
  {
    var m := n % TWO32;
    if m < TWO31 then m else m - TWO32
  }

  /** `as u32`. */
  function AsU32(n: int): (r: nat)
    ensures r < TWO32
    ensures 0 <= n < TWO32 ==> r == n
    ensures -TWO31 <= n < 0 ==> r >= TWO31
  {
    n % TWO32
  }

  /** `as usize` of an `i32` on a 64-bit host, which extends the sign. */
  function AsUsize(n: int): (r: nat)
    requires -TWO31 <= n < TWO31
    ensures n >= 0 ==> r == n
    ensures n < 0 ==> r >= TWO31 * TWO32
  {
    if n < 0 then n + TWO32 * TWO32 else n
  }

  // Sequences and sets

  /** No value occurs twice in the sequence. */
  ghost predicate Distinct<T>(q: seq<T>) {
    forall i, j :: 0 <= i < j < |q| ==> q[i] != q[j]
  }

  ghost function Elems<T>(q: seq<T>): set<T> {
    set x | x in q
  }

  lemma {:induction false} DistinctCardinality<T>(q: seq<T>)
    requires Distinct(q)
    ensures |Elems(q)| == |q|
  {
    if q != [] {
      DistinctCardinality(q[1..]);
      assert Elems(q) == {q[0]} + Elems(q[1..]);
    }
  }

  lemma SubsetCardinality<T>(a: set<T>, b: set<T>)
    requires a <= b
    ensures |a| <= |b|
    ensures |a| == |b| ==> a == b
  {
    assert |b| == |a| + |b - a| by {
      assert b == a + (b - a);
    }
  }
}
