/** Shared value types: optional values, error-carrying results, the 32-bit
    unsigned cast the renderer applies to sizes, and opaque driver handles. */
module Types {

  /** A value that may be absent (`std::optional`, a null pointer, a handle
      that has not been created yet). */
  datatype Option<+T> = None | Some(value: T)

  /** The outcome of an operation that may throw `std::runtime_error`;
      `Err` carries the exception's message. */
  datatype Result<+T> = Ok(value: T) | Err(msg: string)

  const TWO_POW_32: int := 0x1_0000_0000

  type U32 = x: int | 0 <= x < TWO_POW_32

  /** `static_cast<uint32_t>(x)`: keeps the residue of `x` modulo 2^32. */
  function ToU32(x: int): (r: U32)
    ensures 0 <= x < TWO_POW_32 ==> r == x
    ensures (x - r) % TWO_POW_32 == 0
  {
    x % TWO_POW_32
  }

  /** An opaque driver object (buffer, device memory, descriptor set,
      layout, pool, texture). Only identity matters. */
  type Handle = nat

  /** Stands in for the driver's create calls: every handle it issues is new. */
  datatype HandleSource = HandleSource(next: nat)

  /** Issues one fresh handle. */
  function Issue(src: HandleSource): (r: (Handle, HandleSource))
    ensures src.next <= r.0 < r.1.next
    ensures r.1.next == src.next + 1
  {
    (src.next, HandleSource(src.next + 1))
  }

  /** Every handle in `hs` was issued at or after `lo` and before `hi`. */
  predicate IssuedBetween(hs: seq<Handle>, lo: nat, hi: nat)
  {
    forall i :: 0 <= i < |hs| ==> lo <= hs[i] < hi
  }

  /** No handle occurs twice in `hs`. */
  predicate Distinct(hs: seq<Handle>)
  {
    forall i, j :: 0 <= i < j < |hs| ==> hs[i] != hs[j]
  }

  /** Number of occurrences of `x` in `s`. */
  function Count<T(==)>(s: seq<T>, x: T): nat
  {
    if |s| == 0 then 0
    else Count(s[..|s| - 1], x) + (if s[|s| - 1] == x then 1 else 0)
  }

  lemma {:induction false} CountAppend<T>(a: seq<T>, b: seq<T>, x: T)
    ensures Count(a + b, x) == Count(a, x) + Count(b, x)
    decreases |b|
  {
    if |b| == 0 {
      assert a + b == a;
    } else {
      assert (a + b)[..|a + b| - 1] == a + b[..|b| - 1];
      CountAppend(a, b[..|b| - 1], x);
    }
  }

  lemma {:induction false} CountAbsent<T>(s: seq<T>, x: T)
    requires x !in s
    ensures Count(s, x) == 0
    decreases |s|
  {
    if |s| > 0 {
      assert s[..|s| - 1] <= s;
      CountAbsent(s[..|s| - 1], x);
    }
  }
}
