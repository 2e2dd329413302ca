/** Go's `int64` and `uint64` on unbounded integers. */
module Int64 {
  const TWO62 := 0x4000_0000_0000_0000
  const TWO63 := 0x8000_0000_0000_0000
  const TWO64 := 0x1_0000_0000_0000_0000

  // The int64 with the same low 64 bits: what arithmetic and conversion yield.
  function Wrap(x: int): (r: int)
    ensures -TWO63 <= r < TWO63
    ensures r == x <==> -TWO63 <= x < TWO63
  {
    var m := x % TWO64;
    if m >= TWO63 then m - TWO64 else m
  }

  predicate IsInt64(x: int) {
    -TWO63 <= x < TWO63
  }
}
