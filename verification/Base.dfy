// Machine integers, result types and weighted sums used by every other module.
module Base {

  const U64_MAX: int := 0xFFFF_FFFF_FFFF_FFFF
  const U32_MAX: int := 0xFFFF_FFFF

  type u64 = x: int | 0 <= x <= 0xFFFF_FFFF_FFFF_FFFF
  type u32 = x: int | 0 <= x <= 0xFFFF_FFFF

  datatype Option<+T> = None | Some(value: T)

  function Min(a: int, b: int): int {
    if a <= b then a else b
  }

  // Rust's `u64::saturating_add`.
  function SaturatingAdd(a: u64, b: u64): u64 {
    Min(a + b, U64_MAX)
  }

  // Rust's `u32::saturating_add(1)`.
  function SaturatingIncrement(a: u32): u32 {
    Min(a + 1, U32_MAX)
  }

  function Sum(weights: seq<nat>): nat {
    if weights == [] then 0 else Sum(weights[..|weights| - 1]) + weights[|weights| - 1]
  }

  // Replacing one weight changes the sum by exactly the difference.
  lemma {:induction false} SumUpdate(weights: seq<nat>, i: nat, w: nat)
    requires i < |weights|
    ensures Sum(weights[i := w]) + weights[i] == Sum(weights) + w
  {
    var last := |weights| - 1;
    if i == last {
      assert weights[i := w][..last] == weights[..last];
    } else {
      assert weights[i := w][..last] == weights[..last][i := w];
      SumUpdate(weights[..last], i, w);
    }
  }

  lemma {:induction false} SumBound(weights: seq<nat>, i: nat)
    requires i < |weights|
    ensures weights[i] <= Sum(weights)
  {
    var last := |weights| - 1;
    if i < last {
      SumBound(weights[..last], i);
    }
  }

  lemma {:induction false} SumZero(weights: seq<nat>)
    ensures Sum(weights) == 0 <==> forall i :: 0 <= i < |weights| ==> weights[i] == 0
  {
    if weights != [] {
      var last := |weights| - 1;
      SumZero(weights[..last]);
      assert weights == weights[..last] + [weights[last]];
      if Sum(weights) == 0 {
        forall i | 0 <= i < |weights| ensures weights[i] == 0 {
          SumBound(weights, i);
        }
      }
    }
  }
}
