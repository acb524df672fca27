/** Machine integers and the growth rule of a Rust vector. */
module Checked {

  const USIZE_MAX: nat := 0xFFFF_FFFF_FFFF_FFFF

  datatype Option<+T> = None | Some(value: T)

  /** The outcome of a step that can only fail because a total leaves `usize`. */
  datatype Outcome = Ok | Overflow {
    predicate IsFailure() {
      Overflow?
    }

    function PropagateFailure(): Outcome
      requires Overflow?
    {
      Overflow
    }
  }

  /** `checked_add` and `checked_mul`: a value, or the admission overflow. */
  datatype Sized<+T> = Fits(value: T) | TooLarge {
    predicate IsFailure() {
      TooLarge?
    }

    function PropagateFailure<U>(): Sized<U>
      requires TooLarge?
    {
      TooLarge
    }

    function Extract(): T
      requires Fits?
    {
      value
    }
  }

  /** No element twice. */
  predicate Distinct<T(==)>(s: seq<T>) {
    forall i, j :: 0 <= i < j < |s| ==> s[i] != s[j]
  }

  function Guard(value: nat): Sized<nat> {
    if value <= USIZE_MAX then Fits(value) else TooLarge
  }

  function Add(left: nat, right: nat): Sized<nat> {
    Guard(left + right)
  }

  function Mul(left: nat, right: nat): Sized<nat> {
    Guard(left * right)
  }

  function Min(left: nat, right: nat): nat {
    if left < right then left else right
  }

  function Max(left: nat, right: nat): nat {
    if left < right then right else left
  }

  /** The buffer after one push: a full vector moves to `max(4, 2 * capacity)` slots. */
  function PushCapacity(length: nat, capacity: nat): nat {
    if length < capacity then capacity else Max(4, 2 * capacity)
  }

  /** The capacity of a vector that received `length` pushes. */
  function GrownCapacity(length: nat): nat {
    if length == 0 then 0 else PushCapacity(length - 1, GrownCapacity(length - 1))
  }

  /** The comment `cap <= 2 * len + 2` of the parse admission, and the bound on the buffer a growth leaves behind. */
  lemma {:induction false} GrownCapacityBound(length: nat)
    ensures length <= GrownCapacity(length) <= 2 * length + 2
    ensures 4 < length ==> GrownCapacity(length) <= 2 * (length - 1)
  {
    if length != 0 {
      GrownCapacityBound(length - 1);
    }
  }
}
