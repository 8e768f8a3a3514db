/** Result types shared by the component models. */
module Prelude {

  datatype Option<+T> = None | Some(value: T)

  datatype Result<+T, +E> = Ok(value: T) | Err(error: E)

  function Max(a: int, b: int): int { if a < b then b else a }

  function Min(a: int, b: int): int { if a < b then a else b }

  lemma MaxAndMin(a: int, b: int)
    ensures Max(a, b) in {a, b} && Max(a, b) >= a && Max(a, b) >= b
    ensures Min(a, b) in {a, b} && Min(a, b) <= a && Min(a, b) <= b
  {
  }
}
