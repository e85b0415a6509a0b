/** Small value types shared by every module of the project. */
module Wrappers {

  datatype Option<+T> = None | Some(value: T)

  datatype Result<+T, +E> = Ok(value: T) | Err(error: E)

  /** The values with each that repeats the one before it left out; `previous` comes before the first. */
  function WithoutRepeats<T(==)>(previous: Option<T>, values: seq<T>): (kept: seq<T>)
    ensures forall i :: 0 <= i < |kept| - 1 ==> kept[i] != kept[i + 1]
    ensures kept != [] ==> Some(kept[0]) != previous
    ensures forall v :: v in values ==> v in kept || Some(v) == previous
    decreases |values|
  {
    if values == [] then []
    else if previous == Some(values[0]) then WithoutRepeats(previous, values[1..])
    else [values[0]] + WithoutRepeats(Some(values[0]), values[1..])
  }
}
