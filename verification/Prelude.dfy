/** Types shared by every part of the model. */
module Prelude {

  /** A value, or nothing when the modelled code would abort or read outside its memory. */
  datatype Option<+T> = None | Some(value: T)

  /** One `char` of a C++ buffer. */
  newtype byte = x: int | 0 <= x < 256

  type Bytes = seq<byte>

  function Zeros(n: nat): (r: Bytes)
    ensures |r| == n
    ensures forall i :: 0 <= i < n ==> r[i] == 0
  {
    seq(n, i => 0)
  }
}
