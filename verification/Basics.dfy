/** Types that every part of the model shares. */
module Basics {

  newtype byte = x: int | 0 <= x < 256

  datatype Option<+T> = None | Some(value: T)

  /** A process, or an open file acting for one. */
  type Pid = nat

  function Max(a: int, b: int): int {
    if a < b then b else a
  }

  function Min(a: int, b: int): int {
    if a < b then a else b
  }

  lemma Assoc<T>(a: seq<T>, b: seq<T>, c: seq<T>)
    ensures a + (b + c) == a + b + c
  {
  }

  /** `block` with `data` copied in at `at`. */
  function Patched(block: seq<byte>, at: nat, data: seq<byte>): (b: seq<byte>)
    requires at + |data| <= |block|
    ensures |b| == |block|
  {
    block[..at] + data + block[at + |data|..]
  }
}
