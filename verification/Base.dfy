/** Machine words, pointers and options shared by every component. */
module Base {
  /** Identifies a thread. */
  type Tid = nat

  /** A `void*`; NULL is the null pointer. */
  type Ptr = nat
  const NULL: Ptr := 0

  datatype Option<+T> = None | Some(value: T)

  /** uint64_t arithmetic, wrapping as C defines it. */
  const TWO_TO_THE_64: nat := 0x1_0000_0000_0000_0000
  const MAX_U64: nat := 0xFFFF_FFFF_FFFF_FFFF

  function AddU64(a: nat, b: nat): nat {
    (a + b) % TWO_TO_THE_64
  }

  function SubU64(a: nat, b: nat): nat {
    (a - b) % TWO_TO_THE_64
  }

  /** The two special timeouts of the timed wait. */
  const BLOCKING: nat := MAX_U64
  const NON_BLOCKING: nat := 0

  function Min(a: nat, b: nat): nat {
    if a < b then a else b
  }

  function Max(a: nat, b: nat): nat {
    if a > b then a else b
  }
}
