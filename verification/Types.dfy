/** Shared vocabulary of the kernel models. */
module Types {
  datatype Option<+T> = None | Some(value: T)

  newtype byte = b: int | 0 <= b < 256

  const PAGE_SIZE: nat := 4096
  /** Largest value of a 16-bit frame reference count. */
  const MAX_REFS: nat := 65535
}
