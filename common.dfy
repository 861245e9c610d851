/** Small shared vocabulary: an optional value, bytes, and the errno values it returns (negated, as in the C code). */
module Common {

  /** A value or nothing; `None` stands for a NULL pointer. */
  datatype Option<T> = None | Some(value: T)

  /** uint8_t, the element type of RSS keys and MAC addresses. */
  newtype byte = x: int | 0 <= x < 0x100

  const ENOENT: int := 2
  const ENOMEM: int := 12
  const ENODEV: int := 19
  const EINVAL: int := 22
  const EPROTO: int := 71
}
