/** What the whole project shares: optional values and the limits of the source's integer types. */
module Wrappers {
  datatype Option<+T> = None | Some(value: T)

  const UINT32_MAX: nat := 0xffff_ffff
  const INT64_MAX: int := 0x7fff_ffff_ffff_ffff
}
