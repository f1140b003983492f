/** Fixed-width unsigned integers shared by the front-end services and the host handlers. */
module Bytes {
  newtype u8 = x: int | 0 <= x < 0x100
  newtype u16 = x: int | 0 <= x < 0x1_0000

  /** Storing an integer into a `Uint8Array` element keeps it modulo 256. */
  function ToUint8(x: int): (b: u8)
    ensures b as int % 256 == x % 256
    ensures 0 <= x < 256 ==> b as int == x
  {
    (x % 256) as u8
  }
}
