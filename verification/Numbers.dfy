/** The fixed-width integers the modelled code relies on. */
module Numbers {

  type uint16 = x: int | 0 <= x < 0x1_0000
  type uint32 = x: int | 0 <= x < 0x1_0000_0000

  /** x + 1 in 32 bits. */
  function Inc32(x: uint32): uint32 {
    (x + 1) % 0x1_0000_0000
  }

  /** Addition and subtraction in 32 bits. */
  function Add32(x: uint32, y: uint32): uint32 {
    if x + y < 0x1_0000_0000 then x + y else x + y - 0x1_0000_0000
  }

  function Sub32(x: uint32, y: uint32): uint32 {
    if x >= y then x - y else x - y + 0x1_0000_0000
  }
}
