/**
  The unsigned integers of the source, with their wrap-around.
*/
module Words {

  type uint8 = n: int | 0 <= n < 0x100
  type uint16 = n: int | 0 <= n < 0x1_0000

  function Inc8(n: uint8): uint8 { if n == 0xFF then 0 else n + 1 }
  function Dec8(n: uint8): uint8 { if n == 0 then 0xFF else n - 1 }
  function Inc16(n: uint16): uint16 { if n == 0xFFFF then 0 else n + 1 }
  function Dec16(n: uint16): uint16 { if n == 0 then 0xFFFF else n - 1 }
}
