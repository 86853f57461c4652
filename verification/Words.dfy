/** 32-bit unsigned arithmetic, as the clocks and counters of the server use it. */
module Words {
  const U32: nat := 0x1_0000_0000

  function Add32(a: nat, b: nat): nat { (a + b) % U32 }

  function Sub32(a: nat, b: nat): nat { (a - b) % U32 }
}
