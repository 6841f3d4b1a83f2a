/** Sizes of the unsigned integers on the wire. */
module Words {
  const U16 := 0x1_0000
  const U32 := 0x1_0000_0000
  const U64 := 0x1_0000_0000_0000_0000
}
