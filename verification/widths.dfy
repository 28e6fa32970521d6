/** The widths of the flight software's unsigned counters. */
module Widths {
  const UINT16: nat := 0x1_0000
  const UINT32: nat := 0x1_0000_0000
}
