/** The N64 pad record `OSContPad` that every backend fills in, and the
    libultra button bits (os_cont.h, which is not part of this model). */
module Pad {
  import opened CTypes

  const A_BUTTON: bv16 := 0x8000
  const B_BUTTON: bv16 := 0x4000
  const Z_TRIG: bv16 := 0x2000
  const START_BUTTON: bv16 := 0x1000
  const U_JPAD: bv16 := 0x0800
  const D_JPAD: bv16 := 0x0400
  const L_JPAD: bv16 := 0x0200
  const R_JPAD: bv16 := 0x0100
  const L_TRIG: bv16 := 0x0020
  const R_TRIG: bv16 := 0x0010
  const U_CBUTTONS: bv16 := 0x0008
  const D_CBUTTONS: bv16 := 0x0004
  const L_CBUTTONS: bv16 := 0x0002
  const R_CBUTTONS: bv16 := 0x0001

  /** The value of an `OSContPad`: `u16 button; s8 stick_x; s8 stick_y; u8 errnum`. */
  datatype PadState = PadState(button: bv16, stickX: int8, stickY: int8, errnum: byte)

  const ZERO_PAD := PadState(0, 0, 0, 0)

  /** Every button bit that is set in `before` is still set in `after`:
      the backend only ORs into the pad's button word. */
  predicate OnlyOrs(before: PadState, after: PadState)
  {
    before.button & !after.button == 0
  }

  /** The `OSContPad` object that the game hands to `osContGetReadData`
      and that every backend's `read` updates in place. */
  class ContPad {
    var button: bv16
    var stickX: int8
    var stickY: int8
    var errnum: byte

    function Value(): PadState
      reads this
    {
      PadState(button, stickX, stickY, errnum)
    }

    /** A backend whose code is not part of this model writes the whole record. */
    method Assign(v: PadState)
      modifies this
      ensures Value() == v
    {
      button, stickX, stickY, errnum := v.button, v.stickX, v.stickY, v.errnum;
    }
  }
}
