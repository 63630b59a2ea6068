/** The panel backlight and touch set-up of `main/board_init.c`. The I2C
    driver is an abstract device: whether a call succeeds is a parameter, and
    every buffer transmitted to the backlight controller is recorded. */
module Board {
  import opened Bytes

  /** Register of the backlight controller that takes the duty value. */
  const BacklightRegister: Byte := 0x96

  datatype EspErr = EspOk | EspErrInvalidArg | EspErrInvalidState | EspFail

  /** `level_percent` clamped to 100. */
  function ClampLevel(level: U32): (r: nat)
    ensures r <= 100
    ensures level <= 100 ==> r == level
    ensures level > 100 ==> r == 100
  {
    if level > 100 then 100 else level
  }

  /** `(uint8_t)((255 * level) / 100)`; no truncation happens once the level is
      at most 100. */
  function Duty(level: nat): (d: Byte)
    requires level <= 100
  {
    (255 * level) / 100
  }

  /** The mapping runs from 0 (off) to 255 (full) and rounds down. */
  lemma DutyRange(level: nat)
    requires level <= 100
    ensures Duty(level) * 100 <= 255 * level < (Duty(level) + 1) * 100
    ensures level == 0 ==> Duty(level) == 0
    ensures level == 100 ==> Duty(level) == 255
  {
  }

  /** A brighter level gives a strictly larger duty: no two levels share one. */
  lemma {:induction false} DutyStrictlyIncreasing(a: nat, b: nat)
    requires a < b <= 100
    ensures Duty(a) < Duty(b)
  {
    DutyRange(a);
    DutyRange(b);
    assert 255 * b >= 255 * a + 255;
  }

  /** The static state of `board_init.c`. */
  class Board {
    /** `s_backlight_init_done` */
    var backlightInitDone: bool
    /** `s_bk_i2c_handle != NULL` */
    var backlightDevice: bool
    /** `s_touch_handle != NULL` */
    var touchReady: bool
    /** The buffers transmitted to the backlight controller. */
    var transmitted: seq<seq<Byte>>

    constructor ()
      ensures !backlightInitDone && !backlightDevice && !touchReady && transmitted == []
    {
      backlightInitDone, backlightDevice, touchReady := false, false, false;
      transmitted := [];
    }

    /** `board_init_backlight`: `busPresent` is whether the bus handle is
        non-null, `addOk` whether `i2c_master_bus_add_device` succeeds. */
    method InitBacklight(busPresent: bool, addOk: bool) returns (err: EspErr)
      modifies this
      ensures !busPresent ==> err == EspErrInvalidArg
      ensures busPresent && !addOk ==> err == EspFail
      ensures busPresent && addOk ==> err == EspOk
      ensures backlightInitDone == (old(backlightInitDone) || (busPresent && addOk))
      ensures backlightDevice == (old(backlightDevice) || (busPresent && addOk))
      ensures touchReady == old(touchReady) && transmitted == old(transmitted)
    {
      if !busPresent {
        return EspErrInvalidArg;
      }
      if !addOk {
        return EspFail;
      }
      backlightDevice := true;
      backlightInitDone := true;
      return EspOk;
    }

    /** `board_set_backlight`: clamp, map to a duty value, and write
        `[0x96, duty]` if the controller was set up. */
    method SetBacklight(level: U32, transmitOk: bool) returns (err: EspErr, duty: Byte)
      modifies this
      ensures duty == Duty(ClampLevel(level))
      ensures !(old(backlightInitDone) && old(backlightDevice)) ==>
                err == EspErrInvalidState && transmitted == old(transmitted)
      ensures old(backlightInitDone) && old(backlightDevice) ==>
                transmitted == old(transmitted) + [[BacklightRegister, duty]]
                && (err == EspOk <==> transmitOk)
      ensures backlightInitDone == old(backlightInitDone) && backlightDevice == old(backlightDevice)
      ensures touchReady == old(touchReady)
    {
      var percent := level;
      if percent > 100 {
        percent := 100;
      }
      duty := Duty(percent);
      if !backlightInitDone || !backlightDevice {
        return EspErrInvalidState, duty;
      }
      transmitted := transmitted + [[BacklightRegister, duty]];
      err := if transmitOk then EspOk else EspFail;
    }

    /** `board_init_touch`: `ioOk` and `gt911Ok` are the outcomes of creating
        the panel IO and the GT911 driver. */
    method InitTouch(busPresent: bool, ioOk: bool, gt911Ok: bool) returns (err: EspErr)
      modifies this
      ensures !busPresent ==> err == EspErrInvalidArg && touchReady == old(touchReady)
      ensures busPresent ==> (err == EspOk <==> ioOk && gt911Ok)
      ensures touchReady == (old(touchReady) || (busPresent && ioOk && gt911Ok))
      ensures backlightInitDone == old(backlightInitDone) && backlightDevice == old(backlightDevice)
      ensures transmitted == old(transmitted)
    {
      if !busPresent {
        return EspErrInvalidArg;
      }
      if !ioOk {
        return EspFail;
      }
      if !gt911Ok {
        return EspFail;
      }
      touchReady := true;
      return EspOk;
    }
  }

  /** Setting the backlight before its initialisation is refused and sends
      nothing; after a successful initialisation every level is sent as its
      clamped duty value. */
  method BacklightSequence(level: U32) returns (before: EspErr, after: EspErr)
    ensures before == EspErrInvalidState && after == EspOk
  {
    var board := new Board();
    var d0;
    before, d0 := board.SetBacklight(level, true);
    assert board.transmitted == [];
    var initErr := board.InitBacklight(true, true);
    var d1;
    after, d1 := board.SetBacklight(level, true);
    assert board.transmitted == [[BacklightRegister, Duty(ClampLevel(level))]];
  }
}
