/**
  Client scenarios: what a caller of `TFTBlinky` can conclude from the
  contracts alone, on concrete boards.
 */
module Scenarios {
  import opened Wrappers
  import opened Hardware
  import opened Blinky

  /** A display with brightness wins over a board that also has a
      `BACKLIGHT` pin, and no pin is opened. */
  method BrightnessWinsOverPin() returns (m: ControlMethod, pinOpened: bool)
    ensures m == BrightnessControl && !pinOpened
  {
    var d := new Display(true, 0.6);
    var c := new TFTBlinky(Board(Some(d), map["BACKLIGHT" := Pin(true)]));
    m, pinOpened := c.controlMethod, c.backlight != null;
  }

  /** Without brightness, `TFT_BACKLIGHT` is preferred to `BACKLIGHT`. */
  method TftPinBeforeBacklight() returns (m: ControlMethod, name: string, original: Option<bool>)
    ensures m == PinControl && name == "TFT_BACKLIGHT" && original == Some(true)
  {
    var d := new Display(false, 0.0);
    var c := new TFTBlinky(Board(Some(d), map["BACKLIGHT" := Pin(false), "TFT_BACKLIGHT" := Pin(true)]));
    ProbePinPriority(Board(Some(d), map["BACKLIGHT" := Pin(false), "TFT_BACKLIGHT" := Pin(true)]), 1);
    m, name, original := c.controlMethod, c.backlight.pinName, c.originalState;
  }

  /** When `DISPLAY` is Python's `None` the pins are still scanned. */
  method NullDisplayScansPins() returns (m: ControlMethod)
    ensures m == PinControl
  {
    var c := new TFTBlinky(Board(Some(null), map["DISPLAY_BACKLIGHT" := Pin(false)]));
    m := c.controlMethod;
  }

  /** A board without a `DISPLAY` attribute gets no method, whatever pins it has. */
  method MissingDisplayIgnoresPins() returns (m: ControlMethod)
    ensures m == NoControl
  {
    var c := new TFTBlinky(Board(None, map["DISPLAY_BACKLIGHT" := Pin(true)]));
    m := c.controlMethod;
  }

  /** A first present pin that cannot be opened ends the probe: the valid
      `BACKLIGHT` pin after it is not tried. */
  method UnusablePinStopsScan() returns (m: ControlMethod, pinOpened: bool)
    ensures m == NoControl && !pinOpened
  {
    var b := Board(Some(null), map["TFT_BACKLIGHT" := NotAPin, "BACKLIGHT" := Pin(true)]);
    var c := new TFTBlinky(b);
    ProbePinPriority(b, 1);
    m, pinOpened := c.controlMethod, c.backlight != null;
  }

  /** With no method, blinking writes nothing and sleeps not at all. */
  method BlinkWithoutMethod() returns (m: ControlMethod, level: real)
    ensures m == NoControl && level == 0.5
  {
    var d := new Display(false, 0.5);
    var b := Board(Some(d), map[]);
    var c := new TFTBlinky(b);
    ProbeNoMethod(b);
    c.Blink(5, 1.0, 1.0);
    assert c.trace == [];
    m, level := c.controlMethod, d.brightness;
  }

  /** A fractional original brightness survives a blink exactly. */
  method FractionalBrightnessRestored() returns (level: real)
    ensures level == 0.25
  {
    var d := new Display(true, 0.25);
    var c := new TFTBlinky(Board(Some(d), map[]));
    c.Blink(3, 0.1, 0.1);
    CyclesLength(BrightnessControl, 3, 0.1, 0.1);
    assert |c.trace| == 13;
    level := d.brightness;
  }

  /** On then off leaves the backlight off and the original untouched. */
  method OnThenOff() returns (level: real, original: Option<real>)
    ensures level == 0.0 && original == Some(0.25)
  {
    var d := new Display(true, 0.25);
    var c := new TFTBlinky(Board(Some(d), map[]));
    var on := c.SetBacklight(true);
    var off := c.SetBacklight(false);
    level, original := d.brightness, c.originalBrightness;
  }

  /** `blink()` without arguments blinks five times, one second on and one
      off, and restores the original. */
  method DefaultBlink() returns (level: real)
    ensures level == 0.75
  {
    var d := new Display(true, 0.75);
    var c := new TFTBlinky(Board(Some(d), map[]));
    c.BlinkDefaults();
    CyclesLength(BrightnessControl, 5, 1.0, 1.0);
    assert |c.trace| == 21;
    BlinkPauses(BrightnessControl, 5, 1.0, 1.0, Some(0.75), None);
    assert c.trace == BlinkTrace(BrightnessControl, 5, 1.0, 1.0, Some(0.75), None);
    assert Pauses(c.trace) == Alternating(1.0, 1.0, 5);
    level := d.brightness;
  }
}
