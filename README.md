# TFTBlinky backlight controller, modelled in Dafny

`tftblinky.py` defines `TFTBlinky`, a controller for the backlight of a
microcontroller board's built-in display. When it is constructed it probes
the board once. It uses the display's `brightness` attribute if the display
has one. Otherwise it uses the first pin the board has among
`DISPLAY_BACKLIGHT`, `TFT_BACKLIGHT` and `BACKLIGHT`, opened as a digital
output. Otherwise it has no control method. Right after selecting, it
records the original backlight value: a fractional brightness, or the pin's
boolean. It then offers `set_backlight`, `blink` (a bounded loop of
on / sleep / off / sleep followed by a restore) and `restore_original_state`.

The model:

- `wrappers.dfy`: module `Wrappers`, an `Option` datatype for Python's `None`.
- `hardware.dfy`: module `Hardware`, the hardware as abstract state.
  - `Display` is a class: a fixed `hasBrightness` (the `hasattr` test) and a writable `brightness` (a `real`).
  - `DigitalPin` is a class for an opened `DigitalInOut`: its board pin name, `value` and an `isOutput` flag.
  - `Board` is the `board` module. `display` is `None` when `DISPLAY` is missing, which raises `AttributeError`. It is `Some(null)` when `DISPLAY` is Python's `None`.
  - `Board.pins` maps each name the board has to `Pin(level)`, or to `NotAPin` when `DigitalInOut` rejects it with `TypeError`.
  - `Event` is one entry of the log of writes and sleeps. `Setting` is the value of a control surface.
  - `Replay` gives the value of a surface after a log.
- `tftblinky.dfy`: module `Blinky`.
  - The specification functions: `Probe`, `FirstPresent`, `SetWrites`, `RestoreWrites`, `Cycles`, `BlinkTrace`.
  - The lemmas about those functions.
  - The class `TFTBlinky`, with the fields of the Python object and a ghost `trace` that logs every write and sleep it issues.
  - The constructor runs the probe as a `for` loop that exits with `break`, as the source does.
  - Each method states its new hardware value, its log entries, and that `controlMethod` and the recorded originals are unchanged.
- `scenarios.dfy`: module `Scenarios`, client methods on concrete boards. They show what a caller can conclude from the contracts alone.

Behaviour worth knowing:

- With no control method, `set_backlight` still returns the requested state and `blink` just returns. There is no "unavailable" failure result.
- Timings are not validated.
- A negative `count` runs zero iterations, as `range(count)` does.
- "On" is always brightness 1.0 and "off" 0.0.

## Model

| member | source | states |
|---|---|---|
| Blinky.FirstPresent | tftblinky.py:29-37 | the index found is of a name the board has, and every earlier candidate name is absent; none is found exactly when no candidate name is present |
| Blinky.Probe | tftblinky.py:19-42 | brightness is selected exactly when the display exists and has a `brightness` attribute, whatever pins exist; a missing `DISPLAY` gives no method; a selected pin is a candidate name the board has, with the level it reads |
| Blinky.ProbePinPriority | tftblinky.py:29-37 | without brightness, the first present candidate name decides: it is used if it opens, and if it raises `TypeError` no method is chosen and later names are not tried |
| Blinky.ProbeNoMethod | tftblinky.py:39-40 | a display without brightness and no candidate pin gives no control method |
| Blinky.TFTBlinky.constructor | tftblinky.py:11-42 | the fields follow the probe: no method, no pin opened and no original when nothing is found; brightness mode records the display's brightness; pin mode opens a fresh pin under the chosen name and records its value; the recorded original equals the hardware value; the log is empty |
| Blinky.TFTBlinky.SetBacklight | tftblinky.py:44-54 | returns the requested state; brightness mode writes 1.0 or 0.0, pin mode writes the boolean, no method writes nothing; the display's brightness is untouched outside brightness mode; method and originals are unchanged |
| Blinky.SetWritesReplay | tftblinky.py:50-54 | the single write of `set_backlight` leaves the surface at the switched value |
| Blinky.LastSetWins | tftblinky.py:44-54 | after any non-empty run of `set_backlight` calls the surface holds the last request |
| Blinky.TFTBlinky.Sleep | tftblinky.py:71-75 | a sleep adds exactly one pause of the given duration to the log |
| Blinky.TFTBlinky.Blink | tftblinky.py:56-78 | the log grows by exactly the blink sequence (nothing at all without a method); afterwards the hardware holds the recorded original; method and originals are unchanged |
| Blinky.TFTBlinky.BlinkDefaults | tftblinky.py:56 | `blink()` without arguments behaves as `blink(5, 1.0, 1.0)`: log, final hardware value and unchanged fields as for `Blink` |
| Scenarios.DefaultBlink | tftblinky.py:56-78 | `blink()` on a brightness display logs 21 events, sleeps 1.0 on and 1.0 off five times and restores an original of 0.75 exactly |
| Blinky.CyclesLength | tftblinky.py:68-75 | with a control method, n blink cycles are exactly 4n events |
| Blinky.CycleAt | tftblinky.py:68-75 | cycle k of the sequence is, at positions 4k..4k+3, the on write, a pause of on_time, the off write and a pause of off_time |
| Blinky.CyclesPauses | tftblinky.py:68-75 | the sleeps of n cycles are on_time, off_time repeated n times |
| Blinky.BlinkPauses | tftblinky.py:64-78 | `blink` sleeps on_time, off_time once per iteration of `range(count)`, and never without a control method |
| Blinky.BlinkRestores | tftblinky.py:68-78 | whatever value the surface held before, replaying the blink log ends at the exact recorded original |
| Blinky.TFTBlinky.RestoreOriginalState | tftblinky.py:80-87 | writes back exactly the recorded original (a fractional brightness is not rounded to on or off), or nothing without a method or an original; afterwards the hardware holds the original; method and originals are unchanged |
| Blinky.RestoreWritesReplay | tftblinky.py:80-87 | the restore write replaces any value of the surface by the exact original |
| Blinky.RestoreAfterSets | tftblinky.py:44-87 | after any sequence of `set_backlight` calls (lines 44-54), a restore (lines 80-87) brings the surface back to the exact original |
| Scenarios.BrightnessWinsOverPin | tftblinky.py:23-26 | a display with brightness and a board with a `BACKLIGHT` pin gives brightness control, and no pin is opened |
| Scenarios.TftPinBeforeBacklight | tftblinky.py:29-37 | with `TFT_BACKLIGHT` and `BACKLIGHT` both present and no brightness, `TFT_BACKLIGHT` is used and its value recorded |
| Scenarios.NullDisplayScansPins | tftblinky.py:20-35 | a `DISPLAY` that is `None` has no brightness, so the pins are scanned |
| Scenarios.MissingDisplayIgnoresPins | tftblinky.py:19-42 | a board without `DISPLAY` gets no method even if it has a backlight pin |
| Scenarios.UnusablePinStopsScan | tftblinky.py:30-42 | a present pin name that raises `TypeError` ends the probe with no method |
| Scenarios.BlinkWithoutMethod | tftblinky.py:64-66 | with no method, `blink(5)` leaves the display and the log untouched |
| Scenarios.FractionalBrightnessRestored | tftblinky.py:68-83 | an original brightness of 0.25 is restored exactly after three blinks, which log 13 events |
| Scenarios.OnThenOff | tftblinky.py:50-54 | on then off leaves brightness 0.0 and the recorded original unchanged |

## Left out

- The console messages (`print`) carry no state and are not modelled.
- `time.sleep` does not block here. Each sleep is a `Pause` event in the log, carrying its duration.
- The `board`, `displayio` and `digitalio` libraries are not part of this model; they are the abstract `Board`, `Display` and `DigitalPin`. Setting `Direction.OUTPUT` is the `isOutput` flag. The value read from a freshly opened pin is the level the board supplies; what the library does to a pin when it becomes an output is not modelled.
- Exceptions other than the `AttributeError` from a missing `DISPLAY` and the `TypeError` from `DigitalInOut` are not modelled. For example, a `ValueError` for a pin already in use would escape the constructor.
- Blinky.TFTBlinky.Blink: does not model the `ValueError` that `time.sleep` raises on a negative duration. In the source, `blink(1, -1.0, 1.0)` stops after the first "on" write, leaves the backlight on and never restores it. The model's `Sleep` accepts any duration, so its `Blink` always ends at the original.
- Floating point: brightness is an exact `real`. It is only copied or set to 1.0 and 0.0, so no rounding arises.
- `Probe` does not read the display's brightness level. The constructor's contract states that the recorded brightness is the display's. For a pin, `Probe` carries the level the opened pin reads.
- The `__main__` example block is not modelled.
