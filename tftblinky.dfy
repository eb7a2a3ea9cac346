/**
  The backlight controller `TFTBlinky`: at construction it probes the board
  for a way to drive the display backlight (the display's brightness
  register, else the first of three well-known backlight pins), records the
  backlight's original value, and then offers switching the backlight on or
  off, blinking it a number of times, and restoring the original value.

  The functions ahead of the class are the specification: which control
  method the probe selects, and which writes and sleeps each operation
  issues. The lemmas relate those logs to the value the hardware ends up
  with.
 */
module Blinky {
  import opened Wrappers
  import opened Hardware

  /** The default arguments of `blink()`: five blinks, one second on and
      one second off. */
  const DefaultCount: int := 5
  const DefaultOnTime: real := 1.0
  const DefaultOffTime: real := 1.0

  /** The candidate backlight pin names, in the order they are tried. */
  const BacklightPins: seq<string> := ["DISPLAY_BACKLIGHT", "TFT_BACKLIGHT", "BACKLIGHT"]

  /** `control_method`: Python's `None`, `"brightness"` or `"pin"`. */
  datatype ControlMethod = NoControl | BrightnessControl | PinControl

  /** What the probe settles on: no method, the display's brightness, or
      the named pin together with the level that pin reads once opened. */
  datatype Selection = SelectNone | SelectBrightness | SelectPin(name: string, level: bool)

  // ---------------------------------------------------------------------
  // Capability probe

  /** `hasattr(board.DISPLAY, 'brightness')` for a board that has `DISPLAY`. */
  predicate HasBrightness(board: Board)
  {
    board.display.Some? && board.display.value != null && board.display.value.hasBrightness
  }

  /** The index of the first of `names[from..]` the board has, if any. */
  function FirstPresent(names: seq<string>, pins: map<string, PinAttr>, from: nat): (r: Option<nat>)
    requires from <= |names|
    ensures r.Some? ==> from <= r.value < |names| && names[r.value] in pins
    ensures r.Some? ==> forall j :: from <= j < r.value ==> names[j] !in pins
    ensures r.None? <==> forall j :: from <= j < |names| ==> names[j] !in pins
    decreases |names| - from
  {
    if from == |names| then None
    else if names[from] in pins then Some(from)
    else FirstPresent(names, pins, from + 1)
  }

  /** The control method the constructor selects for `board`. */
  function Probe(board: Board): (r: Selection)
    ensures r == SelectBrightness <==> HasBrightness(board)
    ensures board.display.None? ==> r == SelectNone
    ensures r.SelectPin? ==> board.display.Some? && !HasBrightness(board)
    ensures r.SelectPin? ==> r.name in BacklightPins && r.name in board.pins && board.pins[r.name] == Pin(r.level)
  {
    if board.display.None? then SelectNone
    else if HasBrightness(board) then SelectBrightness
    else
      match FirstPresent(BacklightPins, board.pins, 0)
      case None => SelectNone
      case Some(k) =>
        match board.pins[BacklightPins[k]]
        case Pin(level) => SelectPin(BacklightPins[k], level)
        case NotAPin => SelectNone
  }

  /** Without brightness, the pin used is the first candidate name the board
      has; the later names are not looked at, and a first present name that
      cannot be opened leaves the controller with no method. */
  lemma ProbePinPriority(board: Board, k: nat)
    requires board.display.Some? && !HasBrightness(board)
    requires k < |BacklightPins| && BacklightPins[k] in board.pins
    requires forall j :: 0 <= j < k ==> BacklightPins[j] !in board.pins
    ensures board.pins[BacklightPins[k]].Pin? ==>
              Probe(board) == SelectPin(BacklightPins[k], board.pins[BacklightPins[k]].level)
    ensures board.pins[BacklightPins[k]].NotAPin? ==> Probe(board) == SelectNone
  {
  }

  /** With a display but neither brightness nor any candidate pin, nothing
      is selected. */
  lemma ProbeNoMethod(board: Board)
    requires board.display.Some? && !HasBrightness(board)
    requires forall j :: 0 <= j < |BacklightPins| ==> BacklightPins[j] !in board.pins
    ensures Probe(board) == SelectNone
  {
  }

  // ---------------------------------------------------------------------
  // What each operation writes

  /** The writes `set_backlight(state)` issues under method `m`. */
  function SetWrites(m: ControlMethod, state: bool): seq<Event>
  {
    match m
    case BrightnessControl => [BrightnessWrite(if state then 1.0 else 0.0)]
    case PinControl => [PinWrite(state)]
    case NoControl => []
  }

  /** The value `set_backlight(state)` leaves on the control surface. */
  function Switched(m: ControlMethod, state: bool): Option<Setting>
  {
    match m
    case BrightnessControl => Some(BrightnessAt(if state then 1.0 else 0.0))
    case PinControl => Some(PinAt(state))
    case NoControl => None
  }

  /** The original value recorded under method `m`, if one was recorded. */
  function OriginalSetting(m: ControlMethod, brightness: Option<real>, state: Option<bool>): Option<Setting>
  {
    match m
    case BrightnessControl => if brightness.Some? then Some(BrightnessAt(brightness.value)) else None
    case PinControl => if state.Some? then Some(PinAt(state.value)) else None
    case NoControl => None
  }

  /** The writes `restore_original_state()` issues: the recorded original,
      exactly, or nothing when there is none. */
  function RestoreWrites(m: ControlMethod, brightness: Option<real>, state: Option<bool>): seq<Event>
  {
    match OriginalSetting(m, brightness, state)
    case None => []
    case Some(BrightnessAt(level)) => [BrightnessWrite(level)]
    case Some(PinAt(on)) => [PinWrite(on)]
  }

  /** One blink: on, sleep `onTime`, off, sleep `offTime`. */
  function Cycle(m: ControlMethod, onTime: real, offTime: real): seq<Event>
  {
    SetWrites(m, true) + [Pause(onTime)] + SetWrites(m, false) + [Pause(offTime)]
  }

  /** `n` blinks in a row. */
  function Cycles(m: ControlMethod, n: nat, onTime: real, offTime: real): seq<Event>
    decreases n
  {
    if n == 0 then [] else Cycles(m, n - 1, onTime, offTime) + Cycle(m, onTime, offTime)
  }

  /** The number of iterations of `for i in range(count)`. */
  function Iterations(count: int): nat
  {
    if count < 0 then 0 else count
  }

  /** The log of `blink(count, onTime, offTime)`: nothing without a control
      method, else the blinks followed by one restore. */
  function BlinkTrace(m: ControlMethod, count: int, onTime: real, offTime: real,
                      brightness: Option<real>, state: Option<bool>): seq<Event>
  {
    if m == NoControl then []
    else Cycles(m, Iterations(count), onTime, offTime) + RestoreWrites(m, brightness, state)
  }

  /** The writes of the calls `set_backlight(qs[0])`, ..., in order. */
  function SetsTrace(m: ControlMethod, qs: seq<bool>): seq<Event>
    decreases |qs|
  {
    if qs == [] then [] else SetsTrace(m, qs[..|qs| - 1]) + SetWrites(m, qs[|qs| - 1])
  }

  /** `s` is a value of the surface that method `m` drives. */
  predicate Fits(m: ControlMethod, s: Setting)
  {
    (m == BrightnessControl && s.BrightnessAt?) || (m == PinControl && s.PinAt?)
  }

  // ---------------------------------------------------------------------
  // Properties of the write logs

  /** Every blink of the sequence is, at its own position, exactly "on, sleep
      onTime, off, sleep offTime", and there are no other events. */
  lemma {:induction false} CycleAt(m: ControlMethod, n: nat, onTime: real, offTime: real, k: nat)
    requires m != NoControl && k < n
    ensures |Cycles(m, n, onTime, offTime)| == 4 * n
    ensures Cycles(m, n, onTime, offTime)[4 * k] == SetWrites(m, true)[0]
    ensures Cycles(m, n, onTime, offTime)[4 * k + 1] == Pause(onTime)
    ensures Cycles(m, n, onTime, offTime)[4 * k + 2] == SetWrites(m, false)[0]
    ensures Cycles(m, n, onTime, offTime)[4 * k + 3] == Pause(offTime)
    decreases n
  {
    var c := Cycle(m, onTime, offTime);
    assert |c| == 4;
    CyclesLength(m, n - 1, onTime, offTime);
    if k < n - 1 {
      CycleAt(m, n - 1, onTime, offTime, k);
    }
  }

  /** With a control method, `n` blinks are `4 * n` events. */
  lemma {:induction false} CyclesLength(m: ControlMethod, n: nat, onTime: real, offTime: real)
    requires m != NoControl
    ensures |Cycles(m, n, onTime, offTime)| == 4 * n
    decreases n
  {
    if n > 0 {
      CyclesLength(m, n - 1, onTime, offTime);
    }
  }

  /** `n` repetitions of the pair `[onTime, offTime]`. */
  function Alternating(onTime: real, offTime: real, n: nat): seq<real>
    decreases n
  {
    if n == 0 then [] else Alternating(onTime, offTime, n - 1) + [onTime, offTime]
  }

  /** `blink` sleeps `onTime` then `offTime` once per blink, `max(count, 0)`
      times, and not at all without a control method. */
  lemma {:induction false} BlinkPauses(m: ControlMethod, count: int, onTime: real, offTime: real,
                                       brightness: Option<real>, state: Option<bool>)
    ensures Pauses(BlinkTrace(m, count, onTime, offTime, brightness, state)) ==
              if m == NoControl then [] else Alternating(onTime, offTime, Iterations(count))
  {
    if m != NoControl {
      CyclesPauses(m, Iterations(count), onTime, offTime);
      var rs := RestoreWrites(m, brightness, state);
      PausesAppend(Cycles(m, Iterations(count), onTime, offTime), rs);
      assert Pauses(rs) == [] by {
        if rs != [] {
          assert rs[1..] == [];
        }
      }
    }
  }

  lemma {:induction false} CyclesPauses(m: ControlMethod, n: nat, onTime: real, offTime: real)
    requires m != NoControl
    ensures Pauses(Cycles(m, n, onTime, offTime)) == Alternating(onTime, offTime, n)
    decreases n
  {
    if n > 0 {
      CyclesPauses(m, n - 1, onTime, offTime);
      var on, off := SetWrites(m, true), SetWrites(m, false);
      PausesAppend(Cycles(m, n - 1, onTime, offTime), Cycle(m, onTime, offTime));
      PausesAppend(on + [Pause(onTime)] + off, [Pause(offTime)]);
      PausesAppend(on + [Pause(onTime)], off);
      PausesAppend(on, [Pause(onTime)]);
      assert Pauses(on) == [] && Pauses(off) == [] by {
        assert on[1..] == [] && off[1..] == [];
      }
      assert Pauses([Pause(onTime)]) == [onTime];
      assert Pauses([Pause(offTime)]) == [offTime];
    }
  }

  /** A `set_backlight` write leaves exactly the switched value. */
  lemma SetWritesReplay(m: ControlMethod, s: Setting, state: bool)
    requires Fits(m, s)
    ensures Some(Replay(s, SetWrites(m, state))) == Switched(m, state)
  {
  }

  /** Restoring overwrites whatever value the surface holds with the original. */
  lemma RestoreWritesReplay(m: ControlMethod, s: Setting, brightness: Option<real>, state: Option<bool>)
    requires Fits(m, s) && OriginalSetting(m, brightness, state).Some?
    ensures Replay(s, RestoreWrites(m, brightness, state)) == OriginalSetting(m, brightness, state).value
  {
  }

  /** After a run of `set_backlight` calls the surface holds the last request. */
  lemma {:induction false} LastSetWins(m: ControlMethod, s: Setting, qs: seq<bool>)
    requires Fits(m, s) && |qs| > 0
    ensures Some(Replay(s, SetsTrace(m, qs))) == Switched(m, qs[|qs| - 1])
  {
    var front := SetsTrace(m, qs[..|qs| - 1]);
    ReplayAppend(s, front, SetWrites(m, qs[|qs| - 1]));
    ReplayKeepsKind(s, front);
    SetWritesReplay(m, Replay(s, front), qs[|qs| - 1]);
  }

  /** Whatever `set_backlight` calls came before, a restore brings the
      surface back to the exact original, fractional brightness included. */
  lemma RestoreAfterSets(m: ControlMethod, s: Setting, qs: seq<bool>,
                         brightness: Option<real>, state: Option<bool>)
    requires Fits(m, s) && OriginalSetting(m, brightness, state).Some?
    ensures Replay(s, SetsTrace(m, qs) + RestoreWrites(m, brightness, state)) ==
              OriginalSetting(m, brightness, state).value
  {
    var front := SetsTrace(m, qs);
    ReplayAppend(s, front, RestoreWrites(m, brightness, state));
    ReplayKeepsKind(s, front);
    RestoreWritesReplay(m, Replay(s, front), brightness, state);
  }

  /** Whatever the surface held before, it holds the exact original after a
      blink with a control method. */
  lemma BlinkRestores(m: ControlMethod, s: Setting, count: int, onTime: real, offTime: real,
                      brightness: Option<real>, state: Option<bool>)
    requires Fits(m, s) && OriginalSetting(m, brightness, state).Some?
    ensures Replay(s, BlinkTrace(m, count, onTime, offTime, brightness, state)) ==
              OriginalSetting(m, brightness, state).value
  {
    var front := Cycles(m, Iterations(count), onTime, offTime);
    ReplayAppend(s, front, RestoreWrites(m, brightness, state));
    ReplayKeepsKind(s, front);
    RestoreWritesReplay(m, Replay(s, front), brightness, state);
  }

  // ---------------------------------------------------------------------
  // The controller

  class TFTBlinky {
    var display: Display?
    var backlight: DigitalPin?
    var controlMethod: ControlMethod
    var originalBrightness: Option<real>
    var originalState: Option<bool>
    /** The writes and sleeps issued so far. */
    ghost var trace: seq<Event>

    /** The fields agree with the method the probe selected. */
    ghost predicate Valid()
      reads this, backlight
    {
      (controlMethod == BrightnessControl ==>
         display != null && display.hasBrightness && backlight == null &&
         originalBrightness.Some? && originalState.None?) &&
      (controlMethod == PinControl ==>
         backlight != null && backlight.isOutput &&
         originalBrightness.None? && originalState.Some?) &&
      (controlMethod == NoControl ==>
         backlight == null && originalBrightness.None? && originalState.None?)
    }

    /** The current value of the selected control surface. */
    function Current(): Option<Setting>
      requires Valid()
      reads this, display, backlight
    {
      match controlMethod
      case BrightnessControl => Some(BrightnessAt(display.brightness))
      case PinControl => Some(PinAt(backlight.value))
      case NoControl => None
    }

    /** The value recorded at construction. */
    function Original(): Option<Setting>
      reads this
    {
      OriginalSetting(controlMethod, originalBrightness, originalState)
    }

    /** Probe the board and record the original backlight value. */
    constructor (board: Board)
      ensures Valid() && trace == []
      ensures display == (if board.display.Some? then board.display.value else null)
      ensures Probe(board) == SelectNone ==> controlMethod == NoControl
      ensures Probe(board) == SelectBrightness ==>
                controlMethod == BrightnessControl && originalBrightness == Some(display.brightness)
      ensures Probe(board).SelectPin? ==>
                controlMethod == PinControl && fresh(backlight) &&
                backlight.pinName == Probe(board).name && originalState == Some(Probe(board).level)
      ensures Original() == Current()
    {
      display := null;
      backlight := null;
      controlMethod := NoControl;
      originalBrightness := None;
      originalState := None;
      trace := [];
      new;
      if board.display.Some? {
        display := board.display.value;
        if display != null && display.hasBrightness {
          controlMethod := BrightnessControl;
          originalBrightness := Some(display.brightness);
        } else {
          for i := 0 to |BacklightPins|
            invariant display == board.display.value && !HasBrightness(board)
            invariant forall j :: 0 <= j < i ==> BacklightPins[j] !in board.pins
            invariant controlMethod == NoControl && backlight == null
            invariant originalBrightness.None? && originalState.None?
          {
            var pinName := BacklightPins[i];
            if pinName in board.pins {
              ProbePinPriority(board, i);
              match board.pins[pinName]
              case NotAPin =>
                // DigitalInOut raises TypeError: the probe ends with no method.
                break;
              case Pin(level) =>
                var pin := new DigitalPin(pinName, level);
                pin.isOutput := true;
                backlight := pin;
                controlMethod := PinControl;
                originalState := Some(backlight.value);
                break;
            }
          }
          ghost var noneFound := forall j :: 0 <= j < |BacklightPins| ==> BacklightPins[j] !in board.pins;
          if noneFound {
            ProbeNoMethod(board);
          }
        }
      }
    }

    /** `set_backlight(state)`: drive the selected surface on or off and
        return the requested state. */
    method SetBacklight(state: bool) returns (r: bool)
      requires Valid()
      modifies this`trace, display, backlight
      ensures Valid() && r == state
      ensures controlMethod == old(controlMethod) && Original() == old(Original())
      ensures trace == old(trace) + SetWrites(controlMethod, state)
      ensures Current() == Switched(controlMethod, state)
      ensures controlMethod != BrightnessControl && display != null ==>
                display.brightness == old(display.brightness)
    {
      if controlMethod == BrightnessControl {
        display.brightness := if state then 1.0 else 0.0;
        trace := trace + [BrightnessWrite(display.brightness)];
      } else if controlMethod == PinControl {
        backlight.value := state;
        trace := trace + [PinWrite(state)];
      }
      r := state;
    }

    /** `time.sleep(seconds)`, recorded in the log. */
    method Sleep(seconds: real)
      modifies this`trace
      ensures trace == old(trace) + [Pause(seconds)]
    {
      trace := trace + [Pause(seconds)];
    }

    /** `blink(count, onTime, offTime)`: nothing without a control method;
        else `count` blinks and then a restore. */
    method Blink(count: int, onTime: real, offTime: real)
      requires Valid()
      modifies this`trace, display, backlight
      ensures Valid()
      ensures controlMethod == old(controlMethod) && Original() == old(Original())
      ensures trace == old(trace) +
                BlinkTrace(controlMethod, count, onTime, offTime, originalBrightness, originalState)
      ensures Current() == Original()
      ensures controlMethod != BrightnessControl && display != null ==>
                display.brightness == old(display.brightness)
    {
      if controlMethod == NoControl {
        return;
      }
      var n := Iterations(count);
      for i := 0 to n
        invariant Valid()
        invariant trace == old(trace) + Cycles(controlMethod, i, onTime, offTime)
        invariant controlMethod != BrightnessControl && display != null ==>
                    display.brightness == old(display.brightness)
      {
        var on := SetBacklight(true);
        Sleep(onTime);
        var off := SetBacklight(false);
        Sleep(offTime);
      }
      RestoreOriginalState();
    }

    /** `blink()` called without arguments. */
    method BlinkDefaults()
      requires Valid()
      modifies this`trace, display, backlight
      ensures Valid()
      ensures controlMethod == old(controlMethod) && Original() == old(Original())
      ensures trace == old(trace) +
                BlinkTrace(controlMethod, DefaultCount, DefaultOnTime, DefaultOffTime,
                           originalBrightness, originalState)
      ensures Current() == Original()
      ensures controlMethod != BrightnessControl && display != null ==>
                display.brightness == old(display.brightness)
    {
      Blink(DefaultCount, DefaultOnTime, DefaultOffTime);
    }

    /** `restore_original_state()`: write the recorded original back
        exactly, or do nothing when there is no method or no original. */
    method RestoreOriginalState()
      requires Valid()
      modifies this`trace, display, backlight
      ensures Valid()
      ensures controlMethod == old(controlMethod) && Original() == old(Original())
      ensures trace == old(trace) + RestoreWrites(controlMethod, originalBrightness, originalState)
      ensures Current() == Original()
      ensures controlMethod != BrightnessControl && display != null ==>
                display.brightness == old(display.brightness)
    {
      if controlMethod == BrightnessControl && originalBrightness.Some? {
        display.brightness := originalBrightness.value;
        trace := trace + [BrightnessWrite(originalBrightness.value)];
      } else if controlMethod == PinControl && originalState.Some? {
        backlight.value := originalState.value;
        trace := trace + [PinWrite(originalState.value)];
      }
    }
  }
}
