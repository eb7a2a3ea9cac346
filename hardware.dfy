/**
  The hardware the backlight controller talks to, as abstract state: the
  board's built-in display (which may or may not expose a brightness
  register), the named pins the board exposes, a digital pin once opened,
  and a log of the writes and sleeps the controller issues.
 */
module Hardware {
  import opened Wrappers

  /** The board's display object. Whether it has a `brightness` attribute is
      fixed for the life of the object; the brightness level itself can be
      written. */
  class Display {
    const hasBrightness: bool
    var brightness: real

    constructor (hasBrightness: bool, brightness: real)
      ensures this.hasBrightness == hasBrightness && this.brightness == brightness
    {
      this.hasBrightness := hasBrightness;
      this.brightness := brightness;
    }
  }

  /** A digital pin opened as `DigitalInOut` on the board pin called `pinName`. */
  class DigitalPin {
    const pinName: string
    var value: bool
    var isOutput: bool

    constructor (pinName: string, value: bool)
      ensures this.pinName == pinName && this.value == value && !isOutput
    {
      this.pinName := pinName;
      this.value := value;
      isOutput := false;
    }
  }

  /** What `getattr(board, name)` yields for a name the board has: a pin that
      opens and reads `level`, or an object `DigitalInOut` rejects with
      `TypeError`. */
  datatype PinAttr = Pin(level: bool) | NotAPin

  /** The `board` module. `display` is `None` when the board has no `DISPLAY`
      attribute (reading it raises `AttributeError`) and `Some(null)` when
      `DISPLAY` is Python's `None`. `pins` maps each pin name the board has. */
  datatype Board = Board(display: Option<Display?>, pins: map<string, PinAttr>)

  /** One observable effect of the controller: a brightness write, a pin
      write, or a sleep of the given number of seconds. */
  datatype Event = BrightnessWrite(level: real) | PinWrite(value: bool) | Pause(seconds: real)

  /** The value of the backlight control surface: a brightness level, or the
      level of the backlight pin. */
  datatype Setting = BrightnessAt(level: real) | PinAt(on: bool)

  /** The effect of one event on a control surface: a write to the matching
      kind of surface replaces its value; everything else leaves it alone. */
  function Apply(s: Setting, e: Event): (r: Setting)
    ensures r.BrightnessAt? == s.BrightnessAt?
    ensures e.Pause? ==> r == s
  {
    match e
    case BrightnessWrite(level) => if s.BrightnessAt? then BrightnessAt(level) else s
    case PinWrite(v) => if s.PinAt? then PinAt(v) else s
    case Pause(_) => s
  }

  /** The value of a control surface after the events `es`, in order. */
  function Replay(s: Setting, es: seq<Event>): Setting
    decreases |es|
  {
    if es == [] then s else Replay(Apply(s, es[0]), es[1..])
  }

  /** Replaying never changes which kind of surface it is. */
  lemma {:induction false} ReplayKeepsKind(s: Setting, es: seq<Event>)
    ensures Replay(s, es).BrightnessAt? == s.BrightnessAt?
    decreases |es|
  {
    if es != [] {
      ReplayKeepsKind(Apply(s, es[0]), es[1..]);
    }
  }

  /** Replaying two logs one after the other is replaying their concatenation. */
  lemma {:induction false} ReplayAppend(s: Setting, a: seq<Event>, b: seq<Event>)
    ensures Replay(s, a + b) == Replay(Replay(s, a), b)
    decreases |a|
  {
    if a != [] {
      assert (a + b)[0] == a[0];
      assert (a + b)[1..] == a[1..] + b;
      ReplayAppend(Apply(s, a[0]), a[1..], b);
    } else {
      assert a + b == b;
    }
  }

  /** The durations of the sleeps in a log, in order. */
  function Pauses(es: seq<Event>): seq<real>
    decreases |es|
  {
    if es == [] then []
    else (if es[0].Pause? then [es[0].seconds] else []) + Pauses(es[1..])
  }

  /** The sleeps of a concatenation are the sleeps of its parts. */
  lemma {:induction false} PausesAppend(a: seq<Event>, b: seq<Event>)
    ensures Pauses(a + b) == Pauses(a) + Pauses(b)
    decreases |a|
  {
    if a != [] {
      assert (a + b)[0] == a[0];
      assert (a + b)[1..] == a[1..] + b;
      PausesAppend(a[1..], b);
    } else {
      assert a + b == b;
    }
  }
}
