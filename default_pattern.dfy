/**
 * The default pattern: every state hook paints all LEDs one colour, and
 * the error hook flashes red three times.
 */
module DefaultPattern {
  import opened Wrappers
  import opened MockLed
  import Engine

  const Black := Rgb(0, 0, 0)
  const White := Rgb(255, 255, 255)
  const Red := Rgb(255, 0, 0)
  const Yellow := Rgb(255, 255, 0)
  const Blue := Rgb(0, 0, 255)
  const Green := Rgb(0, 255, 0)

  /**
   * The colour a hook of this pattern leaves on every LED; None for the hooks
   * it does not override (the base class's no-ops).
   */
  function Paint(h: Engine.Hook): Option<Rgb>
  {
    match h
    case Idle => Some(Black)
    case Disconnected => Some(Red)
    case Wakeup => Some(Blue)
    case Listen => Some(Yellow)
    case Think => Some(Green)
    case Speak => Some(Black)
    case Error => Some(Black)
    case ClientConnected => None
    case ClientDisconnected => None
  }

  /** The colour the default pattern stands for in each state. */
  function StateColour(s: Engine.State): Rgb
  {
    match s
    case Disconnected => Red
    case Idle => Black
    case Listening => Yellow
    case Thinking => Green
    case Speaking => Black
  }

  /**
   * After a cycle that raised nothing, the LEDs show the colour of the new
   * state: the last hook the runner calls always paints, and paints that colour.
   */
  lemma ColourFollowsState(e: Engine.PatternEvent)
    ensures Paint(Engine.Hooks(e)[|Engine.Hooks(e)| - 1]) == Some(StateColour(Engine.NextState(e)))
  {
  }

  class LedPattern {
    const ctrl: LedController

    constructor (ctrl: LedController)
      ensures this.ctrl == ctrl
    {
      this.ctrl := ctrl;
    }

    /** `color`: writes `rgb` at full brightness to every LED, then shows. */
    method Color(rgb: Rgb)
      requires ctrl.Valid() && ctrl.Live()
      modifies ctrl.colors, ctrl`shown
      ensures ctrl.colors[..] == Uniform(ctrl.numLed, Lit(rgb, FullBright))
      ensures ctrl.shown == old(ctrl.shown) + [Some(Uniform(ctrl.numLed, Lit(rgb, FullBright)))]
    {
      for i := 0 to ctrl.numLed
        invariant forall j :: 0 <= j < i ==> ctrl.colors[j] == Lit(rgb, FullBright)
        invariant ctrl.shown == old(ctrl.shown)
      {
        var raised := ctrl.SetLedColor(i, rgb.red, rgb.green, rgb.blue);
      }
      assert ctrl.colors[..] == Uniform(ctrl.numLed, Lit(rgb, FullBright));
      ctrl.Show();
    }

    /** Three flashes of `c`, each followed by black. */
    method Flash(c: Rgb)
      requires ctrl.Valid() && ctrl.Live()
      modifies ctrl.colors, ctrl`shown
      ensures ctrl.colors[..] == Uniform(ctrl.numLed, Lit(Black, FullBright))
      ensures ctrl.shown == old(ctrl.shown) + Flashes(ctrl.numLed, Lit(c, FullBright), Lit(Black, FullBright), 3)
    {
      for k := 0 to 3
        invariant k > 0 ==> ctrl.colors[..] == Uniform(ctrl.numLed, Lit(Black, FullBright))
        invariant ctrl.shown == old(ctrl.shown) + Flashes(ctrl.numLed, Lit(c, FullBright), Lit(Black, FullBright), k)
      {
        Color(c);
        Color(Black);
        FlashesAppend(ctrl.numLed, Lit(c, FullBright), Lit(Black, FullBright), k);
      }
    }

    /** `satellite_connected`: three green flashes; never called by the runner. */
    method SatelliteConnected()
      requires ctrl.Valid() && ctrl.Live()
      modifies ctrl.colors, ctrl`shown
      ensures ctrl.colors[..] == Uniform(ctrl.numLed, Lit(Black, FullBright))
      ensures ctrl.shown == old(ctrl.shown) + Flashes(ctrl.numLed, Lit(Green, FullBright), Lit(Black, FullBright), 3)
    {
      Flash(Green);
    }

    /** `error`: three red flashes, ending black. */
    method Error()
      requires ctrl.Valid() && ctrl.Live()
      modifies ctrl.colors, ctrl`shown
      ensures ctrl.colors[..] == Uniform(ctrl.numLed, Lit(Black, FullBright))
      ensures ctrl.shown == old(ctrl.shown) + Flashes(ctrl.numLed, Lit(Red, FullBright), Lit(Black, FullBright), 3)
    {
      Flash(Red);
    }

    /** `off`: all black; never called by the runner. */
    method Off()
      requires ctrl.Valid() && ctrl.Live()
      modifies ctrl.colors, ctrl`shown
      ensures ctrl.colors[..] == Uniform(ctrl.numLed, Lit(Black, FullBright))
      ensures ctrl.shown == old(ctrl.shown) + [Some(ctrl.colors[..])]
    {
      Color(Black);
    }

    /**
     * The runner's call of hook `h` on this pattern: the overridden state
     * hooks paint the colour `Paint(h)`; `client_connected` and
     * `client_disconnected` are the base class's no-ops (this pattern's
     * `satellite_connected` has another name and is never reached).
     */
    method Perform(h: Engine.Hook)
      requires ctrl.Valid() && ctrl.Live()
      modifies ctrl.colors, ctrl`shown
      ensures Paint(h).Some? ==> ctrl.colors[..] == Uniform(ctrl.numLed, Lit(Paint(h).value, FullBright))
      ensures Paint(h).Some? && h != Engine.Hook.Error ==> ctrl.shown == old(ctrl.shown) + [Some(ctrl.colors[..])]
      ensures h == Engine.Hook.Error ==> ctrl.shown == old(ctrl.shown) + Flashes(ctrl.numLed, Lit(Red, FullBright), Lit(Black, FullBright), 3)
      ensures Paint(h).None? ==> ctrl.colors[..] == old(ctrl.colors[..]) && ctrl.shown == old(ctrl.shown)
    {
      match h
      case Idle => Color(Black);
      case Disconnected => Color(Red);
      case Wakeup => Color(Blue);
      case Listen => Color(Yellow);
      case Think => Color(Green);
      case Speak => Color(Black);
      case Error => Error();
      case ClientConnected =>
      case ClientDisconnected =>
    }
  }
}
