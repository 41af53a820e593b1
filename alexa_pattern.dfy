/**
 * The Alexa-style pattern: wipes from both ends towards the middle, a
 * growing white/blue wakeup trail, alternating blue/white sweeps while
 * thinking, a white fade while speaking and a slow red pulse while
 * disconnected.  Each animation loop runs while no new event is pending;
 * `quiet` is the number of times `has_pending_event()` answers "no" before
 * it first answers "yes".
 */
module AlexaPattern {
  import opened Wrappers
  import opened MockLed
  import Engine

  const Black := Rgb(0, 0, 0)
  const Blue := Rgb(0, 0, 255)
  const Red := Rgb(60, 0, 0)
  const Yellow := Rgb(255, 255, 0)
  const White := Rgb(255, 255, 255)

  /** The pixel every LED holds after a wipe: black at full brightness. */
  const Dark := Lit(Black, FullBright)

  /** Python's `round(n / 2)` for a natural n: a half goes to the even neighbour. */
  function HalfRounded(n: nat): (r: nat)
    ensures n <= 2 * r + 1 && 2 * r <= n + 1
    ensures n % 2 == 0 ==> 2 * r == n
    ensures n % 2 == 1 ==> r % 2 == 0
  {
    var k := n / 2;
    if n % 2 == 0 then k else if k % 2 == 0 then k else k + 1
  }

  // ---- speak: the fade of red and green between 255 and 0 ----

  /** The locals of `speak`'s loop: red, green and the direction they move in. */
  datatype Fade = Fade(red: int, green: int, direction: int)

  const FadeStart := Fade(255, 255, 1)

  /** One pass of `speak`'s loop after painting: step both channels, turn at either bound. */
  function FadeStep(f: Fade): Fade
  {
    var red := f.red - f.direction;
    var green := f.green - f.direction;
    Fade(red, green, if red >= 255 || red <= 0 then -f.direction else f.direction)
  }

  /** Red and green move together inside 0..255 and turn back at either bound. */
  ghost predicate FadeInv(f: Fade)
  {
    f.red == f.green && 0 <= f.red <= 255 &&
    (f.direction == 1 || f.direction == -1) &&
    (f.red == 0 ==> f.direction == -1) &&
    (f.red == 255 ==> f.direction == 1)
  }

  /** The fade after `k` passes of the loop. */
  function FadeAfter(k: nat): Fade
  {
    if k == 0 then FadeStart else FadeStep(FadeAfter(k - 1))
  }

  /** Red and green stay equal and inside 0..255 on every pass. */
  lemma {:induction false} FadeBounded(k: nat)
    ensures FadeInv(FadeAfter(k))
    ensures 0 <= FadeAfter(k).red == FadeAfter(k).green <= 255
  {
    if k > 0 {
      FadeBounded(k - 1);
    }
  }

  /** The direction flips exactly when the channels reach a bound. */
  lemma FadeTurnsAtBounds(f: Fade)
    requires FadeInv(f)
    ensures FadeStep(f).direction == -f.direction <==> FadeStep(f).red == 0 || FadeStep(f).red == 255
  {
  }

  // ---- disconnected: the pulse of red brightness between 2 and 40 ----

  /** The locals of `disconnected`'s loop: brightness and its step. */
  datatype Pulse = Pulse(brightness: int, step: int)

  const PulseMin := 2
  const PulseMax := 40
  const PulseStart := Pulse(PulseMax, 1)

  /** One pass of `disconnected`'s loop after painting: turn at either bound, then step. */
  function PulseStep(p: Pulse): Pulse
  {
    var step := if p.brightness <= PulseMin || p.brightness >= PulseMax then -p.step else p.step;
    Pulse(p.brightness + step, step)
  }

  /** The brightness stays inside [2, 40] and is heading back inwards at either bound. */
  ghost predicate PulseInv(p: Pulse)
  {
    PulseMin <= p.brightness <= PulseMax &&
    (p.step == 1 || p.step == -1) &&
    (p.brightness == PulseMin ==> p.step == -1) &&
    (p.brightness == PulseMax ==> p.step == 1)
  }

  /** The pulse after `k` passes of the loop. */
  function PulseAfter(k: nat): Pulse
  {
    if k == 0 then PulseStart else PulseStep(PulseAfter(k - 1))
  }

  /** The brightness painted on every pass lies in [2, 40]. */
  lemma {:induction false} PulseBounded(k: nat)
    ensures PulseInv(PulseAfter(k))
    ensures PulseMin <= PulseAfter(k).brightness <= PulseMax
  {
    if k > 0 {
      PulseBounded(k - 1);
    }
  }

  /** The step flips sign exactly when the brightness is at a bound. */
  lemma PulseTurnsAtBounds(p: Pulse)
    requires PulseInv(p)
    ensures PulseStep(p).step == -p.step <==> p.brightness == PulseMin || p.brightness == PulseMax
  {
  }

  // ---- think: alternating sweeps ----

  /** `(first, second)` during sweep `s`: blue/white, swapped after every sweep. */
  function SweepPair(s: nat): (Rgb, Rgb)
  {
    if s % 2 == 0 then (Blue, White) else (White, Blue)
  }

  /** What sweep `s` writes to LED `j` (loop index i = j + 1: `first` for even i). */
  function SweepColour(s: nat, j: nat): Rgb
  {
    if j % 2 == 1 then SweepPair(s).0 else SweepPair(s).1
  }

  /** Neighbouring LEDs differ within a sweep, and each LED changes colour from one sweep to the next. */
  lemma SweepAlternates(s: nat, j: nat)
    ensures SweepColour(s, j) != SweepColour(s, j + 1)
    ensures SweepColour(s, j) != SweepColour(s + 1, j)
    ensures SweepColour(s, j) == Blue <==> (j % 2 == 1) == (s % 2 == 0)
  {
  }

  /**
   * LED `j` after `full` complete sweeps and, when `partial`, a last sweep
   * interrupted after `cut` writes; `prev` is its colour before `think`.
   */
  function ThinkPixel(prev: Pixel, full: nat, partial: bool, cut: nat, j: nat): Pixel
  {
    if partial && j < cut then Lit(SweepColour(full, j), FullBright)
    else if full > 0 then Lit(SweepColour(full - 1, j), FullBright)
    else prev
  }

  /**
   * The buffer `prev` after step k of the wipe: LEDs 0..k and n-k..n-1 are
   * black, the rest as before.
   */
  function Wiped(prev: seq<Pixel>, k: int): (w: seq<Pixel>)
    ensures |w| == |prev|
  {
    seq(|prev|, j requires 0 <= j < |prev| => if j <= k || j >= |prev| - k then Dark else prev[j])
  }

  /** What the wipe prints: the buffer after each of its first m steps. */
  function WipeFrames(prev: seq<Pixel>, m: nat): (frames: seq<Option<seq<Pixel>>>)
    ensures |frames| == m
    ensures forall k :: 0 <= k < m ==> frames[k] == Some(Wiped(prev, k))
  {
    seq(m, k => Some(Wiped(prev, k)))
  }

  /** After the last step, round(n / 2), every LED is black. */
  lemma WipeCoversAll(prev: seq<Pixel>)
    ensures Wiped(prev, HalfRounded(|prev|)) == Uniform(|prev|, Dark)
  {
  }

  /** Splitting `q` into `f` rounds of `d` and a remainder `r < d` is division with remainder. */
  lemma SplitPolls(q: nat, d: nat, f: nat, r: nat)
    requires 0 <= r < d && q == f * d + r
    ensures f == q / d && r == q % d
  {
    if f < q / d {
      MulGap(f, q / d, d);
    } else if q / d < f {
      MulGap(q / d, f, d);
    }
  }

  /** A larger multiple of d exceeds a smaller one by at least d. */
  lemma {:induction false} MulGap(a: nat, b: nat, d: nat)
    requires a < b
    ensures a * d + d <= b * d
  {
    if a + 1 < b {
      MulGap(a, b - 1, d);
      assert (b - 1) * d + d == b * d;
    } else {
      assert (a + 1) * d == a * d + d;
    }
  }

  /**
   * The last step before `i` at which `wakeup` turns LED `j` of `n` white:
   * step j writes LED j, step n - j writes LED n - j.
   */
  function WhiteStep(n: int, j: int, i: int): int
  {
    if n - j < i && n - j > j then n - j
    else if j < i then j
    else n - j
  }

  /** `set_led_color` on the buffer `c`: an index outside it is ignored. */
  function Put(c: seq<Pixel>, k: int, p: Pixel): (r: seq<Pixel>)
    ensures |r| == |c|
  {
    if 0 <= k < |c| then c[k := p] else c
  }

  /** Step `i` of `wakeup`'s loop on the buffer `c`, at brightness 55 + 5i, writes in source order. */
  function WakeupStep(c: seq<Pixel>, i: nat): seq<Pixel>
  {
    var n := |c|;
    var b := 55 + 5 * i;
    var c1 := Put(c, i, Lit(White, b));
    var c2 := if i > 0 then Put(c1, n - i, Lit(White, b)) else c1;
    var c3 := if i > 1 then Put(c2, i - 2, Lit(Blue, b)) else c2;
    if i > 2 then Put(c3, n - i + 2, Lit(Blue, b)) else c3
  }

  /** After steps 0 .. i - 1 of `wakeup`: the blue trail from LED 0 brightens inwards. */
  ghost predicate BlueFromStart(c: seq<Pixel>, i: nat)
  {
    forall j :: 0 <= j < |c| && j + 3 <= i ==> c[j] == Lit(Blue, 65 + 5 * j)
  }

  /** After steps 0 .. i - 1 of `wakeup`: the blue trail from LED n - 1 brightens inwards. */
  ghost predicate BlueFromEnd(c: seq<Pixel>, i: nat)
  {
    forall j :: 1 <= j <= |c| && j + 3 <= i ==> c[|c| - j] == Lit(Blue, 65 + 5 * j)
  }

  /** After steps 0 .. i - 1 of `wakeup`: the white LEDs not yet turned blue, at their last step's brightness. */
  ghost predicate WhiteInside(c: seq<Pixel>, i: nat)
  {
    forall j :: 0 <= j < |c| && (j < i || j > |c| - i) && i < j + 3 && i < |c| - j + 3 ==>
      c[j] == Lit(White, 55 + 5 * WhiteStep(|c|, j, i))
  }

  /** The picture after steps 0 .. i - 1 of `wakeup`. */
  ghost predicate WakeupPicture(c: seq<Pixel>, i: nat)
  {
    BlueFromStart(c, i) && BlueFromEnd(c, i) && WhiteInside(c, i)
  }

  /** LED `j` after step `i`: the last of the step's writes that hits it, else unchanged. */
  lemma WakeupStepAt(c: seq<Pixel>, i: nat, j: nat)
    requires j < |c|
    ensures |WakeupStep(c, i)| == |c|
    ensures WakeupStep(c, i)[j] ==
      if i > 2 && j == |c| - i + 2 then Lit(Blue, 55 + 5 * i)
      else if i > 1 && j == i - 2 then Lit(Blue, 55 + 5 * i)
      else if i > 0 && j == |c| - i then Lit(White, 55 + 5 * i)
      else if j == i then Lit(White, 55 + 5 * i)
      else c[j]
  {
  }

  lemma {:induction false} BlueFromStartKept(c: seq<Pixel>, i: nat)
    requires 2 * i <= |c| + 1 && BlueFromStart(c, i)
    ensures BlueFromStart(WakeupStep(c, i), i + 1)
  {
    forall j | 0 <= j < |c| && j + 3 <= i + 1
      ensures WakeupStep(c, i)[j] == Lit(Blue, 65 + 5 * j)
    {
      WakeupStepAt(c, i, j);
    }
  }

  lemma {:induction false} BlueFromEndKept(c: seq<Pixel>, i: nat)
    requires 2 * i <= |c| + 1 && BlueFromEnd(c, i)
    ensures BlueFromEnd(WakeupStep(c, i), i + 1)
  {
    forall j | 1 <= j <= |c| && j + 3 <= i + 1
      ensures WakeupStep(c, i)[|c| - j] == Lit(Blue, 65 + 5 * j)
    {
      WakeupStepAt(c, i, |c| - j);
    }
  }

  lemma {:induction false} WhiteInsideKept(c: seq<Pixel>, i: nat)
    requires 2 * i <= |c| + 1 && WhiteInside(c, i)
    ensures WhiteInside(WakeupStep(c, i), i + 1)
  {
    var n := |c|;
    forall j | 0 <= j < n && (j < i + 1 || j > n - (i + 1)) && i + 1 < j + 3 && i + 1 < n - j + 3
      ensures WakeupStep(c, i)[j] == Lit(White, 55 + 5 * WhiteStep(n, j, i + 1))
    {
      WakeupStepAt(c, i, j);
      if j != i && !(i > 0 && j == n - i) {
        assert c[j] == Lit(White, 55 + 5 * WhiteStep(n, j, i));
      }
    }
  }

  /** Each step up to round(n / 2) keeps the picture. */
  lemma WakeupStepKeeps(c: seq<Pixel>, i: nat)
    requires i <= HalfRounded(|c|) && WakeupPicture(c, i)
    ensures WakeupPicture(WakeupStep(c, i), i + 1)
  {
    BlueFromStartKept(c, i);
    BlueFromEndKept(c, i);
    WhiteInsideKept(c, i);
  }

  class LedPattern {
    const ctrl: LedController
    /** `_active`: an animation has been started that `idle` must wipe away. */
    var active: bool

    constructor (ctrl: LedController)
      ensures this.ctrl == ctrl && !active
    {
      this.ctrl := ctrl;
      active := false;
    }

    /** `color`: the same pixel on every LED; shows only when `show` is true. */
    method Color(c: Rgb, brightness: int := FullBright, show: bool := true)
      requires ctrl.Valid() && ctrl.Live()
      modifies ctrl.colors, ctrl`shown
      ensures ctrl.colors[..] == Uniform(ctrl.numLed, Lit(c, brightness))
      ensures ctrl.shown == old(ctrl.shown) + if show then [Some(ctrl.colors[..])] else []
    {
      for i := 0 to ctrl.numLed
        invariant forall j :: 0 <= j < i ==> ctrl.colors[j] == Lit(c, brightness)
        invariant ctrl.shown == old(ctrl.shown)
      {
        var raised := ctrl.SetLedColor(i, c.red, c.green, c.blue, brightness);
      }
      assert ctrl.colors[..] == Uniform(ctrl.numLed, Lit(c, brightness));
      if show {
        ctrl.Show();
      }
    }

    /**
     * `stop`: clears `_active` and wipes to black from both ends, writing
     * LEDs i and n - i on step i = 0 .. round(n / 2) and showing each step;
     * LED n on step 0 is outside the buffer and ignored by the controller.
     * Every LED ends black.
     */
    method Stop()
      requires ctrl.Valid() && ctrl.Live()
      modifies this`active, ctrl.colors, ctrl`shown
      ensures !active
      ensures ctrl.colors[..] == Uniform(ctrl.numLed, Dark)
      ensures ctrl.shown == old(ctrl.shown) + WipeFrames(old(ctrl.colors[..]), HalfRounded(ctrl.numLed) + 1)
    {
      active := false;
      var n := ctrl.numLed;
      ghost var prev := ctrl.colors[..];
      for i := 0 to HalfRounded(n) + 1
        invariant !active
        invariant ctrl.colors[..] == Wiped(prev, i - 1)
        invariant ctrl.shown == old(ctrl.shown) + WipeFrames(prev, i)
      {
        ghost var before := ctrl.colors[..];
        var raised := ctrl.SetLedColor(i, Black.red, Black.green, Black.blue);
        ghost var middle := ctrl.colors[..];
        raised := ctrl.SetLedColor(n - i, Black.red, Black.green, Black.blue);
        forall j | 0 <= j < n
          ensures ctrl.colors[j] == Wiped(prev, i)[j]
        {
          assert |prev| == n;
          if j == n - i {
            assert ctrl.colors[j] == Dark;
          } else if j == i {
            assert ctrl.colors[j] == middle[j];
            assert middle[j] == Dark;
          } else {
            assert ctrl.colors[j] == middle[j] == before[j] == Wiped(prev, i - 1)[j];
          }
        }
        assert ctrl.colors[..] == Wiped(prev, i);
        ctrl.Show();
        assert WipeFrames(prev, i + 1) == WipeFrames(prev, i) + [Some(Wiped(prev, i))];
      }
      WipeCoversAll(prev);
    }

    /** `idle`: always leaves `_active` false and every LED black (by a wipe when it was active). */
    method Idle()
      requires ctrl.Valid() && ctrl.Live()
      modifies this`active, ctrl.colors, ctrl`shown
      ensures !active
      ensures ctrl.colors[..] == Uniform(ctrl.numLed, Dark)
      ensures ctrl.shown == old(ctrl.shown) +
        if old(active) then WipeFrames(old(ctrl.colors[..]), HalfRounded(ctrl.numLed) + 1)
        else [Some(Uniform(ctrl.numLed, Dark))]
    {
      var wasActive := active;
      active := false;
      if wasActive {
        Stop();
      } else {
        Color(Black);
      }
    }

    /** `client_connected`: all white at 80 %, then the wipe to black. */
    method ClientConnected()
      requires ctrl.Valid() && ctrl.Live()
      modifies this`active, ctrl.colors, ctrl`shown
      ensures !active
      ensures ctrl.colors[..] == Uniform(ctrl.numLed, Dark)
      ensures ctrl.shown == old(ctrl.shown) + [Some(Uniform(ctrl.numLed, Lit(White, 80)))] +
        WipeFrames(Uniform(ctrl.numLed, Lit(White, 80)), HalfRounded(ctrl.numLed) + 1)
    {
      Color(White, 80);
      Stop();
    }

    /** `error`: three red/black flashes, red again, then the wipe: all black, `_active` false. */
    method Error()
      requires ctrl.Valid() && ctrl.Live()
      modifies this`active, ctrl.colors, ctrl`shown
      ensures !active
      ensures ctrl.colors[..] == Uniform(ctrl.numLed, Dark)
      ensures ctrl.shown == old(ctrl.shown) + Flashes(ctrl.numLed, Lit(Red, FullBright), Dark, 3) +
        [Some(Uniform(ctrl.numLed, Lit(Red, FullBright)))] +
        WipeFrames(Uniform(ctrl.numLed, Lit(Red, FullBright)), HalfRounded(ctrl.numLed) + 1)
    {
      for f := 0 to 3
        invariant ctrl.shown == old(ctrl.shown) + Flashes(ctrl.numLed, Lit(Red, FullBright), Dark, f)
      {
        Color(Red);
        Color(Black);
        FlashesAppend(ctrl.numLed, Lit(Red, FullBright), Dark, f);
      }
      Color(Red);
      Stop();
    }

    /**
     * `wakeup`: sets `_active`; on step i = 0 .. round(n / 2), at brightness
     * 55 + 5i, LED i and (from step 1) LED n - i turn white and (from step
     * 2 and 3) LEDs i - 2 and n - i + 2 turn blue.  The blue trail ends at
     * LEDs j and n - j, j <= round(n / 2) - 2, at brightness 65 + 5j; the
     * LEDs between are white.
     */
    method Wakeup()
      requires ctrl.Valid() && ctrl.Live()
      modifies this`active, ctrl.colors, ctrl`shown
      ensures active
      ensures forall j :: 0 <= j && j + 2 <= HalfRounded(ctrl.numLed) ==>
        ctrl.colors[j] == Lit(Blue, 65 + 5 * j)
      ensures forall j :: 1 <= j && j + 2 <= HalfRounded(ctrl.numLed) ==>
        ctrl.colors[ctrl.numLed - j] == Lit(Blue, 65 + 5 * j)
      ensures forall j :: 0 <= j < ctrl.numLed && HalfRounded(ctrl.numLed) < j + 2 && j < ctrl.numLed - HalfRounded(ctrl.numLed) + 2 ==>
        ctrl.colors[j] == Lit(White, 55 + 5 * WhiteStep(ctrl.numLed, j, HalfRounded(ctrl.numLed) + 1))
      ensures old(ctrl.shown) <= ctrl.shown && |ctrl.shown| == |old(ctrl.shown)| + HalfRounded(ctrl.numLed) + 1
    {
      active := true;
      var n := ctrl.numLed;
      var brightness := 50;
      for i := 0 to HalfRounded(n) + 1
        invariant active
        invariant brightness == 50 + 5 * i
        invariant WakeupPicture(ctrl.colors[..], i)
        invariant old(ctrl.shown) <= ctrl.shown && |ctrl.shown| == |old(ctrl.shown)| + i
      {
        ghost var before := ctrl.colors[..];
        brightness := brightness + 5;
        WakeupWrites(i, brightness);
        WakeupStepKeeps(before, i);
        ctrl.Show();
      }
    }

    /** The writes of step `i` of `wakeup`'s loop, at `brightness`. */
    method WakeupWrites(i: nat, brightness: int)
      requires ctrl.Valid() && ctrl.Live() && brightness == 55 + 5 * i
      modifies ctrl.colors
      ensures ctrl.colors[..] == WakeupStep(old(ctrl.colors[..]), i)
    {
      var n := ctrl.numLed;
      var raised := ctrl.SetLedColor(i, White.red, White.green, White.blue, brightness);
      if i > 0 {
        raised := ctrl.SetLedColor(n - i, White.red, White.green, White.blue, brightness);
      }
      if i > 1 {
        raised := ctrl.SetLedColor(i - 2, Blue.red, Blue.green, Blue.blue, brightness);
        if i > 2 {
          raised := ctrl.SetLedColor(n - i + 2, Blue.red, Blue.green, Blue.blue, brightness);
        }
      }
    }

    /** `listen`: does nothing in this pattern. */
    method Listen()
    {
    }

    /**
     * `think`: sets `_active`; sweeps over the LEDs writing `first` to LED
     * i - 1 for even i and `second` for odd i (i = 1 .. n), shows, swaps
     * blue and white, and goes on until an event is pending.  The check
     * before each write can cut a sweep short.  With `quiet` "no" answers,
     * `full` sweeps complete and, when `partial`, a last one stops after
     * `cut` writes.
     */
    method Think(quiet: nat) returns (ghost full: nat, ghost partial: bool, ghost cut: nat)
      requires ctrl.Valid() && ctrl.Live()
      modifies this`active, ctrl.colors, ctrl`shown
      ensures active
      ensures quiet == full * (ctrl.numLed + 1) + if partial then cut + 1 else 0
      ensures full == quiet / (ctrl.numLed + 1)
      ensures partial <==> quiet % (ctrl.numLed + 1) != 0
      ensures partial ==> cut == quiet % (ctrl.numLed + 1) - 1
      ensures forall j :: 0 <= j < ctrl.numLed ==>
        ctrl.colors[j] == ThinkPixel(old(ctrl.colors[j]), full, partial, cut, j)
      ensures old(ctrl.shown) <= ctrl.shown
    {
      active := true;
      var n := ctrl.numLed;
      var first, second := Blue, White;
      var polls := 0;
      full, partial, cut := 0, false, 0;
      while polls < quiet
        invariant active
        invariant polls <= quiet
        invariant polls == full * (n + 1) + if partial then cut + 1 else 0
        invariant partial ==> polls == quiet && cut < n
        invariant (first, second) == SweepPair(full + if partial then 1 else 0)
        invariant forall j :: 0 <= j < n ==> ctrl.colors[j] == ThinkPixel(old(ctrl.colors[j]), full, partial, cut, j)
        invariant old(ctrl.shown) <= ctrl.shown
        decreases quiet - polls
      {
        polls := polls + 1;
        var written;
        polls, written := SweepOnce(first, second, polls, quiet, full);
        ctrl.Show();
        if written < n {
          partial, cut := true, written;
        } else {
          full := full + 1;
        }
        if first == Blue {
          first, second := White, Blue;
        } else {
          first, second := Blue, White;
        }
      }
      SplitPolls(quiet, n + 1, full, if partial then cut + 1 else 0);
    }

    /**
     * One pass of `think`'s `for` loop: before each write it asks whether an
     * event is pending (`polls` answers used so far, the first "yes" after
     * `quiet`), then writes LED i - 1 with `first` for even i and `second`
     * for odd i.  `written` LEDs are written, all of them unless the answers
     * ran out.
     */
    method SweepOnce(first: Rgb, second: Rgb, polls0: nat, quiet: nat, ghost s: nat) returns (polls: nat, written: nat)
      requires ctrl.Valid() && ctrl.Live() && (first, second) == SweepPair(s) && polls0 <= quiet
      modifies ctrl.colors
      ensures written <= ctrl.numLed && polls == polls0 + written && polls <= quiet
      ensures written < ctrl.numLed ==> polls == quiet
      ensures forall j :: 0 <= j < ctrl.numLed ==>
        ctrl.colors[j] == if j < written then Lit(SweepColour(s, j), FullBright) else old(ctrl.colors[j])
    {
      var n := ctrl.numLed;
      polls := polls0;
      var i := 1;
      while i <= n
        invariant 1 <= i <= n + 1
        invariant polls == polls0 + i - 1 && polls <= quiet
        invariant forall j :: 0 <= j < n ==>
          ctrl.colors[j] == if j < i - 1 then Lit(SweepColour(s, j), FullBright) else old(ctrl.colors[j])
      {
        if polls >= quiet {
          break;
        }
        polls := polls + 1;
        var raised;
        if i % 2 == 0 {
          raised := ctrl.SetLedColor(i - 1, first.red, first.green, first.blue);
        } else {
          raised := ctrl.SetLedColor(i - 1, second.red, second.green, second.blue);
        }
        i := i + 1;
      }
      written := i - 1;
    }

    /**
     * `speak`: sets `_active`; all white without showing, then, until an
     * event is pending, paints every LED (red, green, 255) and steps the
     * fade.  Red and green stay equal and inside 0..255.
     */
    method Speak(quiet: nat)
      requires ctrl.Valid() && ctrl.Live()
      modifies this`active, ctrl.colors, ctrl`shown
      ensures active
      ensures quiet == 0 ==> ctrl.colors[..] == Uniform(ctrl.numLed, Lit(White, FullBright))
      ensures quiet > 0 ==>
        ctrl.colors[..] == Uniform(ctrl.numLed, Lit(Rgb(FadeAfter(quiet - 1).red, FadeAfter(quiet - 1).green, 255), FullBright))
      ensures forall j :: 0 <= j < ctrl.numLed ==>
        ctrl.colors[j].red == ctrl.colors[j].green && 0 <= ctrl.colors[j].red <= 255 && ctrl.colors[j].blue == 255
      ensures |ctrl.shown| == |old(ctrl.shown)| + quiet
    {
      active := true;
      var fade := FadeStart;
      Color(White, show := false);
      var polls := 0;
      while polls < quiet
        invariant active
        invariant polls <= quiet
        invariant fade == FadeAfter(polls)
        invariant polls == 0 ==> ctrl.colors[..] == Uniform(ctrl.numLed, Lit(White, FullBright))
        invariant polls > 0 ==>
          ctrl.colors[..] == Uniform(ctrl.numLed, Lit(Rgb(FadeAfter(polls - 1).red, FadeAfter(polls - 1).green, 255), FullBright))
        invariant |ctrl.shown| == |old(ctrl.shown)| + polls
      {
        Color(Rgb(fade.red, fade.green, 255));
        fade := FadeStep(fade);
        polls := polls + 1;
      }
      if quiet > 0 {
        FadeBounded(quiet - 1);
      }
    }

    /**
     * `disconnected`: until an event is pending, paints every LED red at the
     * pulse's brightness and steps the pulse; the brightness stays in [2, 40].
     */
    method Disconnected(quiet: nat)
      requires ctrl.Valid() && ctrl.Live()
      modifies ctrl.colors, ctrl`shown
      ensures quiet == 0 ==> ctrl.colors[..] == old(ctrl.colors[..])
      ensures quiet > 0 ==> ctrl.colors[..] == Uniform(ctrl.numLed, Lit(Red, PulseAfter(quiet - 1).brightness))
      ensures quiet > 0 ==> forall j :: 0 <= j < ctrl.numLed ==> PulseMin <= ctrl.colors[j].bright <= PulseMax
      ensures |ctrl.shown| == |old(ctrl.shown)| + quiet
    {
      var pulse := PulseStart;
      var polls := 0;
      while polls < quiet
        invariant polls <= quiet
        invariant pulse == PulseAfter(polls)
        invariant polls == 0 ==> ctrl.colors[..] == old(ctrl.colors[..])
        invariant polls > 0 ==> ctrl.colors[..] == Uniform(ctrl.numLed, Lit(Red, PulseAfter(polls - 1).brightness))
        invariant |ctrl.shown| == |old(ctrl.shown)| + polls
      {
        Color(Red, pulse.brightness);
        pulse := PulseStep(pulse);
        polls := polls + 1;
      }
      if quiet > 0 {
        PulseBounded(quiet - 1);
      }
    }

    /**
     * The runner's call of hook `h` on this pattern; `listen` and the base
     * class's `client_disconnected` do nothing.  After `idle`,
     * `client_connected` and `error` every LED is black and `_active` is false.
     */
    method Perform(h: Engine.Hook, quiet: nat)
      requires ctrl.Valid() && ctrl.Live()
      modifies this`active, ctrl.colors, ctrl`shown
      ensures h in {Engine.Hook.Idle, Engine.Hook.ClientConnected, Engine.Hook.Error} ==>
        !active && ctrl.colors[..] == Uniform(ctrl.numLed, Dark)
      ensures h in {Engine.Hook.Wakeup, Engine.Hook.Think, Engine.Hook.Speak} ==> active
      ensures h in {Engine.Hook.Listen, Engine.Hook.ClientDisconnected} ==>
        active == old(active) && ctrl.colors[..] == old(ctrl.colors[..]) && ctrl.shown == old(ctrl.shown)
      ensures h == Engine.Hook.Disconnected ==> active == old(active)
    {
      match h
      case Idle => Idle();
      case ClientConnected => ClientConnected();
      case Error => Error();
      case Wakeup => Wakeup();
      case Think => var full, partial, cut := Think(quiet);
      case Speak => Speak(quiet);
      case Disconnected => Disconnected(quiet);
      case Listen => Listen();
      case ClientDisconnected =>
    }
  }
}
