/**
 * The mock LED controller: a fixed buffer of twelve (red, green, blue,
 * brightness) slots whose writes are bounds-checked, and whose `show`
 * prints the buffer.  The printed output is kept as a log of snapshots.
 */
module MockLed {
  import opened Wrappers

  /** One slot of the buffer, as the tuple (red, green, blue, bright_percent). */
  datatype Pixel = Pixel(red: int, green: int, blue: int, bright: int)

  /** A colour without brightness, as the pattern modules write it. */
  datatype Rgb = Rgb(red: int, green: int, blue: int)

  /** The pixel that `set_led_color(i, *rgb, bright)` stores. */
  function Lit(c: Rgb, bright: int): Pixel
  {
    Pixel(c.red, c.green, c.blue, bright)
  }

  /** Number of slots of the mock controller. */
  const NumLeds: nat := 12

  /** The value every slot holds after construction. */
  const Off: Pixel := Pixel(0, 0, 0, 0)

  /** Brightness used when `set_led_color` is called without one. */
  const FullBright: int := 100

  /** A buffer of `n` slots all holding `p`. */
  function Uniform(n: nat, p: Pixel): (s: seq<Pixel>)
    ensures |s| == n && forall j :: 0 <= j < n ==> s[j] == p
  {
    seq(n, _ => p)
  }

  /** The printed frames of `count` flashes: all `on`, then all `off`, repeated. */
  function Flashes(n: nat, on: Pixel, off: Pixel, count: nat): (frames: seq<Option<seq<Pixel>>>)
    ensures |frames| == 2 * count
    ensures forall k :: 0 <= k < |frames| ==> frames[k] == Some(Uniform(n, if k % 2 == 0 then on else off))
  {
    if count == 0 then []
    else [Some(Uniform(n, on)), Some(Uniform(n, off))] + Flashes(n, on, off, count - 1)
  }

  /** One more flash appends an `on` frame and an `off` frame. */
  lemma {:induction false} FlashesAppend(n: nat, on: Pixel, off: Pixel, k: nat)
    ensures Flashes(n, on, off, k + 1) == Flashes(n, on, off, k) + [Some(Uniform(n, on)), Some(Uniform(n, off))]
  {
    if k > 0 {
      FlashesAppend(n, on, off, k - 1);
    }
  }

  /** Every element of `s` is `p`. */
  ghost predicate AllAre(s: seq<Pixel>, p: Pixel)
  {
    forall j :: 0 <= j < |s| ==> s[j] == p
  }

  class LedController {
    /** `num_led`: the number of addressable slots. */
    const numLed: nat
    /** `_color`: the buffer; null once `cleanup` has run. */
    var colors: array?<Pixel>
    /** What `show` has printed so far, oldest first (None once the buffer is gone). */
    var shown: seq<Option<seq<Pixel>>>

    /** The buffer, when present, has one slot per LED. */
    ghost predicate Valid()
      reads this
    {
      colors != null ==> colors.Length == numLed
    }

    /** The buffer is present: `cleanup` has not run. */
    ghost predicate Live()
      reads this
    {
      colors != null && colors.Length == numLed
    }

    /** Twelve slots, all `(0, 0, 0, 0)`, nothing printed yet. */
    constructor ()
      ensures Valid() && Live() && fresh(colors)
      ensures numLed == NumLeds
      ensures AllAre(colors[..], Off)
      ensures shown == []
    {
      numLed := NumLeds;
      shown := [];
      var buf := new Pixel[NumLeds];
      for i := 0 to NumLeds
        invariant forall j :: 0 <= j < i ==> buf[j] == Off
      {
        buf[i] := Off;
      }
      colors := buf;
    }

    /**
     * `set_led_color`: an index outside 0..numLed-1 is ignored; an index
     * inside stores exactly the given tuple there and nothing else changes.
     * Writing into the buffer after `cleanup` raises (None is not
     * subscriptable); `raised` reports that.
     */
    method SetLedColor(ledNum: int, red: int, green: int, blue: int, brightPercent: int := FullBright)
      returns (raised: bool)
      requires Valid()
      modifies colors
      ensures raised <==> colors == null && 0 <= ledNum < numLed
      ensures colors != null && 0 <= ledNum < numLed ==>
        colors[..] == old(colors[..])[ledNum := Pixel(red, green, blue, brightPercent)]
      ensures colors != null && !(0 <= ledNum < numLed) ==> colors[..] == old(colors[..])
    {
      if ledNum < 0 || ledNum >= numLed {
        return false;
      }
      if colors == null {
        return true;
      }
      colors[ledNum] := Pixel(red, green, blue, brightPercent);
      raised := false;
    }

    /** `show`: prints the buffer and changes nothing else. */
    method Show()
      requires Valid()
      modifies this`shown
      ensures shown == old(shown) + [if colors == null then None else Some(colors[..])]
    {
      shown := shown + [if colors == null then None else Some(colors[..])];
    }

    /** `cleanup`: drops the buffer. */
    method Cleanup()
      requires Valid()
      modifies this`colors
      ensures Valid() && colors == null
    {
      colors := null;
    }
  }
}
