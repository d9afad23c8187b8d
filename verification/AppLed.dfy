/**
 * app_led.c: four LEDs whose on/off state is remembered in a shadow array,
 * because the board library can set a pin but cannot read it back.
 */
module Led {
  const LED_THREAD := 0
  const LED_ROLE := 1
  const LED_TX := 2
  const LED_RX := 3
  const LED_COUNT := 4

  /** One value per LED, indexed by the constants above. */
  type LedRow = r: seq<bool> | |r| == LED_COUNT witness [false, false, false, false]

  const ALL_OFF: LedRow := [false, false, false, false]

  class AppLed {
    /** The static shadow array. */
    const shadow: array<bool>
    /** What the GPIO pins really drive. */
    const pins: array<bool>

    ghost predicate Valid()
      reads this
    {
      shadow.Length == LED_COUNT && pins.Length == LED_COUNT && shadow != pins
    }

    function Shadow(): LedRow
      requires shadow.Length == LED_COUNT
      reads shadow
    {
      shadow[..]
    }

    function Pins(): LedRow
      requires pins.Length == LED_COUNT
      reads pins
    {
      pins[..]
    }

    /** Static storage starts at zero; the pins are whatever the reset left behind. */
    constructor (reset: LedRow)
      ensures Valid() && fresh(shadow) && fresh(pins)
      ensures Shadow() == ALL_OFF && Pins() == reset
    {
      shadow := new bool[LED_COUNT](_ => false);
      pins := new bool[LED_COUNT](i requires 0 <= i < LED_COUNT => reset[i]);
    }

    /** A failing `dk_leds_init` returns before any LED is written. */
    method Init(err: int)
      requires Valid()
      modifies shadow, pins
      ensures err == 0 ==> Shadow() == Pins() == ALL_OFF
      ensures err != 0 ==> Shadow() == old(Shadow()) && Pins() == old(Pins())
    {
      if err != 0 {
        return;
      }
      var i := 0;
      while i < LED_COUNT
        invariant 0 <= i <= LED_COUNT
        invariant forall k :: 0 <= k < i ==> !shadow[k] && !pins[k]
      {
        shadow[i] := false;
        pins[i] := false;
        i := i + 1;
      }
    }

    method Set(led: nat, on: bool)
      requires Valid() && led < LED_COUNT
      modifies shadow, pins
      ensures Shadow() == old(Shadow())[led := on]
      ensures Pins() == old(Pins())[led := on]
    {
      shadow[led] := on;
      pins[led] := on;
    }

    method Toggle(led: nat)
      requires Valid() && led < LED_COUNT
      modifies shadow, pins
      ensures Shadow() == old(Shadow()[led := !Shadow()[led]])
      ensures Pins() == old(Pins()[led := !Shadow()[led]])
    {
      Set(led, !shadow[led]);
    }
  }
}
