/** The pixel display, reduced to what the core does with it: clear it and
    forward brightness requests. The matrix driver behind it is not modelled,
    so the handler is a sink that keeps a log of those two calls. */
module Display {
  import opened Values

  class DisplayHandler {
    /** How many times the display has been cleared. */
    var clears: nat
    /** Every value passed to `set_brightness`, oldest first. */
    var brightnessRequests: seq<Value>

    constructor ()
      ensures clears == 0 && brightnessRequests == []
    {
      clears := 0;
      brightnessRequests := [];
    }

    method Clear()
      modifies this
      ensures clears == old(clears) + 1
      ensures brightnessRequests == old(brightnessRequests)
    {
      clears := clears + 1;
    }

    method SetBrightness(value: Value)
      modifies this
      ensures brightnessRequests == old(brightnessRequests) + [value]
      ensures clears == old(clears)
    {
      brightnessRequests := brightnessRequests + [value];
    }
  }
}
