/** The snake viewer app of home_led_matrix/apps/snake_app/snake_app.py as far
    as it is written: five run parameters with a getter and a setter each, a
    `stop` that clears the display, a `run` that does nothing, and two
    operations that are not implemented. Parameters hold whatever value a
    control message sets, so they are dynamically typed `Value`s. */
module Snake {
  import opened Values
  import opened Display

  /** The five parameters, as one value. */
  datatype Params = Params(nrSnakes: Value, food: Value, foodDecay: Value, fps: Value, mapName: Value)

  /** The parameters of a new app. */
  const Defaults := Params(Int(7), Int(15), Null, Int(10), Null)

  class SnakeApp {
    const display: DisplayHandler
    var nrSnakes: Value
    var food: Value
    var foodDecay: Value
    var fps: Value
    var mapName: Value

    function CurrentParams(): Params
      reads this
    {
      Params(nrSnakes, food, foodDecay, fps, mapName)
    }

    /** A new app has 7 snakes, 15 food, no food decay, 10 frames per second
        and no map. */
    constructor (display: DisplayHandler)
      ensures this.display == display
      ensures CurrentParams() == Defaults
    {
      this.display := display;
      nrSnakes := Int(7);
      food := Int(15);
      foodDecay := Null;
      fps := Int(10);
      mapName := Null;
    }

    /** Does nothing. */
    method Run() {}

    method Stop()
      modifies display
      ensures display.clears == old(display.clears) + 1
      ensures display.brightnessRequests == old(display.brightnessRequests)
    {
      display.Clear();
    }

    function GetFood(): Value reads this { food }
    function GetFoodDecay(): Value reads this { foodDecay }
    function GetFps(): Value reads this { fps }
    function GetMap(): Value reads this { mapName }
    function GetNrSnakes(): Value reads this { nrSnakes }

    /** Each setter is read back by its getter and changes no other parameter. */
    method SetFood(value: Value)
      modifies this
      ensures GetFood() == value
      ensures CurrentParams() == old(CurrentParams()).(food := value)
    {
      food := value;
    }

    method SetFoodDecay(value: Value)
      modifies this
      ensures GetFoodDecay() == value
      ensures CurrentParams() == old(CurrentParams()).(foodDecay := value)
    {
      foodDecay := value;
    }

    method SetFps(value: Value)
      modifies this
      ensures GetFps() == value
      ensures CurrentParams() == old(CurrentParams()).(fps := value)
    {
      fps := value;
    }

    method SetMap(value: Value)
      modifies this
      ensures GetMap() == value
      ensures CurrentParams() == old(CurrentParams()).(mapName := value)
    {
      mapName := value;
    }

    method SetNrSnakes(value: Value)
      modifies this
      ensures GetNrSnakes() == value
      ensures CurrentParams() == old(CurrentParams()).(nrSnakes := value)
    {
      nrSnakes := value;
    }

    /** Always raises NotImplementedError. */
    method GetMaps() returns (o: Outcome)
      ensures o == Raised(PyError(NotImplementedError, ""))
    {
      o := Raised(PyError(NotImplementedError, ""));
    }

    /** Always raises NotImplementedError. */
    method Restart() returns (o: Outcome)
      ensures o == Raised(PyError(NotImplementedError, ""))
    {
      o := Raised(PyError(NotImplementedError, ""));
    }
  }
}
