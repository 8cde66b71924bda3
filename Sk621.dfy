/**
 * The Cooler Master SK621 keyboard of src/sk621.rs: a single-zone device that
 * stores a colour and sends it as one full-colour command on every display;
 * mode, speed and brightness are not supported.
 */
module Sk621Driver {
  import opened Colors

  const Sk621Name: string := "sk621"

  /**
   * `Sk621`: its name, its stored colour, and the full-colour commands sent
   * through the vendor SDK, oldest first.
   */
  class Sk621 {
    const name: string
    var color: Color
    var fullColorCommands: seq<Color>

    /** Named "sk621", black, nothing sent yet, once software control is claimed. */
    constructor ()
      ensures name == Sk621Name && color == Black && fullColorCommands == []
    {
      name := Sk621Name;
      color := NewColor(0, 0, 0);
      fullColorCommands := [];
    }

    method SetColor(c: Color)
      modifies this`color
      ensures color == c
    {
      color := c;
    }

    /** Not supported: nothing changes. */
    method SetMode(m: RgbMode)
      ensures unchanged(this)
    {
    }

    /** Not supported: nothing changes. */
    method SetSpeed(s: RgbSpeed)
      ensures unchanged(this)
    {
    }

    /** Not supported: nothing changes. */
    method SetBrightness(b: RgbBrightness)
      ensures unchanged(this)
    {
    }

    function GetName(): (n: string)
      ensures n == name
    {
      name
    }

    /** Sends exactly one full-colour command with the stored colour. */
    method Display()
      modifies this`fullColorCommands
      ensures fullColorCommands == old(fullColorCommands) + [color]
    {
      fullColorCommands := fullColorCommands + [color];
    }
  }

  /**
   * A new keyboard set to blue, asked for a mode, speed and brightness it
   * does not support, and displayed twice: both commands carry blue, and the
   * name is still "sk621".
   */
  method BlueTwice() returns (name: string, commands: seq<Color>)
    ensures name == "sk621"
    ensures commands == [Color(0, 0, 255), Color(0, 0, 255)]
  {
    var keyboard := new Sk621();
    keyboard.SetColor(NewColor(0, 0, 255));
    keyboard.SetMode(Static);
    keyboard.SetSpeed(Fast);
    keyboard.SetBrightness(Level10);
    keyboard.Display();
    keyboard.Display();
    name := keyboard.GetName();
    commands := keyboard.fullColorCommands;
  }
}
