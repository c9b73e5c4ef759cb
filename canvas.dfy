/**
 * The drawing canvas, as far as the history store and the editors see it.
 * Rendering, hit-testing and the JSON format belong to the canvas library;
 * here the canvas only remembers what its content was last reset to
 * (`clear` or `loadFromJSON`), the objects added since, and whether
 * rubber-band multi-selection is on.
 */
module Canvas {
  import opened Common

  /** What the last reset of the canvas left on it. */
  datatype Base = Blank | Loaded(snapshot: Snapshot)

  class Canvas {
    var base: Base
    var added: seq<object>
    var selection: bool

    constructor ()
      ensures base == Blank && added == [] && selection
    {
      base := Blank;
      added := [];
      selection := true;
    }

    /** `canvas.clear()`: every object is removed. */
    method Clear()
      modifies this
      ensures base == Blank && added == [] && selection == old(selection)
    {
      base := Blank;
      added := [];
    }

    /** `canvas.loadFromJSON(s, ...)`: the content is rebuilt from a snapshot. */
    method LoadFromJson(s: Snapshot)
      modifies this
      ensures base == Loaded(s) && added == [] && selection == old(selection)
    {
      base := Loaded(s);
      added := [];
    }

    /** `canvas.add(o)`: the object is drawn on top of the current content. */
    method Add(o: object)
      modifies this
      ensures base == old(base) && added == old(added) + [o] && selection == old(selection)
    {
      added := added + [o];
    }
  }
}
