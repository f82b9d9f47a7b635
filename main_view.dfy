/**
 * The main window's colour display: the current colour and the text of the
 * hex label beside the swatch.
 */
module MainView {
  import opened Wrappers
  import opened Colors

  /** The hex label's text for a colour. */
  function HexLabelText(c: Color): (text: string)
  {
    "Hex: " + HexName(c)
  }

  class ColorDisplay {
    var currentColor: Color
    var hexLabel: string

    /** The label always shows the hex code of the current colour. */
    ghost predicate Valid()
      reads this
    {
      hexLabel == HexLabelText(currentColor)
    }

    /** A new window shows white, `#FFFFFF`. */
    constructor ()
      ensures Valid() && currentColor == White && hexLabel == "Hex: #FFFFFF"
    {
      currentColor := White;
      hexLabel := "Hex: #FFFFFF";
      new;
      UpdateColorDisplay(Some(White));
    }

    /**
     * `update_color_display`: shows a valid colour and makes it current; an
     * invalid colour (`None`) is ignored and changes nothing.
     */
    method UpdateColorDisplay(color: Option<Color>)
      modifies this
      ensures color.None? ==> currentColor == old(currentColor) && hexLabel == old(hexLabel)
      ensures color.Some? ==> currentColor == color.value && Valid()
    {
      if color.None? {
        return;
      }
      currentColor := color.value;
      var hexCode := HexName(color.value);
      hexLabel := "Hex: " + hexCode;
    }
  }
}
