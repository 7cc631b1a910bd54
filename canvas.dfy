/** The 2D-canvas calls the renderer makes, recorded as values. The model
    says which calls are emitted and with which arguments, not what the
    canvas composites from them. */
module Canvas {

  /** One colour channel of a CSS `rgb(...)` string built from parsed text;
      `NaN` is what `parseInt` gives for a character that is not a hex digit. */
  datatype Channel = Num(v: int) | NaN

  datatype Paint =
    | Css(text: string)                          // a colour string such as '#b84'
    | Black(alpha: real)                          // 'rgba(0,0,0,alpha)'
    | Rgb(r: Channel, g: Channel, b: Channel)     // 'rgb(r,g,b)' built by darken
    | FogRamp(rgb: (int, int, int), y0: real, y1: real, maxAlpha: real) // vertical gradient in the fog colour, alpha maxAlpha at y0 down to 0 at y1
    | FogTint(alpha: real)                        // the colour a fog function returns for alpha

  /** A wall texture (or its pre-darkened variant) used as a drawImage source. */
  datatype Source = WallTexture(tile: int, dark: bool)

  datatype Op =
    | Fill(x: real, y: real, w: real, h: real, paint: Paint)
    | Blit(src: Source, sx: int, sy: int, sw: int, sh: int, x: real, y: real, w: real, h: real)
  {
    /** The destination column's left edge. */
    function Left(): real
    {
      match this
      case Fill(x, _, _, _, _) => x
      case Blit(_, _, _, _, _, x, _, _, _) => x
    }
  }
}
