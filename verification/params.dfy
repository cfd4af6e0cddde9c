/** The plugin parameters. They are read once when the plugin loads and are
    fixed afterwards; every operation of the log takes them as an argument. */
module Params {

  datatype Params = Params(lineHeight: int, fontSize: int, iconSize: int, scrollSpeed: int)
  {
    /** Each parameter is a positive number of pixels (pixels per frame for
        the scroll speed). */
    predicate Valid() {
      lineHeight > 0 && fontSize > 0 && iconSize > 0 && scrollSpeed > 0
    }
  }

  /** A parameter set the plugin can actually run with. */
  type Config = p: Params | p.Valid() witness Params(36, 28, 32, 4)

  /** The defaults declared in the plugin header. */
  const Defaults: Config := Params(36, 28, 32, 4)

}
