/**
 * Terminal geometry and cells shared by the widgets: a rectangle of cells, a colour and the
 * content of one cell of the screen buffer.
 */
module Layout {
  import opened Numeric

  /** A rectangle of terminal cells; the coordinates are `u16` in the terminal library. */
  datatype Rect = Rect(x: nat, y: nat, width: nat, height: nat)

  /** The colours the widgets name, true colour, and `Other` for the remaining named colours. */
  datatype Color =
    | Reset | Black | Red | Green | Yellow | Blue | Magenta | Cyan | Gray | DarkGray | White
    | Rgb(r: Byte, g: Byte, b: Byte)
    | Other(code: nat)

  /** One cell of the screen buffer: its symbol and its foreground and background colours. */
  datatype Cell = Cell(symbol: char, fg: Color, bg: Color)
}
