/**
 * Colour themes: the fixed table of thirteen themes, the stored theme index (read back with
 * validation, written as a plain decimal), and the lines of the theme selector popup.
 */
module Theme {
  import opened Wrappers
  import opened Numeric
  import opened Text
  import opened Layout

  /** A named palette. */
  datatype Theme = Theme(name: string, accent: Color, secondary: Color, positive: Color,
                         negative: Color, text: Color, dimmed: Color)

  /** The themes, in the order the selector lists them; index 0 is the default. */
  const THEMES: seq<Theme> := [
    Theme("Default", Cyan, Yellow, Green, Red, White, DarkGray),
    Theme("Dracula", Rgb(189, 147, 249), Rgb(255, 121, 198), Rgb(80, 250, 123), Rgb(255, 85, 85), White, DarkGray),
    Theme("Nord", Rgb(136, 192, 208), Rgb(235, 203, 139), Rgb(163, 190, 140), Rgb(191, 97, 106), White, DarkGray),
    Theme("Gruvbox", Rgb(214, 153, 62), Rgb(250, 189, 47), Rgb(152, 151, 26), Rgb(204, 36, 29), White, DarkGray),
    Theme("Rose Pine", Rgb(235, 188, 186), Rgb(246, 193, 119), Rgb(156, 207, 216), Rgb(235, 111, 146), White, DarkGray),
    Theme("Catppuccin", Rgb(203, 166, 247), Rgb(249, 226, 175), Rgb(166, 227, 161), Rgb(243, 139, 168), White, DarkGray),
    Theme("Tokyo Night", Rgb(122, 162, 247), Rgb(224, 175, 104), Rgb(158, 206, 106), Rgb(247, 118, 142), White, DarkGray),
    Theme("Solarized", Rgb(38, 139, 210), Rgb(181, 137, 0), Rgb(133, 153, 0), Rgb(220, 50, 47), White, DarkGray),
    Theme("Monokai", Rgb(102, 217, 239), Rgb(230, 219, 116), Rgb(166, 226, 46), Rgb(249, 38, 114), White, DarkGray),
    Theme("One Dark", Rgb(97, 175, 239), Rgb(229, 192, 123), Rgb(152, 195, 121), Rgb(224, 108, 117), White, DarkGray),
    Theme("Kanagawa", Rgb(126, 156, 216), Rgb(230, 195, 132), Rgb(152, 187, 108), Rgb(255, 93, 98), White, DarkGray),
    Theme("Everforest", Rgb(127, 187, 179), Rgb(219, 188, 127), Rgb(167, 192, 128), Rgb(230, 126, 128), White, DarkGray),
    Theme("Synthwave", Rgb(255, 126, 219), Rgb(254, 222, 93), Rgb(114, 241, 184), Rgb(254, 68, 80), White, DarkGray)
  ]

  // ----- the stored index -----

  /**
   * `load_theme`, given the file's contents (None when it cannot be read): the trimmed text parsed
   * as a `usize`, kept only when it names a theme, and 0 otherwise.
   */
  function LoadTheme(stored: Option<string>): (index: nat)
    ensures index < |THEMES|
    ensures stored == None ==> index == 0
    ensures stored.Some? ==> match ParseUnsigned(Trim(stored.value), 10, USIZE_BOUND)
      case Some(v) => index == if v < |THEMES| then v else 0
      case None => index == 0
  {
    match stored
    case None => 0
    case Some(s) =>
      match ParseUnsigned(Trim(s), 10, USIZE_BOUND)
      case Some(v) => if v < |THEMES| then v else 0
      case None => 0
  }

  /** `save_theme`: the file's new contents, the index in decimal. */
  function SaveTheme(index: nat): (contents: string)
    ensures contents != [] && forall i :: 0 <= i < |contents| ==> IsDigit(contents[i])
  {
    NatToString(index)
  }

  /** Saving a theme index and loading it again gives the same theme. */
  lemma LoadSaveTheme(index: nat)
    requires index < |THEMES|
    ensures LoadTheme(Some(SaveTheme(index))) == index
  {
    ParseNatToString(index, USIZE_BOUND);
  }

  /** Text that is not a decimal number loads the default theme. */
  lemma LoadGarbage(s: string)
    requires ParseUnsigned(Trim(s), 10, USIZE_BOUND) == None
    ensures LoadTheme(Some(s)) == 0
  {
  }

  // ----- the selector -----

  /** The selector's popup: at most 42 wide and 17 high, centred in the screen. */
  function SelectorArea(screen: Rect): (r: Rect)
    ensures r.width == Min(42, screen.width) && r.height == Min(|THEMES| + 4, screen.height)
    ensures r.x + r.width <= screen.width && r.y + r.height <= screen.height
    ensures 2 * r.x <= screen.width - r.width <= 2 * r.x + 1
    ensures 2 * r.y <= screen.height - r.height <= 2 * r.y + 1
  {
    var w := Min(42, screen.width);
    var h := Min(|THEMES| + 4, screen.height);
    Rect(SatSub(screen.width, w) / 2, SatSub(screen.height, h) / 2, w, h)
  }

  /** The selection marker: ">> " on the selected row, three spaces on the others. */
  function Marker(isSelected: bool): (m: string)
    ensures |m| == 3
  {
    if isSelected then ">> " else "   "
  }

  /** One theme's row: marker, name padded to 14, four colour swatches, and " ◄" when selected. */
  function SelectorRow(t: Theme, isSelected: bool): (row: string)
    ensures |row| >= 3 && row[..3] == Marker(isSelected)
  {
    Marker(isSelected) + PadRight(t.name, 14) + " ██ ██ ██ ██" + (if isSelected then " ◄" else "")
  }

  /** The popup's lines: the selected theme's name as a header, a blank line, then one row per theme. */
  function SelectorLines(selected: nat): (lines: seq<string>)
    requires selected < |THEMES|
    ensures |lines| == |THEMES| + 2
    ensures lines[0] == "  " + THEMES[selected].name && lines[1] == ""
    ensures forall i :: 0 <= i < |THEMES| ==> lines[i + 2] == SelectorRow(THEMES[i], i == selected)
  {
    ["  " + THEMES[selected].name, ""] + seq(|THEMES|, i requires 0 <= i < |THEMES| => SelectorRow(THEMES[i], i == selected))
  }

  /** Exactly the selected theme's row carries the ">> " marker. */
  lemma SelectorMarksOne(selected: nat, i: nat)
    requires selected < |THEMES| && i < |THEMES|
    ensures SelectorLines(selected)[i + 2][..3] == ">> " <==> i == selected
  {
  }

  /** Every theme's name fits the 14-column name field. */
  lemma NamesFit(i: nat)
    requires i < |THEMES|
    ensures |THEMES[i].name| <= 14
  {
  }

  /** A row shows a name of at most 14 characters in a column of 14, starting after the marker. */
  lemma RowName(t: Theme, isSelected: bool)
    requires |t.name| <= 14
    ensures |SelectorRow(t, isSelected)| >= 17
    ensures SelectorRow(t, isSelected)[3..3 + |t.name|] == t.name
    ensures forall k :: 3 + |t.name| <= k < 17 ==> SelectorRow(t, isSelected)[k] == ' '
  {
    var padded := PadRight(t.name, 14);
    var row := SelectorRow(t, isSelected);
    assert row == Marker(isSelected) + padded + " ██ ██ ██ ██" + (if isSelected then " ◄" else "");
    assert row[3..17] == padded;
    assert row[3..3 + |t.name|] == padded[..|t.name|];
    forall k | 3 + |t.name| <= k < 17 ensures row[k] == ' ' {
      assert row[k] == padded[k - 3];
    }
  }

  /** Every row of the popup shows its theme's name in a column of 14, starting after the marker. */
  lemma SelectorRowName(selected: nat, i: nat)
    requires selected < |THEMES| && i < |THEMES|
    ensures |THEMES[i].name| <= 14
    ensures SelectorLines(selected)[i + 2][3..3 + |THEMES[i].name|] == THEMES[i].name
    ensures var row := SelectorLines(selected)[i + 2]; forall k :: 3 + |THEMES[i].name| <= k < 17 ==> row[k] == ' '
  {
    NamesFit(i);
    RowName(THEMES[i], i == selected);
  }
}
