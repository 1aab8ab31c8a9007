/**
 * The "Now Playing" panel: the height of the compact bar (title line and metadata line, each
 * wrapped to the inner width), and the album-art overlay drawn with half blocks over the
 * visualizer, blended into what is already on screen.
 */
module NowPlaying {
  import opened Wrappers
  import opened Numeric
  import opened Text
  import opened Layout

  const ART_ROWS: nat := 16
  /** Two columns per row keep the art square. */
  const ART_COLS: nat := ART_ROWS * 2

  /** The tags of the playing track the panel shows. */
  datatype TrackMeta = TrackMeta(artist: Option<string>, album: Option<string>, date: Option<string>, genre: Option<string>)

  /** The separator between metadata parts: two spaces, a middle dot, two spaces. */
  const META_SEPARATOR: string := "  ·  "

  // ----- metadata parts -----

  /** The value of a field, as a list of zero or one part. */
  function Opt(o: Option<string>): seq<string> {
    if o.Some? then [o.value] else []
  }

  /** The values present among `fields`, in order. */
  function Present(fields: seq<Option<string>>): (r: seq<string>)
    ensures |r| <= |fields|
  {
    if fields == [] then [] else Opt(fields[0]) + Present(fields[1..])
  }

  /** No part is left exactly when every field is absent. */
  lemma {:induction false} PresentEmpty(fields: seq<Option<string>>)
    ensures Present(fields) == [] <==> forall k :: 0 <= k < |fields| ==> fields[k] == None
  {
    if fields != [] {
      PresentEmpty(fields[1..]);
      assert forall k :: 1 <= k < |fields| ==> fields[k] == fields[1..][k - 1];
    }
  }

  /** `if let Some(v) = o { parts.push(v) }`. */
  function PushIf(parts: seq<string>, o: Option<string>): (r: seq<string>)
    ensures r == parts + Opt(o)
  {
    if o.Some? then parts + [o.value] else parts
  }

  /** The parts pushed one by one: artist, album, date, genre, each only when present. */
  function MetaParts(meta: TrackMeta): (parts: seq<string>)
    ensures parts == Present([meta.artist, meta.album, meta.date, meta.genre])
  {
    var parts := PushIf(PushIf(PushIf(PushIf([], meta.artist), meta.album), meta.date), meta.genre);
    PresentFour(meta.artist, meta.album, meta.date, meta.genre);
    parts
  }

  lemma PresentFour(a: Option<string>, b: Option<string>, c: Option<string>, d: Option<string>)
    ensures Present([a, b, c, d]) == Opt(a) + Opt(b) + Opt(c) + Opt(d)
  {
    PresentHead(d, []);
    assert [d] == [d] + [];
    PresentHead(c, [d]);
    assert [c, d] == [c] + [d];
    PresentHead(b, [c, d]);
    assert [b, c, d] == [b] + [c, d];
    PresentHead(a, [b, c, d]);
    assert [a, b, c, d] == [a] + [b, c, d];
    var x, y, z, t := Opt(a), Opt(b), Opt(c), Opt(d);
    assert t + [] == t;
    ConcatAssoc(y, z, t);
    ConcatAssoc(x, y + z, t);
    ConcatAssoc(x, y, z);
  }

  lemma ConcatAssoc(p: seq<string>, q: seq<string>, r: seq<string>)
    ensures p + (q + r) == p + q + r
  {
  }

  lemma PresentHead(x: Option<string>, rest: seq<Option<string>>)
    ensures Present([x] + rest) == Opt(x) + Present(rest)
  {
    assert ([x] + rest)[1..] == rest;
  }

  /** The metadata order: a part ahead of another comes from an earlier field. */
  lemma {:induction false} PresentOrder(fields: seq<Option<string>>, i: nat, j: nat)
    requires i < j < |fields| && fields[i].Some? && fields[j].Some?
    ensures exists a, b :: (0 <= a < b < |Present(fields)|
      && Present(fields)[a] == fields[i].value && Present(fields)[b] == fields[j].value)
  {
    var head := Opt(fields[0]);
    var r := Present(fields);
    assert r == head + Present(fields[1..]);
    if i == 0 {
      PresentHas(fields[1..], j - 1);
      var b :| 0 <= b < |Present(fields[1..])| && Present(fields[1..])[b] == fields[j].value;
      assert r[0] == fields[i].value && r[|head| + b] == fields[j].value;
    } else {
      PresentOrder(fields[1..], i - 1, j - 1);
      var a, b :| 0 <= a < b < |Present(fields[1..])|
        && Present(fields[1..])[a] == fields[i].value && Present(fields[1..])[b] == fields[j].value;
      assert r[|head| + a] == fields[i].value && r[|head| + b] == fields[j].value;
    }
  }

  /** Every present value is among the parts. */
  lemma {:induction false} PresentHas(fields: seq<Option<string>>, i: nat)
    requires i < |fields| && fields[i].Some?
    ensures exists b :: 0 <= b < |Present(fields)| && Present(fields)[b] == fields[i].value
  {
    var head := Opt(fields[0]);
    var r := Present(fields);
    assert r == head + Present(fields[1..]);
    if i == 0 {
      assert r[0] == fields[0].value;
    } else {
      PresentHas(fields[1..], i - 1);
      var b :| 0 <= b < |Present(fields[1..])| && Present(fields[1..])[b] == fields[i].value;
      assert r[|head| + b] == fields[i].value;
    }
  }

  /** Every part is one of the present values. */
  lemma {:induction false} PresentFrom(fields: seq<Option<string>>, b: nat)
    requires b < |Present(fields)|
    ensures exists i :: 0 <= i < |fields| && fields[i] == Some(Present(fields)[b])
  {
    var head := Opt(fields[0]);
    var r := Present(fields);
    assert r == head + Present(fields[1..]);
    if b < |head| {
      assert fields[0] == Some(r[b]);
    } else {
      PresentFrom(fields[1..], b - |head|);
      var i :| 0 <= i < |fields[1..]| && fields[1..][i] == Some(Present(fields[1..])[b - |head|]);
      assert fields[i + 1] == Some(r[b]);
    }
  }

  /** Sum of the lengths of some strings. */
  function TotalLen(parts: seq<string>): nat {
    if parts == [] then 0 else |parts[0]| + TotalLen(parts[1..])
  }

  /** A join is as long as its parts plus one separator between each two. */
  lemma {:induction false} JoinLength(parts: seq<string>, sep: string)
    requires parts != []
    ensures |Join(parts, sep)| == TotalLen(parts) + |sep| * (|parts| - 1)
  {
    if |parts| > 1 {
      JoinLength(parts[1..], sep);
    } else {
      assert parts[1..] == [];
    }
  }

  /** The metadata line's text. */
  function MetaLine(meta: TrackMeta): string {
    Join(MetaParts(meta), META_SEPARATOR)
  }

  // ----- now_playing_height -----

  /** `max(ceil(w / inner), 1)`: the rows a line of width `w` takes when wrapped to `inner` columns. */
  function Rows(w: nat, inner: nat): (r: nat)
    requires inner > 0
    ensures r >= 1
    ensures w > 0 ==> (r - 1) * inner < w <= r * inner
    ensures w <= inner ==> r == 1
  {
    var q := (w + inner - 1) / inner;
    CeilDiv(w, inner);
    if q >= 1 then q else 1
  }

  lemma CeilDiv(w: nat, inner: nat)
    requires inner > 0
    ensures var q := (w + inner - 1) / inner;
      (w > 0 ==> q >= 1 && (q - 1) * inner < w <= q * inner) && (w <= inner ==> q <= 1)
  {
    var n := w + inner - 1;
    var q, rem := n / inner, n % inner;
    assert q * inner + rem == n && 0 <= rem < inner;
    assert (q - 1) * inner == q * inner - inner;
  }

  /** The width of the title line: status, gap, file name and, when known, "  cur/total". */
  function TitleWidth(fileName: string, trackPos: Option<(nat, nat)>): nat {
    |" Playing "| + |"  "| + |fileName|
      + match trackPos
        case Some((cur, total)) => |"  " + NatToString(cur) + "/" + NatToString(total)|
        case None => 0
  }

  /** The rows the metadata line takes: none without metadata, else its wrapped height after a 9-space indent. */
  function MetaRows(meta: TrackMeta, inner: nat): nat
    requires inner > 0
  {
    if MetaParts(meta) == [] then 0 else Rows(|"         "| + |MetaLine(meta)|, inner)
  }

  /** `now_playing_height`: the title rows, the metadata rows and the two border rows. */
  function NowPlayingHeight(meta: TrackMeta, fileName: string, trackPos: Option<(nat, nat)>, width: nat): (h: nat)
    ensures h >= 3
    ensures width <= 2 ==> h == 3
    ensures width > 2 ==> h == Rows(TitleWidth(fileName, trackPos), width - 2) + MetaRows(meta, width - 2) + 2
  {
    var inner := SatSub(width, 2);
    if inner == 0 then 3
    else Rows(TitleWidth(fileName, trackPos), inner) + MetaRows(meta, inner) + 2
  }

  /** The metadata line takes no row exactly when no tag is present. */
  lemma MetaRowsZero(meta: TrackMeta, inner: nat)
    requires inner > 0
    ensures MetaRows(meta, inner) == 0 <==> meta.artist.None? && meta.album.None? && meta.date.None? && meta.genre.None?
  {
    var fields := [meta.artist, meta.album, meta.date, meta.genre];
    PresentEmpty(fields);
    if MetaParts(meta) == [] {
      assert forall k :: 0 <= k < 4 ==> fields[k] == None;
      assert fields[0] == meta.artist && fields[1] == meta.album && fields[2] == meta.date && fields[3] == meta.genre;
    }
  }

  /** Without metadata and with a wide enough panel the bar is three rows: one line between the borders. */
  lemma OneTitleRow(meta: TrackMeta, fileName: string, trackPos: Option<(nat, nat)>, width: nat)
    requires meta == TrackMeta(None, None, None, None)
    requires width > 2 && TitleWidth(fileName, trackPos) <= width - 2
    ensures NowPlayingHeight(meta, fileName, trackPos, width) == 3
  {
    MetaRowsZero(meta, width - 2);
  }

  // ----- the album-art overlay -----

  /** One pixel of the art. */
  datatype Pixel = Pixel(r: Byte, g: Byte, b: Byte)

  /** `color_to_rgb`: true colours as they are, the eight basic colours by their usual values, others black. */
  function ColorToRgb(c: Color): (p: Pixel)
    ensures c.Rgb? ==> p == Pixel(c.r, c.g, c.b)
    ensures c in {Black, Red, Green, Yellow, Blue, Magenta, Cyan, White, DarkGray} ==>
      p.r in {0, 205, 229, 127} && p.g in {0, 205, 229, 127} && p.b in {0, 205, 238, 229, 127}
    ensures c in {Reset, Gray} || c.Other? ==> p == Pixel(0, 0, 0)
    ensures c in {Black, Red, Green, Yellow, Blue, Magenta, Cyan, White, DarkGray} && p == Pixel(0, 0, 0) ==> c == Black
  {
    match c
    case Rgb(r, g, b) => Pixel(r, g, b)
    case Black => Pixel(0, 0, 0)
    case Red => Pixel(205, 0, 0)
    case Green => Pixel(0, 205, 0)
    case Yellow => Pixel(205, 205, 0)
    case Blue => Pixel(0, 0, 238)
    case Magenta => Pixel(205, 0, 205)
    case Cyan => Pixel(0, 205, 205)
    case White => Pixel(229, 229, 229)
    case DarkGray => Pixel(127, 127, 127)
    case _ => Pixel(0, 0, 0)
  }

  /** `blend`: the art channel weighted by the opacity over the existing one, cast back to a byte. */
  function Blend(art: Byte, bg: Byte, opacity: real): (r: Byte)
    ensures 0.0 <= opacity <= 1.0 ==> Min(art as int, bg as int) <= r as int <= Max(art as int, bg as int)
    ensures opacity == 1.0 ==> r == art
    ensures opacity == 0.0 ==> r == bg
  {
    var x := art as real * opacity + bg as real * (1.0 - opacity);
    var r := Min(CastUnsigned(x), 255) as Byte;
    if 0.0 <= opacity <= 1.0 then
      BlendBetween(art, bg, opacity);
      CastBetween(x, Min(art as int, bg as int), Max(art as int, bg as int));
      r
    else r
  }

  /** A value between two whole numbers casts to a whole number between them. */
  lemma CastBetween(x: real, lo: int, hi: int)
    requires 0 <= lo && lo as real <= x <= hi as real
    ensures lo <= CastUnsigned(x) <= hi
  {
  }

  /** Weighting two channels by `o` and `1 - o` lands between them. */
  lemma BlendBetween(a: Byte, b: Byte, o: real)
    requires 0.0 <= o <= 1.0
    ensures Min(a as int, b as int) as real <= a as real * o + b as real * (1.0 - o) <= Max(a as int, b as int) as real
  {
    var x, y := a as real, b as real;
    assert x * o + y * (1.0 - o) == y + (x - y) * o;
    var d := if a <= b then y - x else x - y;
    MulNonNegative(d, o);
    MulNonNegative(d, 1.0 - o);
    assert d * (1.0 - o) == d - d * o;
  }

  lemma MulNonNegative(p: real, q: real)
    requires p >= 0.0 && q >= 0.0
    ensures p * q >= 0.0
  {
  }

  /** A pixel blended channel by channel onto an existing colour. */
  function BlendPixel(art: Pixel, existing: Color, opacity: real): Color {
    var ex := ColorToRgb(existing);
    Rgb(Blend(art.r, ex.r, opacity), Blend(art.g, ex.g, opacity), Blend(art.b, ex.b, opacity))
  }

  /** The rows of text cells the art has: two pixel rows per cell. */
  function ArtRows(pixels: seq<seq<Pixel>>): nat {
    |pixels| / 2
  }

  /** The columns the art has: the length of its first pixel row. */
  function ArtCols(pixels: seq<seq<Pixel>>): nat {
    if pixels == [] then 0 else |pixels[0]|
  }

  /** Every pixel row is at least as long as the first, so every column the widget reads exists. */
  predicate Rectangular(pixels: seq<seq<Pixel>>) {
    forall r :: 0 <= r < |pixels| ==> |pixels[r]| >= ArtCols(pixels)
  }

  /** The lower pixel of a cell: the next pixel row, or the upper pixel when there is none. */
  function BottomPixel(pixels: seq<seq<Pixel>>, cx: nat, cy: nat): Pixel
    requires Rectangular(pixels) && cx < ArtCols(pixels) && 2 * cy < |pixels|
  {
    if 2 * cy + 1 < |pixels| then pixels[2 * cy + 1][cx] else pixels[2 * cy][cx]
  }

  /** Within the rows drawn, the lower pixel always comes from the next pixel row; the fallback is never used. */
  lemma BottomPixelPresent(pixels: seq<seq<Pixel>>, cx: nat, cy: nat)
    requires Rectangular(pixels) && cx < ArtCols(pixels) && cy < ArtRows(pixels)
    ensures 2 * cy + 1 < |pixels| && BottomPixel(pixels, cx, cy) == pixels[2 * cy + 1][cx]
  {
  }

  /** The half-block cell for art cell (cx, cy), blended onto the cell already on screen. */
  function ArtCell(pixels: seq<seq<Pixel>>, cx: nat, cy: nat, existing: Cell, opacity: real): Cell
    requires Rectangular(pixels) && cx < ArtCols(pixels) && 2 * cy < |pixels|
  {
    Cell('▀', BlendPixel(pixels[2 * cy][cx], existing.fg, opacity),
      BlendPixel(BottomPixel(pixels, cx, cy), existing.bg, opacity))
  }

  /** Whether buffer cell (i, j) is one the widget draws on `area`. */
  predicate InArt(area: Rect, pixels: seq<seq<Pixel>>, i: int, j: int) {
    area.x <= i < area.x + Min(area.width, ArtCols(pixels)) && area.y <= j < area.y + Min(area.height, ArtRows(pixels))
  }

  /**
   * `AlbumArtWidget::render` on a buffer indexed by column and row: as many cell rows as both the
   * area and the art allow, and as many columns, each blended onto the cell it covers; nothing else
   * changes.
   */
  method RenderArt(pixels: seq<seq<Pixel>>, opacity: real, area: Rect, buf: array2<Cell>)
    requires Rectangular(pixels)
    requires area.x + area.width <= buf.Length0 && area.y + area.height <= buf.Length1
    modifies buf
    ensures forall i, j :: 0 <= i < buf.Length0 && 0 <= j < buf.Length1 ==>
      buf[i, j] == if InArt(area, pixels, i, j) then ArtCell(pixels, i - area.x, j - area.y, old(buf[i, j]), opacity) else old(buf[i, j])
  {
    var rows := Min(area.height, |pixels| / 2);
    var cols := Min(area.width, ArtCols(pixels));
    for cy := 0 to rows
      invariant forall i, j :: 0 <= i < buf.Length0 && 0 <= j < buf.Length1 ==>
        buf[i, j] == if InArt(area, pixels, i, j) && j < area.y + cy
          then ArtCell(pixels, i - area.x, j - area.y, old(buf[i, j]), opacity) else old(buf[i, j])
    {
      RenderArtRow(pixels, opacity, area, buf, cy, cols);
    }
  }

  /** One row of cells of that loop: cell row `cy` of the art blended onto the first `cols` cells of its row. */
  method RenderArtRow(pixels: seq<seq<Pixel>>, opacity: real, area: Rect, buf: array2<Cell>, cy: nat, cols: nat)
    requires Rectangular(pixels) && 2 * cy < |pixels| && cols <= ArtCols(pixels)
    requires area.x + cols <= buf.Length0 && area.y + cy < buf.Length1
    modifies buf
    ensures forall i, j :: 0 <= i < buf.Length0 && 0 <= j < buf.Length1 ==>
      buf[i, j] == if j == area.y + cy && area.x <= i < area.x + cols
        then ArtCell(pixels, i - area.x, cy, old(buf[i, j]), opacity) else old(buf[i, j])
  {
    var y := area.y + cy;
    for cx := 0 to cols
      invariant forall i, j :: 0 <= i < buf.Length0 && 0 <= j < buf.Length1 && j != y ==> buf[i, j] == old(buf[i, j])
      invariant forall i :: 0 <= i < buf.Length0 ==>
        buf[i, y] == if area.x <= i < area.x + cx then ArtCell(pixels, i - area.x, cy, old(buf[i, y]), opacity) else old(buf[i, y])
    {
      var x := area.x + cx;
      var cell := BlendCell(pixels, cx, cy, buf[x, y], opacity);
      buf[x, y] := cell;
    }
  }

  /** One cell of the art: the upper half block, the top pixel blended over the old foreground and the bottom one over the old background. */
  method BlendCell(pixels: seq<seq<Pixel>>, cx: nat, cy: nat, existing: Cell, opacity: real) returns (cell: Cell)
    requires Rectangular(pixels) && cx < ArtCols(pixels) && 2 * cy < |pixels|
    ensures cell == ArtCell(pixels, cx, cy, existing, opacity)
  {
    var top := pixels[cy * 2][cx];
    var bot := if cy * 2 + 1 < |pixels| then pixels[cy * 2 + 1][cx] else top;
    cell := Cell('▀', BlendPixel(top, existing.fg, opacity), BlendPixel(bot, existing.bg, opacity));
  }

  /** The rectangle the overlay uses: inset by one cell, at most `ART_COLS` by `ART_ROWS`; none when empty. */
  function ArtOverlay(area: Rect): (r: Option<Rect>)
    ensures r == None <==> area.width <= 2 || area.height <= 2
    ensures r.Some? ==> r.value.x == area.x + 1 && r.value.y == area.y + 1
    ensures r.Some? ==> 1 <= r.value.width <= ART_COLS && r.value.width + 2 <= area.width
    ensures r.Some? ==> 1 <= r.value.height <= ART_ROWS && r.value.height + 2 <= area.height
    ensures r.Some? && area.width >= ART_COLS + 2 && area.height >= ART_ROWS + 2 ==>
      r.value.width == ART_COLS && r.value.height == ART_ROWS
  {
    var innerW := SatSub(area.width, 2);
    var innerH := SatSub(area.height, 2);
    var artW := Min(ART_COLS, innerW);
    var artH := Min(ART_ROWS, innerH);
    if artW == 0 || artH == 0 then None else Some(Rect(area.x + 1, area.y + 1, artW, artH))
  }

  /** `draw_art_overlay`: the art rendered into the inset rectangle, or nothing when that is empty. */
  method DrawArtOverlay(area: Rect, pixels: seq<seq<Pixel>>, opacity: real, buf: array2<Cell>)
    requires Rectangular(pixels)
    requires area.x + area.width <= buf.Length0 && area.y + area.height <= buf.Length1
    modifies buf
    ensures ArtOverlay(area) == None ==>
      forall i, j :: 0 <= i < buf.Length0 && 0 <= j < buf.Length1 ==> buf[i, j] == old(buf[i, j])
    ensures ArtOverlay(area).Some? ==> forall i, j :: 0 <= i < buf.Length0 && 0 <= j < buf.Length1 ==>
      buf[i, j] == if InArt(ArtOverlay(area).value, pixels, i, j)
        then ArtCell(pixels, i - area.x - 1, j - area.y - 1, old(buf[i, j]), opacity) else old(buf[i, j])
  {
    var art := ArtOverlay(area);
    if art == None {
      return;
    }
    RenderArt(pixels, opacity, art.value, buf);
  }
}
