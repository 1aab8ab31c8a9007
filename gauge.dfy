/**
 * The rounded progress gauge (`RoundedGauge`): a one-row bar drawn with box-drawing glyphs, or
 * with block glyphs whose heights follow a waveform, in a filled colour that turns into an
 * overflow colour past a threshold, with a centred caption on top.
 */
module Gauge {
  import opened Wrappers
  import opened Numeric
  import opened Text
  import opened Layout

  /** The nine waveform glyphs, from blank to a full block. */
  const WAVEFORM_BLOCKS: seq<char> := [' ', '▁', '▂', '▃', '▄', '▅', '▆', '▇', '█']

  /**
   * The gauge's settings. The bordering block is left to the caller, which hands `Render` the
   * area inside it.
   */
  datatype RoundedGauge = RoundedGauge(
    ratio: real,
    caption: string,
    filledColor: Color,
    overflowAt: Option<real>,
    overflowColor: Color,
    waveform: Option<seq<real>>)

  /** Every gauge built by `New` keeps its ratio in [0, 1]; the field is private to the widget. */
  predicate Valid(g: RoundedGauge) {
    0.0 <= g.ratio <= 1.0
  }

  /** `RoundedGauge::new`: the ratio is clamped to [0, 1]; no threshold, red overflow, no waveform. */
  function New(ratio: real, caption: string, filledColor: Color): (g: RoundedGauge)
    ensures Valid(g)
    ensures 0.0 <= ratio <= 1.0 ==> g.ratio == ratio
    ensures ratio < 0.0 ==> g.ratio == 0.0
    ensures ratio > 1.0 ==> g.ratio == 1.0
    ensures g.caption == caption && g.filledColor == filledColor
    ensures g.overflowAt == None && g.overflowColor == Red && g.waveform == None
  {
    RoundedGauge(Clamp(ratio, 0.0, 1.0), caption, filledColor, None, Red, None)
  }

  /** The `waveform` builder. */
  function WithWaveform(g: RoundedGauge, wf: seq<real>): RoundedGauge {
    g.(waveform := Some(wf))
  }

  /** The `overflow` builder. */
  function WithOverflow(g: RoundedGauge, threshold: real, color: Color): RoundedGauge {
    g.(overflowAt := Some(threshold), overflowColor := color)
  }

  // ----- column arithmetic -----

  /** `(x).round() as usize`: rounded half away from zero, negative results saturating to 0. */
  function RoundToIndex(x: real): (r: nat)
    ensures x >= 0.0 ==> x - 0.5 <= r as real <= x + 0.5
    ensures x <= 0.0 ==> r == 0
  {
    if Round(x) < 0 then 0 else Round(x)
  }

  /** A share of a non-negative extent lies between 0 and the extent. */
  lemma ScaleWithin(ratio: real, extent: real)
    requires 0.0 <= ratio <= 1.0 && extent >= 0.0
    ensures 0.0 <= ratio * extent <= extent
  {
    assert extent - ratio * extent == (1.0 - ratio) * extent;
  }

  /** The number of filled columns: `round(ratio · width)`, the nearest column count. */
  function FilledCols(ratio: real, width: nat): (n: nat)
    requires 0.0 <= ratio <= 1.0
    ensures n <= width
    ensures n as real - 0.5 <= ratio * width as real <= n as real + 0.5
    ensures ratio == 0.0 ==> n == 0
    ensures ratio == 1.0 ==> n == width
  {
    var x := ratio * width as real;
    ScaleWithin(ratio, width as real);
    var n := RoundToIndex(x);
    assert n as real <= width as real + 0.5;
    assert ratio == 1.0 ==> x == width as real;
    n
  }

  /** The first overflowing column: the rounded threshold column, or `width` when there is no threshold. */
  function OverflowCol(overflowAt: Option<real>, width: nat): (c: nat)
    ensures overflowAt == None ==> c == width
  {
    match overflowAt
    case None => width
    case Some(t) => RoundToIndex(t * width as real)
  }

  /** The colour of a filled column: the overflow colour from the overflow column on. */
  function FillColor(g: RoundedGauge, col: nat, overflowCol: nat): (c: Color)
    ensures c == g.overflowColor || c == g.filledColor
    ensures col < overflowCol ==> c == g.filledColor
    ensures col >= overflowCol ==> c == g.overflowColor
  {
    if col >= overflowCol then g.overflowColor else g.filledColor
  }

  /** Without a threshold no column of the bar takes the overflow colour. */
  lemma NoThresholdNoOverflow(g: RoundedGauge, width: nat, col: nat)
    requires g.overflowAt == None && col < width
    ensures FillColor(g, col, OverflowCol(g.overflowAt, width)) == g.filledColor
  {
  }

  // ----- waveform buckets -----

  /** The first sample of column `col`'s bucket. */
  function BucketStart(col: nat, len: nat, width: nat): nat
    requires width > 0
  {
    col * len / width
  }

  /** One past the last sample of column `col`'s bucket. */
  function BucketEnd(col: nat, len: nat, width: nat): nat
    requires width > 0
  {
    Min((col + 1) * len / width, len)
  }

  lemma DivMono(a: nat, b: nat, d: nat)
    requires a <= b && d > 0
    ensures a / d <= b / d
  {
    if a / d > b / d {
      assert d * (a / d) + a % d == a;
      assert d * (b / d) + b % d == b;
      assert d * (a / d) >= d * (b / d + 1) by {
        MulMono(d, b / d + 1, a / d);
      }
      assert false;
    }
  }

  lemma MulMono(d: nat, a: nat, b: nat)
    requires a <= b
    ensures d * a <= d * b
  {
  }

  lemma MulDiv(k: nat, d: nat)
    requires d > 0
    ensures d * k / d == k
  {
    var q, r := d * k / d, d * k % d;
    assert d * q + r == d * k && 0 <= r < d;
    if q < k {
      MulMono(d, 1, k - q);
    }
  }

  /**
   * The buckets tile the samples: they start at 0, each ends where the next begins, none runs
   * backwards and the last ends at the final sample.
   */
  lemma BucketsTile(len: nat, width: nat, col: nat)
    requires width > 0 && col < width
    ensures BucketStart(0, len, width) == 0
    ensures BucketStart(col, len, width) <= BucketEnd(col, len, width) <= len
    ensures BucketEnd(col, len, width) == BucketStart(col + 1, len, width)
    ensures col == width - 1 ==> BucketEnd(col, len, width) == len
  {
    DivMono(col * len, (col + 1) * len, width);
    MulMono(len, col + 1, width);
    DivMono((col + 1) * len, width * len, width);
    MulDiv(len, width);
    assert width * len == len * width;
  }

  /** `fold(0.0, f32::max)`: the largest sample, or 0 when every sample is below 0. */
  function MaxFromZero(s: seq<real>): (m: real)
    ensures m >= 0.0
    ensures forall i :: 0 <= i < |s| ==> s[i] <= m
    ensures m == 0.0 || exists i :: 0 <= i < |s| && s[i] == m
  {
    if s == [] then 0.0 else MaxReal(MaxFromZero(s[..|s| - 1]), s[|s| - 1])
  }

  /** The amplitude of a column: the bucket's peak, or the sample at its start when the bucket is empty. */
  function BucketAmp(wf: seq<real>, col: nat, width: nat): real
    requires width > 0
  {
    var start := BucketStart(col, |wf|, width);
    var end := BucketEnd(col, |wf|, width);
    if start < end then MaxFromZero(wf[start..end])
    else if start < |wf| then wf[start] else 0.0
  }

  /** The waveform glyph for an amplitude: `min(round(7·amp) + 1, 8)` when positive, else the blank. */
  function BlockIndex(amp: real): (k: nat)
    ensures k <= 8
    ensures k == 0 <==> amp <= 0.0
    ensures amp >= 1.0 ==> k == 8
  {
    if amp > 0.0 then Min(RoundToIndex(amp * 7.0) + 1, 8) else 0
  }

  lemma FloorMono(a: real, b: real)
    requires a <= b
    ensures a.Floor <= b.Floor
  {
  }

  /** A louder column never gets a lower glyph. */
  lemma BlockIndexMono(a: real, b: real)
    requires a <= b
    ensures BlockIndex(a) <= BlockIndex(b)
  {
    if a > 0.0 {
      FloorMono(a * 7.0 + 0.5, b * 7.0 + 0.5);
    }
  }

  // ----- the cells of the bar -----

  /** A column of the waveform bar: its block glyph, in the fill colour when filled, else grey. */
  function WaveCell(g: RoundedGauge, wf: seq<real>, col: nat, width: nat, filled: nat, overflowCol: nat): Cell
    requires width > 0
  {
    var fg := if col < filled then FillColor(g, col, overflowCol) else DarkGray;
    Cell(WAVEFORM_BLOCKS[BlockIndex(BucketAmp(wf, col, width))], fg, Reset)
  }

  /**
   * A column of the plain bar: a thin grey line with end caps when nothing is filled; otherwise a
   * heavy line up to the filled column, with a heavy left cap at column 0 and a half cap on the
   * last filled column when the bar is not full, then a thin grey line with a right cap.
   */
  function PlainCell(g: RoundedGauge, col: nat, width: nat, filled: nat, overflowCol: nat): Cell
    requires width > 0
  {
    var fill := FillColor(g, col, overflowCol);
    if filled == 0 then
      if col == 0 then Cell('╶', DarkGray, Reset)
      else if col == width - 1 then Cell('╴', DarkGray, Reset)
      else Cell('─', DarkGray, Reset)
    else if col < filled then
      if col == 0 then Cell('╺', fill, Reset)
      else if col == filled - 1 && filled < width then Cell('╸', fill, Reset)
      else Cell('━', fill, Reset)
    else
      if col == width - 1 then Cell('╴', DarkGray, Reset)
      else Cell('─', DarkGray, Reset)
  }

  predicate Heavy(c: char) {
    c == '╺' || c == '╸' || c == '━'
  }

  /** The heavy glyphs are exactly the filled columns, in the fill colour; the rest are grey and thin. */
  lemma PlainCellFilled(g: RoundedGauge, col: nat, width: nat, filled: nat, overflowCol: nat)
    requires col < width
    ensures Heavy(PlainCell(g, col, width, filled, overflowCol).symbol) <==> col < filled
    ensures col < filled ==> PlainCell(g, col, width, filled, overflowCol).fg == FillColor(g, col, overflowCol)
    ensures col >= filled ==> PlainCell(g, col, width, filled, overflowCol).fg == DarkGray
    ensures PlainCell(g, col, width, filled, overflowCol).bg == Reset
  {
  }

  /**
   * The caps: the half cap marks the last filled column of a partly filled bar (unless that is
   * column 0), and the thin right cap sits on the last column exactly when it is not filled.
   */
  lemma PlainCellCaps(g: RoundedGauge, col: nat, width: nat, filled: nat, overflowCol: nat)
    requires col < width
    ensures PlainCell(g, col, width, filled, overflowCol).symbol == '╸' <==> 0 < col == filled - 1 && filled < width
    ensures PlainCell(g, col, width, filled, overflowCol).symbol == '╴' <==> col == width - 1 && col > 0 && col >= filled
    ensures PlainCell(g, col, width, filled, overflowCol).symbol == '╺' <==> col == 0 && filled > 0
    ensures PlainCell(g, col, width, filled, overflowCol).symbol == '╶' <==> col == 0 && filled == 0
  {
  }

  /** The cell the bar pass writes in column `col`. */
  function BarCell(g: RoundedGauge, col: nat, width: nat, filled: nat, overflowCol: nat): Cell
    requires width > 0
  {
    match g.waveform
    case Some(wf) => WaveCell(g, wf, col, width, filled, overflowCol)
    case None => PlainCell(g, col, width, filled, overflowCol)
  }

  // ----- the caption -----

  /** The caption is drawn only when its length in bytes fits the bar. */
  predicate LabelShown(caption: string, width: nat) {
    ByteLen(caption) <= width
  }

  /** The caption's first column: half the room left over, measured in bytes. */
  function LabelStart(caption: string, width: nat): (s: nat)
    requires LabelShown(caption, width)
    ensures 2 * s <= width - ByteLen(caption) <= 2 * s + 1
    ensures s + |caption| <= width
  {
    (width - ByteLen(caption)) / 2
  }

  /** A caption character: white over the filled part, grey elsewhere. */
  function LabelCell(c: char, col: nat, filled: nat): Cell {
    Cell(c, if col < filled then White else Gray, Reset)
  }

  /** The final cell of column `col`: the caption's character where the caption covers it, else the bar's. */
  function GaugeCell(g: RoundedGauge, col: nat, width: nat): Cell
    requires Valid(g) && width > 0
  {
    var filled := FilledCols(g.ratio, width);
    if LabelShown(g.caption, width) && LabelStart(g.caption, width) <= col < LabelStart(g.caption, width) + |g.caption| then
      LabelCell(g.caption[col - LabelStart(g.caption, width)], col, filled)
    else
      BarCell(g, col, width, filled, OverflowCol(g.overflowAt, width))
  }

  /** What `render` leaves in cell `k` of the row: the gauge inside the area, the old cell outside. */
  function Rendered(g: RoundedGauge, inner: Rect, old_: seq<Cell>, k: nat): Cell
    requires Valid(g) && k < |old_|
  {
    if inner.width < 2 || inner.height == 0 then old_[k]
    else if inner.x <= k < inner.x + inner.width then GaugeCell(g, k - inner.x, inner.width)
    else old_[k]
  }

  /**
   * `render` on the buffer row `inner.y`: nothing when the area is narrower than 2 or has no
   * height; otherwise one bar pass over every column, then the caption on top.
   */
  method Render(g: RoundedGauge, inner: Rect, row: array<Cell>)
    requires Valid(g) && inner.x + inner.width <= row.Length
    modifies row
    ensures forall k :: 0 <= k < row.Length ==> row[k] == Rendered(g, inner, old(row[..]), k)
  {
    if inner.width < 2 || inner.height == 0 {
      return;
    }
    var width := inner.width;
    var filled := FilledCols(g.ratio, width);
    var overflowCol := OverflowCol(g.overflowAt, width);
    DrawBarCells(g, inner, row, filled, overflowCol);
    if ByteLen(g.caption) <= width {
      DrawCaption(g.caption, inner, row, filled, LabelStart(g.caption, width));
    }
  }

  /** The bar pass: every column of the bar gets its bar cell; nothing else changes. */
  method DrawBarCells(g: RoundedGauge, inner: Rect, row: array<Cell>, filled: nat, overflowCol: nat)
    requires Valid(g) && inner.width > 0 && inner.x + inner.width <= row.Length
    modifies row
    ensures forall k :: 0 <= k < row.Length ==>
      row[k] == if inner.x <= k < inner.x + inner.width then BarCell(g, k - inner.x, inner.width, filled, overflowCol) else old(row[k])
  {
    ghost var before := row[..];
    var width := inner.width;
    for col := 0 to width
      invariant forall k :: 0 <= k < row.Length ==>
        row[k] == if inner.x <= k < inner.x + col then BarCell(g, k - inner.x, width, filled, overflowCol) else before[k]
    {
      var cell: Cell;
      match g.waveform {
        case Some(wf) =>
          var amp := BucketAmp(wf, col, width);
          var blockIdx := BlockIndex(amp);
          var fg := if col < filled then FillColor(g, col, overflowCol) else DarkGray;
          cell := Cell(WAVEFORM_BLOCKS[blockIdx], fg, Reset);
        case None =>
          cell := PlainCell(g, col, width, filled, overflowCol);
      }
      row[inner.x + col] := cell;
    }
  }

  /** The caption pass: the caption's characters from column `start` on, white over the filled part; nothing else changes. */
  method DrawCaption(caption: string, inner: Rect, row: array<Cell>, filled: nat, start: nat)
    requires inner.x + start + |caption| <= row.Length
    modifies row
    ensures forall k :: 0 <= k < row.Length ==>
      row[k] == if inner.x + start <= k < inner.x + start + |caption| then LabelCell(caption[k - inner.x - start], k - inner.x, filled)
                else old(row[k])
  {
    ghost var before := row[..];
    for i := 0 to |caption|
      invariant forall k :: 0 <= k < row.Length ==>
        row[k] == if inner.x + start <= k < inner.x + start + i then LabelCell(caption[k - inner.x - start], k - inner.x, filled)
                  else before[k]
    {
      var col := start + i;
      var fg := if col < filled then White else Gray;
      row[inner.x + col] := Cell(caption[i], fg, Reset);
    }
  }
}
