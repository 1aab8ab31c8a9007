/**
 * The built-in visualizers (src/visualizer.rs): the mode cycle, and the braille canvas each of the
 * oscilloscope, vectorscope and spectroscope widgets rasterises into.
 *
 * A canvas is `cols × rows` character cells, stored row-major as one byte per cell; each cell is a
 * 2 × 4 block of braille dots, so pixel (x, y) lives in cell (x / 2, y / 4) as the bit
 * `Dot(x % 2, y % 4)`. Drawing only ever ORs bits in. The FFT, the Hann window and the logarithmic
 * column-to-bin mapping are floating-point work: the spectroscope takes the bin magnitudes and each
 * column's unclamped bin as inputs.
 */
module Visualizer {
  import Numeric
  import opened Wrappers

  datatype VisMode = Oscilloscope | Vectorscope | Spectroscope {
    /** `VisMode::next`: the modes cycle Oscilloscope → Vectorscope → Spectroscope → Oscilloscope. */
    function Next(): (n: VisMode)
      ensures n != this
    {
      match this
      case Oscilloscope => Vectorscope
      case Vectorscope => Spectroscope
      case Spectroscope => Oscilloscope
    }

    /** `VisMode::label`: the block title, padded with a space on each side. */
    function Label(): (s: string)
      ensures |s| >= 3 && s[0] == ' ' && s[|s| - 1] == ' '
    {
      match this
      case Oscilloscope => " Oscilloscope "
      case Vectorscope => " Vectorscope "
      case Spectroscope => " Spectroscope "
    }
  }

  /** Three presses of the mode key come back to the starting mode, and no fewer do. */
  lemma NextCycle(m: VisMode)
    ensures m.Next().Next().Next() == m
    ensures m.Next().Next() != m
  {
  }

  const BRAILLE_BASE: nat := 0x2800
  const BRAILLE_DOTS: seq<seq<bv8>> := [[0x01, 0x02, 0x04, 0x40], [0x08, 0x10, 0x20, 0x80]]

  /** The bit of dot column `dx`, dot row `dy` of a braille cell. */
  function Dot(dx: nat, dy: nat): (b: bv8)
    requires dx < 2 && dy < 4
    ensures b != 0 && b & (b - 1) == 0
  {
    BRAILLE_DOTS[dx][dy]
  }

  /** The eight dots are distinct single bits that together fill the byte. */
  lemma DotsPartitionCell()
    ensures forall dx1, dy1, dx2, dy2 :: 0 <= dx1 < 2 && 0 <= dy1 < 4 && 0 <= dx2 < 2 && 0 <= dy2 < 4 ==>
      (Dot(dx1, dy1) & Dot(dx2, dy2) != 0 <==> dx1 == dx2 && dy1 == dy2)
    ensures Dot(0, 0) | Dot(0, 1) | Dot(0, 2) | Dot(0, 3) | Dot(1, 0) | Dot(1, 1) | Dot(1, 2) | Dot(1, 3) == 0xFF
  {
  }

  /** The character a cell shows: the braille pattern with its bits. */
  function Braille(dots: bv8): (c: char)
    ensures BRAILLE_BASE as int <= c as int < BRAILLE_BASE as int + 256
  {
    (BRAILLE_BASE + dots as nat) as char
  }

  // ----- The canvas -----

  datatype Pixel = Pixel(x: nat, y: nat)

  predicate OnCanvas(p: Pixel, cols: nat, rows: nat) {
    p.x / 2 < cols && p.y / 4 < rows
  }

  function CellIndex(p: Pixel, cols: nat): nat {
    (p.y / 4) * cols + p.x / 2
  }

  function Bit(p: Pixel): bv8 {
    Dot(p.x % 2, p.y % 4)
  }

  lemma CellIndexBound(p: Pixel, cols: nat, rows: nat)
    requires OnCanvas(p, cols, rows)
    ensures CellIndex(p, cols) < cols * rows
  {
    var cy := p.y / 4;
    assert (cy + 1) * cols <= rows * cols by {
      MulMono(cy + 1, rows, cols);
    }
  }

  lemma MulMono(a: nat, b: nat, c: nat)
    requires a <= b
    ensures a * c <= b * c
  {
  }

  function Zeros(n: nat): (g: seq<bv8>)
    ensures |g| == n && forall i :: 0 <= i < n ==> g[i] == 0
  {
    seq(n, _ => 0)
  }

  /** A fresh grid of `n` empty cells, as `Grid::new` allocates. */
  method BlankGrid(n: nat) returns (grid: array<bv8>)
    ensures fresh(grid) && grid[..] == Zeros(n)
  {
    grid := new bv8[n](_ => 0);
    assert grid[..] == Zeros(n);
  }

  /** Setting one pixel: its bit is ORed into its cell when the cell is on the canvas. */
  function Plot(g: seq<bv8>, cols: nat, rows: nat, p: Pixel): (r: seq<bv8>)
    requires |g| == cols * rows
    ensures |r| == |g|
  {
    if OnCanvas(p, cols, rows) then
      CellIndexBound(p, cols, rows);
      g[CellIndex(p, cols) := g[CellIndex(p, cols)] | Bit(p)]
    else g
  }

  /** Setting pixels in order. */
  function PlotAll(g: seq<bv8>, cols: nat, rows: nat, ps: seq<Pixel>): (r: seq<bv8>)
    requires |g| == cols * rows
    ensures |r| == |g|
  {
    if ps == [] then g else Plot(PlotAll(g, cols, rows, ps[..|ps| - 1]), cols, rows, ps[|ps| - 1])
  }

  /** The bits the pixels of `ps` that land in cell `i` contribute. */
  function CellBits(ps: seq<Pixel>, cols: nat, rows: nat, i: nat): bv8 {
    if ps == [] then 0
    else
      var p := ps[|ps| - 1];
      CellBits(ps[..|ps| - 1], cols, rows, i) | (if OnCanvas(p, cols, rows) && CellIndex(p, cols) == i then Bit(p) else 0)
  }

  /** Each cell ends up as its old bits plus exactly the bits of the pixels that land in it. */
  lemma {:induction false} PlotAllCells(g: seq<bv8>, cols: nat, rows: nat, ps: seq<Pixel>)
    requires |g| == cols * rows
    ensures forall i :: 0 <= i < |g| ==> PlotAll(g, cols, rows, ps)[i] == g[i] | CellBits(ps, cols, rows, i)
  {
    if ps != [] {
      var init, p := ps[..|ps| - 1], ps[|ps| - 1];
      PlotAllCells(g, cols, rows, init);
      var prev := PlotAll(g, cols, rows, init);
      forall i | 0 <= i < |g|
        ensures PlotAll(g, cols, rows, ps)[i] == g[i] | CellBits(ps, cols, rows, i)
      {
        PlotCell(prev, cols, rows, p, i);
      }
    }
  }

  /** Plotting one pixel changes only its own cell, by ORing in its bit. */
  lemma PlotCell(g: seq<bv8>, cols: nat, rows: nat, p: Pixel, i: nat)
    requires |g| == cols * rows && i < |g|
    ensures Plot(g, cols, rows, p)[i] == g[i] | (if OnCanvas(p, cols, rows) && CellIndex(p, cols) == i then Bit(p) else 0)
  {
  }

  /**
   * Plotting never clears a bit, so every reference bit survives; and a cell has bits beyond the
   * reference (the widgets colour it as wave) iff some plotted pixel added one.
   */
  lemma PlotKeepsReference(reference: seq<bv8>, cols: nat, rows: nat, ps: seq<Pixel>)
    requires |reference| == cols * rows
    ensures forall i :: 0 <= i < |reference| ==>
      PlotAll(reference, cols, rows, ps)[i] & reference[i] == reference[i]
    ensures forall i :: 0 <= i < |reference| ==>
      (PlotAll(reference, cols, rows, ps)[i] & !reference[i] != 0 <==> CellBits(ps, cols, rows, i) & !reference[i] != 0)
  {
    PlotAllCells(reference, cols, rows, ps);
  }

  lemma PlotAllSnoc(g: seq<bv8>, cols: nat, rows: nat, ps: seq<Pixel>, p: Pixel)
    requires |g| == cols * rows
    ensures PlotAll(g, cols, rows, ps + [p]) == Plot(PlotAll(g, cols, rows, ps), cols, rows, p)
  {
    assert (ps + [p])[..|ps|] == ps;
  }

  lemma {:induction false} PlotAllAppend(g: seq<bv8>, cols: nat, rows: nat, a: seq<Pixel>, b: seq<Pixel>)
    requires |g| == cols * rows
    ensures PlotAll(g, cols, rows, a + b) == PlotAll(PlotAll(g, cols, rows, a), cols, rows, b)
    decreases |b|
  {
    if b == [] {
      assert a + b == a;
    } else {
      var b' := b[..|b| - 1];
      assert a + b == (a + b') + [b[|b| - 1]];
      assert (a + b)[..|a + b| - 1] == a + b';
      PlotAllAppend(g, cols, rows, a, b');
    }
  }

  /** The in-place `grid[cy * cols + cx] |= BRAILLE_DOTS[dx][dy]`, guarded by `cx < cols && cy < rows`. */
  method SetDot(grid: array<bv8>, cols: nat, rows: nat, p: Pixel)
    requires grid.Length == cols * rows
    modifies grid
    ensures grid[..] == Plot(old(grid[..]), cols, rows, p)
  {
    var cx := p.x / 2;
    var cy := p.y / 4;
    if cx < cols && cy < rows {
      CellIndexBound(p, cols, rows);
      var i := cy * cols + cx;
      grid[i] := grid[i] | Dot(p.x % 2, p.y % 4);
    }
  }

  /** Setting the next pixel of `ps`: the grid goes from the first `n` pixels plotted over `start` to the first `n + 1`. */
  method PlotNext(grid: array<bv8>, cols: nat, rows: nat, p: Pixel, ghost start: seq<bv8>, ghost ps: seq<Pixel>, ghost n: nat)
    requires grid.Length == cols * rows && |start| == cols * rows
    requires n < |ps| && ps[n] == p && grid[..] == PlotAll(start, cols, rows, ps[..n])
    modifies grid
    ensures grid[..] == PlotAll(start, cols, rows, ps[..n + 1])
  {
    assert ps[..n + 1] == ps[..n] + [p];
    PlotAllSnoc(start, cols, rows, ps[..n], p);
    SetDot(grid, cols, rows, p);
  }

  /** The pixels of row `py` from x = 0 up to `w`, left to right. */
  function HLine(py: nat, w: nat): (ps: seq<Pixel>)
    ensures |ps| == w && forall k :: 0 <= k < w ==> ps[k] == Pixel(k, py)
  {
    seq(w, k requires 0 <= k < w => Pixel(k, py))
  }

  /** The pixels of column `px` from y = 0 down to `h`. */
  function VLine(px: nat, h: nat): (ps: seq<Pixel>)
    ensures |ps| == h && forall k :: 0 <= k < h ==> ps[k] == Pixel(px, k)
  {
    seq(h, k requires 0 <= k < h => Pixel(px, k))
  }

  /** What a scope widget draws: the final cells, and the reference-line cells it colours dimmed. */
  datatype Scope = Scope(cells: seq<bv8>, reference: seq<bv8>)

  // ----- Oscilloscope -----

  /** `channels.max(1)`. */
  function ChannelCount(channels: nat): (c: nat)
    ensures c >= 1 && (channels >= 1 ==> c == channels)
  {
    if channels >= 1 then channels else 1
  }

  /** The sample the oscilloscope shows at pixel column `px`: the first channel of frame `px * frames / pxW`, or 0.0 past the end. */
  function ScopeSample(samples: seq<real>, ch: nat, pxW: nat, px: nat): real
    requires ch >= 1 && pxW >= 1
  {
    var idx := (px * (|samples| / ch)) / pxW;
    if idx * ch < |samples| then samples[idx * ch] else 0.0
  }

  /** The frame index is always a frame that exists, so the 0.0 fallback is never used. */
  lemma ScopeSampleInBounds(samples: seq<real>, ch: nat, pxW: nat, px: nat)
    requires ch >= 1 && px < pxW && |samples| >= ch
    ensures (px * (|samples| / ch)) / pxW * ch < |samples|
  {
    var frames := |samples| / ch;
    var idx := (px * frames) / pxW;
    assert px * frames < pxW * frames by {
      MulMono(px + 1, pxW, frames);
    }
    assert idx < frames by {
      DivBelow(px * frames, pxW, frames);
    }
    MulMono(idx + 1, frames, ch);
    assert frames * ch <= |samples|;
  }

  lemma FrameIndexNat(px: nat, frames: nat, pxW: nat, ch: nat)
    requires pxW >= 1
    ensures 0 <= (px * frames) / pxW && 0 <= ((px * frames) / pxW) * ch
  {
    MulMono(0, px, frames);
    MulMono(0, (px * frames) / pxW, ch);
  }

  lemma DivBelow(a: nat, b: nat, c: nat)
    requires b >= 1 && a < b * c
    ensures a / b < c
  {
  }

  /** The pixel row of a sample: +1 at the top, -1 at the bottom, clamped into the canvas. */
  function ScopeRow(s: real, pxH: nat): (py: nat)
    requires pxH >= 1
    ensures py < pxH
  {
    var midY := pxH as real / 2.0;
    Numeric.CastUnsigned(Numeric.MinReal((1.0 - Numeric.Clamp(s, -1.0, 1.0)) * midY, pxH as real - 1.0))
  }

  function ScopePoints(samples: seq<real>, ch: nat, pxW: nat, pxH: nat): (ps: seq<Pixel>)
    requires ch >= 1 && pxW >= 1 && pxH >= 1
    ensures |ps| == pxW
  {
    seq(pxW, px requires 0 <= px < pxW => Pixel(px, ScopeRow(ScopeSample(samples, ch, pxW, px), pxH)))
  }

  /** The centre reference line: row `pxH / 2` across the canvas, when that row is on it. */
  function CentreLine(cols: nat, rows: nat): seq<bv8> {
    var centrePy := rows * 4 / 2;
    if centrePy / 4 < rows then PlotAll(Zeros(cols * rows), cols, rows, HLine(centrePy, cols * 2))
    else Zeros(cols * rows)
  }

  /** `OscilloscopeWidget::render`, up to the cells it produces. */
  method Oscilloscope(width: nat, height: nat, samples: seq<real>, channels: nat) returns (r: Option<Scope>)
    ensures width == 0 || height == 0 || samples == [] <==> r.None?
    ensures r.Some? ==>
      var ch := ChannelCount(channels);
      r.value.reference == CentreLine(width, height) &&
      r.value.cells == PlotAll(r.value.reference, width, height, ScopePoints(samples, ch, width * 2, height * 4))
  {
    if width == 0 || height == 0 {
      return None;
    }
    if samples == [] {
      return None;
    }
    var ch := ChannelCount(channels);
    var pxW := width * 2;
    var pxH := height * 4;
    var cols := width;
    var rows := height;
    var grid := BlankGrid(cols * rows);

    var centrePy := pxH / 2;
    var centreCy := centrePy / 4;
    if centreCy < rows {
      DrawCellRow(grid, cols, rows, centrePy);
    }
    var reference := grid[..];
    PlotWave(grid, cols, rows, samples, ch);
    return Some(Scope(grid[..], reference));
  }

  /** Both dots of pixel row `py` in every cell of its cell row, cell by cell. */
  method DrawCellRow(grid: array<bv8>, cols: nat, rows: nat, py: nat)
    requires grid.Length == cols * rows
    modifies grid
    ensures grid[..] == PlotAll(old(grid[..]), cols, rows, HLine(py, cols * 2))
  {
    ghost var start := grid[..];
    for cx := 0 to cols
      invariant grid[..] == PlotAll(start, cols, rows, HLine(py, 2 * cx))
    {
      ghost var line := HLine(py, 2 * cx);
      assert HLine(py, 2 * cx + 2) == line + [Pixel(2 * cx, py)] + [Pixel(2 * cx + 1, py)];
      PlotAllSnoc(start, cols, rows, line, Pixel(2 * cx, py));
      PlotAllSnoc(start, cols, rows, line + [Pixel(2 * cx, py)], Pixel(2 * cx + 1, py));
      SetDot(grid, cols, rows, Pixel(2 * cx, py));
      SetDot(grid, cols, rows, Pixel(2 * cx + 1, py));
    }
  }

  /** The waveform pass: one pixel per pixel column, from the sample under it. */
  method PlotWave(grid: array<bv8>, cols: nat, rows: nat, samples: seq<real>, ch: nat)
    requires grid.Length == cols * rows && ch >= 1 && cols >= 1 && rows >= 1
    modifies grid
    ensures grid[..] == PlotAll(old(grid[..]), cols, rows, ScopePoints(samples, ch, cols * 2, rows * 4))
  {
    var pxW := cols * 2;
    var pxH := rows * 4;
    ghost var start := grid[..];
    ghost var points := ScopePoints(samples, ch, pxW, pxH);
    for px := 0 to pxW
      invariant grid[..] == PlotAll(start, cols, rows, points[..px])
    {
      var p := WavePixel(samples, ch, pxW, pxH, px);
      PlotNext(grid, cols, rows, p, start, points, px);
    }
    assert points[..pxW] == points;
  }

  /** The oscilloscope pixel of column `px`: the sample of frame `px * frames / pxW`, scaled to a row. */
  method WavePixel(samples: seq<real>, ch: nat, pxW: nat, pxH: nat, px: nat) returns (p: Pixel)
    requires ch >= 1 && px < pxW && pxH >= 1
    ensures p == ScopePoints(samples, ch, pxW, pxH)[px]
  {
    var totalMono := |samples| / ch;
    var idx := (px * totalMono) / pxW;
    FrameIndexNat(px, totalMono, pxW, ch);
    var s := if idx * ch < |samples| then samples[idx * ch] else 0.0;
    assert s == ScopeSample(samples, ch, pxW, px);
    p := Pixel(px, ScopeRow(s, pxH));
  }

  /** Every oscilloscope pixel lands on the canvas, and so does the centre line. */
  lemma ScopePointsOnCanvas(samples: seq<real>, ch: nat, width: nat, height: nat)
    requires ch >= 1 && width >= 1 && height >= 1
    ensures forall k :: 0 <= k < width * 2 ==> OnCanvas(ScopePoints(samples, ch, width * 2, height * 4)[k], width, height)
    ensures (height * 4 / 2) / 4 < height
  {
  }

  // ----- Vectorscope -----

  /** The crosshair: the centre column from top to bottom, then the centre row from left to right. */
  function Crosshair(cols: nat, rows: nat): seq<bv8> {
    var pxW := cols * 2;
    var pxH := rows * 4;
    PlotAll(Zeros(cols * rows), cols, rows, VLine(pxW / 2, pxH) + HLine(pxH / 2, pxW))
  }

  /** The pixel of frame `i`: side (L − R) across, mid (L + R) up, each scaled by 0.707 and the radius. */
  function VectorPoint(samples: seq<real>, ch: nat, pxW: nat, pxH: nat, i: nat): Pixel
    requires ch >= 1 && pxW >= 1 && pxH >= 1
    requires (i + 1) * ch <= |samples|
  {
    var left := Numeric.Clamp(samples[i * ch], -1.0, 1.0);
    var right := if ch >= 2 then Numeric.Clamp(samples[i * ch + 1], -1.0, 1.0) else left;
    Pixel(SideColumn(left, right, pxW, pxH), MidRow(left, right, pxW, pxH))
  }

  /** The plot radius: half the smaller pixel dimension, so the plot is square. */
  function Radius(pxW: nat, pxH: nat): real {
    Numeric.MinReal(pxW as real / 2.0, pxH as real / 2.0)
  }

  /** The pixel column of a frame: the centre plus the side component (L − R) · 0.707, scaled. */
  function SideColumn(left: real, right: real, pxW: nat, pxH: nat): (x: nat)
    requires pxW >= 1
    ensures x < pxW
  {
    Offset(pxW as real / 2.0, (left - right) * 0.707 * Radius(pxW, pxH), pxW)
  }

  /** The pixel row of a frame: the centre minus the mid component (L + R) · 0.707, scaled. */
  function MidRow(left: real, right: real, pxW: nat, pxH: nat): (y: nat)
    requires pxH >= 1
    ensures y < pxH
  {
    Offset(pxH as real / 2.0, -((left + right) * 0.707 * Radius(pxW, pxH)), pxH)
  }

  /** A pixel coordinate `centre + delta`, clamped to `[0, extent - 1]` and truncated. */
  function Offset(centre: real, delta: real, extent: nat): (v: nat)
    requires extent >= 1
    ensures v < extent
  {
    Numeric.CastUnsigned(Numeric.Clamp(centre + delta, 0.0, extent as real - 1.0))
  }

  lemma FrameInBounds(n: nat, ch: nat, i: nat)
    requires ch >= 1 && i < n / ch
    ensures (i + 1) * ch <= n
  {
    MulMono(i + 1, n / ch, ch);
  }

  function VectorPoints(samples: seq<real>, ch: nat, pxW: nat, pxH: nat): (ps: seq<Pixel>)
    requires ch >= 1 && pxW >= 1 && pxH >= 1
    ensures |ps| == |samples| / ch
  {
    seq(|samples| / ch, i requires 0 <= i < |samples| / ch =>
      FrameInBounds(|samples|, ch, i);
      VectorPoint(samples, ch, pxW, pxH, i))
  }

  /** Every vectorscope pixel is clamped onto the canvas. */
  lemma VectorPointOnCanvas(samples: seq<real>, ch: nat, width: nat, height: nat, i: nat)
    requires ch >= 1 && width >= 1 && height >= 1 && (i + 1) * ch <= |samples|
    ensures OnCanvas(VectorPoint(samples, ch, width * 2, height * 4, i), width, height)
  {
    var p := VectorPoint(samples, ch, width * 2, height * 4, i);
    assert p.x < width * 2 && p.y < height * 4;
  }

  /** A mono frame has no side component and plots on the centre pixel column. */
  lemma MonoOnCentreColumn(samples: seq<real>, width: nat, height: nat, i: nat)
    requires width >= 1 && height >= 1 && i + 1 <= |samples|
    ensures VectorPoint(samples, 1, width * 2, height * 4, i).x == width
  {
    var left := Numeric.Clamp(samples[i * 1], -1.0, 1.0);
    assert VectorPoint(samples, 1, width * 2, height * 4, i).x == SideColumn(left, left, width * 2, height * 4);
    assert (left - left) * 0.707 * Radius(width * 2, height * 4) == 0.0;
    assert (width * 2) as real / 2.0 == width as real;
  }

  /** `VectorscopeWidget::render`, up to the cells it produces. */
  method Vectorscope(width: nat, height: nat, samples: seq<real>, channels: nat) returns (r: Option<Scope>)
    ensures width == 0 || height == 0 || samples == [] <==> r.None?
    ensures r.Some? ==>
      var ch := ChannelCount(channels);
      r.value.reference == Crosshair(width, height) &&
      r.value.cells == PlotAll(r.value.reference, width, height, VectorPoints(samples, ch, width * 2, height * 4))
  {
    if width == 0 || height == 0 {
      return None;
    }
    if samples == [] {
      return None;
    }
    var ch := ChannelCount(channels);
    var pxW := width * 2;
    var pxH := height * 4;
    var cols := width;
    var rows := height;
    var grid := BlankGrid(cols * rows);
    ghost var zero := Zeros(cols * rows);

    var centrePxX := pxW / 2;
    DrawVLine(grid, cols, rows, centrePxX, pxH);
    var centrePy := pxH / 2;
    DrawHLine(grid, cols, rows, centrePy, pxW);
    PlotAllAppend(zero, cols, rows, VLine(centrePxX, pxH), HLine(centrePy, pxW));
    var reference := grid[..];
    PlotFrames(grid, cols, rows, samples, ch);
    return Some(Scope(grid[..], reference));
  }

  /** Pixel column `px` from the top pixel row down to `h`. */
  method DrawVLine(grid: array<bv8>, cols: nat, rows: nat, px: nat, h: nat)
    requires grid.Length == cols * rows
    modifies grid
    ensures grid[..] == PlotAll(old(grid[..]), cols, rows, VLine(px, h))
  {
    ghost var start := grid[..];
    for py := 0 to h
      invariant grid[..] == PlotAll(start, cols, rows, VLine(px, py))
    {
      assert VLine(px, py + 1) == VLine(px, py) + [Pixel(px, py)];
      PlotAllSnoc(start, cols, rows, VLine(px, py), Pixel(px, py));
      SetDot(grid, cols, rows, Pixel(px, py));
    }
  }

  /** Pixel row `py` from the left pixel column across to `w`. */
  method DrawHLine(grid: array<bv8>, cols: nat, rows: nat, py: nat, w: nat)
    requires grid.Length == cols * rows
    modifies grid
    ensures grid[..] == PlotAll(old(grid[..]), cols, rows, HLine(py, w))
  {
    ghost var start := grid[..];
    for px := 0 to w
      invariant grid[..] == PlotAll(start, cols, rows, HLine(py, px))
    {
      assert HLine(py, px + 1) == HLine(py, px) + [Pixel(px, py)];
      PlotAllSnoc(start, cols, rows, HLine(py, px), Pixel(px, py));
      SetDot(grid, cols, rows, Pixel(px, py));
    }
  }

  /** The sample pass: one pixel per whole frame. */
  method PlotFrames(grid: array<bv8>, cols: nat, rows: nat, samples: seq<real>, ch: nat)
    requires grid.Length == cols * rows && ch >= 1 && cols >= 1 && rows >= 1
    modifies grid
    ensures grid[..] == PlotAll(old(grid[..]), cols, rows, VectorPoints(samples, ch, cols * 2, rows * 4))
  {
    var pxW := cols * 2;
    var pxH := rows * 4;
    ghost var start := grid[..];
    var numFrames := |samples| / ch;
    ghost var points := VectorPoints(samples, ch, pxW, pxH);
    for i := 0 to numFrames
      invariant grid[..] == PlotAll(start, cols, rows, points[..i])
    {
      FrameInBounds(|samples|, ch, i);
      var p := VectorPoint(samples, ch, pxW, pxH, i);
      PlotNext(grid, cols, rows, p, start, points, i);
    }
    assert points[..numFrames] == points;
  }

  // ----- Spectroscope -----

  function Sum(xs: seq<real>): real {
    if xs == [] then 0.0 else Sum(xs[..|xs| - 1]) + xs[|xs| - 1]
  }

  /** The mean of the channels of frame `i`. */
  function FrameMean(samples: seq<real>, ch: nat, i: nat): real
    requires ch >= 1 && i < |samples| / ch
  {
    FrameInBounds(|samples|, ch, i);
    Sum(samples[i * ch..i * ch + ch]) / ch as real
  }

  /** The mono mix-down: one mean per whole frame; a trailing partial frame is dropped. */
  method MonoMix(samples: seq<real>, ch: nat) returns (mono: seq<real>)
    requires ch >= 1
    ensures |mono| == |samples| / ch
    ensures forall i :: 0 <= i < |mono| ==> mono[i] == FrameMean(samples, ch, i)
  {
    var numFrames := |samples| / ch;
    mono := [];
    for i := 0 to numFrames
      invariant |mono| == i
      invariant forall j :: 0 <= j < i ==> mono[j] == FrameMean(samples, ch, j)
    {
      var sum := FrameSum(samples, ch, i);
      mono := mono + [sum / ch as real];
    }
  }

  /** The inner accumulator loop of the mix-down. */
  method FrameSum(samples: seq<real>, ch: nat, i: nat) returns (sum: real)
    requires ch >= 1 && i < |samples| / ch
    ensures sum / ch as real == FrameMean(samples, ch, i)
  {
    FrameInBounds(|samples|, ch, i);
    var base := i * ch;
    sum := 0.0;
    for c := 0 to ch
      invariant sum == Sum(samples[base..base + c])
    {
      assert samples[base..base + c + 1] == samples[base..base + c] + [samples[base + c]];
      sum := sum + samples[base + c];
    }
  }

  predicate IsPow2(n: nat) {
    n == 1 || (n >= 2 && n % 2 == 0 && IsPow2(n / 2))
  }

  /** The least power of two that is at least `n`, searching up from the power of two `p`. */
  function NextPow2From(p: nat, n: nat): (q: nat)
    requires IsPow2(p)
    ensures IsPow2(q) && q >= n && q >= p
    ensures q > p ==> q / 2 < n
    decreases n - p
  {
    if p >= n then p else NextPow2From(2 * p, n)
  }

  /** `usize::next_power_of_two` (0 gives 1). */
  function NextPowerOfTwo(n: nat): (q: nat)
    ensures IsPow2(q) && q >= n && (q >= 2 ==> q / 2 < n)
  {
    NextPow2From(1, n)
  }

  /** The FFT length, `mono.len().next_power_of_two().max(64)`, and half of it, the bin count. */
  function NumBins(monoLen: nat): (nb: nat)
    ensures nb >= 32
    ensures monoLen <= 2 * nb
  {
    Numeric.Max(NextPowerOfTwo(monoLen), 64) / 2
  }

  /** The bins column averages: its clamped bin and one neighbour on each side that exists. */
  function BinWindow(rawBin: nat, numBins: nat): (w: (nat, nat))
    requires numBins > 1
    ensures w.0 < w.1 <= numBins - 1
    ensures w.1 - w.0 + 1 == 2 || w.1 - w.0 + 1 == 3
    ensures var bin := if rawBin < 1 then 1 else if rawBin > numBins - 1 then numBins - 1 else rawBin;
      w.0 <= bin <= w.1 && w.0 == bin - 1
  {
    var bin := if rawBin < 1 then 1 else if rawBin > numBins - 1 then numBins - 1 else rawBin;
    (Numeric.SatSub(bin, 1), Numeric.Min(bin + 1, numBins - 1))
  }

  function ColMag(mags: seq<real>, rawBin: nat): real
    requires |mags| > 1
  {
    var (lo, hi) := BinWindow(rawBin, |mags|);
    Sum(mags[lo..hi + 1]) / (hi - lo + 1) as real
  }

  /** Each column's magnitude: the mean of the magnitudes in its bin window. */
  method ColumnMagnitudes(mags: seq<real>, rawBins: seq<nat>) returns (colMags: seq<real>)
    ensures |colMags| == |rawBins|
    ensures |mags| > 1 ==> forall c :: 0 <= c < |rawBins| ==> colMags[c] == ColMag(mags, rawBins[c])
    ensures |mags| <= 1 ==> forall c :: 0 <= c < |rawBins| ==> colMags[c] == 0.0
  {
    colMags := seq(|rawBins|, _ => 0.0);
    var numBins := |mags|;
    if numBins > 1 {
      for col := 0 to |rawBins|
        invariant |colMags| == |rawBins|
        invariant forall c :: 0 <= c < col ==> colMags[c] == ColMag(mags, rawBins[c])
      {
        var (lo, hi) := BinWindow(rawBins[col], numBins);
        var sum := 0.0;
        var count := 0;
        for b := lo to hi + 1
          invariant sum == Sum(mags[lo..b]) && count == b - lo
        {
          assert mags[lo..b + 1] == mags[lo..b] + [mags[b]];
          sum := sum + mags[b];
          count := count + 1;
        }
        colMags := colMags[col := sum / count as real];
      }
    }
  }

  /** The normalising maximum: the largest column magnitude, but at least 0.001. */
  function MaxMag(colMags: seq<real>): (m: real)
    ensures m >= 0.001
    ensures forall c :: 0 <= c < |colMags| ==> colMags[c] <= m
    ensures m == 0.001 || exists c :: 0 <= c < |colMags| && colMags[c] == m
  {
    if colMags == [] then 0.001
    else
      var rest := MaxMag(colMags[..|colMags| - 1]);
      var last := colMags[|colMags| - 1];
      assert forall c :: 0 <= c < |colMags| - 1 ==> colMags[c] == colMags[..|colMags| - 1][c];
      if last > rest then last else rest
  }

  /** A column's bar height in pixels: its share of the maximum, rounded, capped at the canvas height. */
  function BarHeight(mag: real, maxMag: real, pxH: nat): (h: nat)
    requires maxMag > 0.0
    ensures h <= pxH
    ensures mag <= 0.0 ==> h == 0
    ensures mag == maxMag ==> h == pxH
  {
    var r := Numeric.Round(mag / maxMag * pxH as real);
    assert mag == maxMag ==> mag / maxMag * pxH as real == pxH as real;
    Numeric.Min(if r < 0 then 0 else r, pxH)
  }

  /** Column `col`'s bar: both dots of every pixel row from `pxH - h` down to the bottom. */
  function Bar(col: nat, h: nat, pxH: nat): (ps: seq<Pixel>)
    requires h <= pxH
    ensures |ps| == 2 * h
  {
    seq(2 * h, k requires 0 <= k < 2 * h => Pixel(2 * col + k % 2, pxH - h + k / 2))
  }

  /** Every pixel of the bar lies in column `col`'s cells, between pixel rows `pxH - h` and `pxH`. */
  lemma BarInColumn(col: nat, h: nat, pxH: nat)
    requires h <= pxH
    ensures var ps := Bar(col, h, pxH);
      forall k :: 0 <= k < |ps| ==> ps[k].x / 2 == col && pxH - h <= ps[k].y < pxH
  {
  }

  /** Pixel row `pxH - h + j` of the bar is pixels `2 * j` (left dot) and `2 * j + 1` (right dot). */
  lemma BarRow(col: nat, h: nat, pxH: nat, j: nat)
    requires j < h <= pxH
    ensures Bar(col, h, pxH)[2 * j] == Pixel(2 * col, pxH - h + j)
    ensures Bar(col, h, pxH)[2 * j + 1] == Pixel(2 * col + 1, pxH - h + j)
  {
    var k := 2 * j;
    assert k % 2 == 0 && k / 2 == j;
    assert (k + 1) % 2 == 1 && (k + 1) / 2 == j;
  }

  /** The bars of the first `n` columns, left to right. */
  function Bars(colMags: seq<real>, maxMag: real, pxH: nat, n: nat): seq<Pixel>
    requires maxMag > 0.0 && n <= |colMags|
  {
    if n == 0 then []
    else Bars(colMags, maxMag, pxH, n - 1) + Bar(n - 1, BarHeight(colMags[n - 1], maxMag, pxH), pxH)
  }

  /** Silence draws nothing: all-zero magnitudes give no bar pixels. */
  lemma {:induction false} SilentBars(colMags: seq<real>, maxMag: real, pxH: nat, n: nat)
    requires maxMag > 0.0 && n <= |colMags|
    requires forall c :: 0 <= c < |colMags| ==> colMags[c] == 0.0
    ensures Bars(colMags, maxMag, pxH, n) == []
  {
    if n > 0 {
      SilentBars(colMags, maxMag, pxH, n - 1);
    }
  }

  /** `SpectroscopeWidget::render` from the FFT magnitudes on, up to the cells it produces. */
  method Spectroscope(width: nat, height: nat, samples: seq<real>, channels: nat, mags: seq<real>, rawBins: seq<nat>)
    returns (r: Option<seq<bv8>>)
    requires |samples| > 0 && width > 0 && height > 0 ==>
      |mags| == NumBins(|samples| / ChannelCount(channels)) && |rawBins| == width
    ensures width == 0 || height == 0 || samples == [] <==> r.None?
    ensures r.Some? ==>
      var colMags := seq(width, c requires 0 <= c < width => ColMag(mags, rawBins[c]));
      r.value == PlotAll(Zeros(width * height), width, height, Bars(colMags, MaxMag(colMags), height * 4, width))
  {
    if width == 0 || height == 0 {
      return None;
    }
    if samples == [] {
      return None;
    }
    var ch := ChannelCount(channels);
    var pxH := height * 4;
    var cols := width;
    var rows := height;
    var mono := MonoMix(samples, ch);
    // the FFT of `mono`, an input here, has one magnitude per bin of the padded length
    assert |mags| == NumBins(|mono|);
    var colMags := ColumnMagnitudes(mags, rawBins);
    assert colMags == seq(width, c requires 0 <= c < width => ColMag(mags, rawBins[c]));
    var maxMag := MaxMag(colMags);
    var cells := DrawBars(colMags, maxMag, cols, rows, pxH);
    return Some(cells);
  }

  /** The bars of every column drawn, one after the other, into a blank grid. */
  method DrawBars(colMags: seq<real>, maxMag: real, cols: nat, rows: nat, pxH: nat) returns (cells: seq<bv8>)
    requires maxMag > 0.0 && cols == |colMags|
    ensures cells == PlotAll(Zeros(cols * rows), cols, rows, Bars(colMags, maxMag, pxH, cols))
  {
    var grid := BlankGrid(cols * rows);
    ghost var zero := Zeros(cols * rows);
    for col := 0 to cols
      invariant grid[..] == PlotAll(zero, cols, rows, Bars(colMags, maxMag, pxH, col))
    {
      DrawColumn(grid, colMags, maxMag, cols, rows, pxH, col, zero);
    }
    cells := grid[..];
  }

  /** Drawing column `col`'s bar extends the grid from the first `col` bars to the first `col + 1`. */
  method DrawColumn(grid: array<bv8>, colMags: seq<real>, maxMag: real, cols: nat, rows: nat, pxH: nat, col: nat,
                    ghost zero: seq<bv8>)
    requires maxMag > 0.0 && col < |colMags| && grid.Length == cols * rows && |zero| == cols * rows
    requires grid[..] == PlotAll(zero, cols, rows, Bars(colMags, maxMag, pxH, col))
    modifies grid
    ensures grid[..] == PlotAll(zero, cols, rows, Bars(colMags, maxMag, pxH, col + 1))
  {
    var h := BarHeight(colMags[col], maxMag, pxH);
    PlotAllAppend(zero, cols, rows, Bars(colMags, maxMag, pxH, col), Bar(col, h, pxH));
    DrawBar(grid, cols, rows, col, h, pxH);
  }

  /** One bar, filled from pixel row `pxH - h` to the bottom, both dots of each row. */
  method DrawBar(grid: array<bv8>, cols: nat, rows: nat, col: nat, h: nat, pxH: nat)
    requires grid.Length == cols * rows && h <= pxH
    modifies grid
    ensures grid[..] == PlotAll(old(grid[..]), cols, rows, Bar(col, h, pxH))
  {
    ghost var start := grid[..];
    ghost var bar := Bar(col, h, pxH);
    ghost var j: nat := 0;
    for py := pxH - h to pxH
      invariant py == pxH - h + j && j <= h
      invariant grid[..] == PlotAll(start, cols, rows, bar[..2 * j])
    {
      BarRow(col, h, pxH, j);
      PlotNext(grid, cols, rows, Pixel(2 * col, py), start, bar, 2 * j);
      PlotNext(grid, cols, rows, Pixel(2 * col + 1, py), start, bar, 2 * j + 1);
      j := j + 1;
    }
    assert bar[..2 * j] == bar;
  }

  /** With at least 32 bins the `num_bins > 1` averaging branch is always taken. */
  lemma SpectrumHasBins(monoLen: nat)
    ensures NumBins(monoLen) > 1
  {
  }

  datatype Colour = Green | DarkGray | Red | Yellow

  lemma FracBelow(a: nat, b: nat, t: real)
    requires b > 0
    ensures a as real / b as real < t <==> a as real < t * b as real
  {
    var f := a as real / b as real;
    assert f * b as real == a as real;
  }

  /** A scope cell is green iff it has a bit beyond the reference lines. */
  function ScopeColour(dots: bv8, reference: bv8): (c: Colour)
    ensures c == Green <==> dots & !reference != 0
    ensures c == Green || c == DarkGray
  {
    if dots & !reference != 0 then Green else DarkGray
  }

  /** A spectroscope cell's colour: red in the top third, yellow in the middle, green below; empty cells grey. */
  function SpectrumColour(dots: bv8, cy: nat, rows: nat): (c: Colour)
    requires cy < rows
    ensures dots == 0 <==> c == DarkGray
    ensures dots != 0 && 100 * cy < 33 * rows ==> c == Red
    ensures dots != 0 && 33 * rows <= 100 * cy < 66 * rows ==> c == Yellow
    ensures dots != 0 && 100 * cy >= 66 * rows ==> c == Green
  {
    var frac := cy as real / rows as real;
    FracBelow(cy, rows, 0.33);
    FracBelow(cy, rows, 0.66);
    if dots != 0 then
      if frac < 0.33 then Red else if frac < 0.66 then Yellow else Green
    else DarkGray
  }
}
