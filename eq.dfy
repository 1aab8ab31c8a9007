/**
 * The 32-band graphic equalizer (src/eq.rs): its parameters, presets, the bank of per-channel
 * peaking filters with its change-detecting cache, and the three-line text file it is stored in.
 *
 * Filter coefficient design is floating-point work done by the `biquad` crate; here it is the
 * `designer` function every filter bank is built with. The per-sample filter step is the crate's
 * Direct Form II transposed update, written out.
 */
module Eq {
  import opened Wrappers
  import opened Text
  import Numeric

  const NUM_BANDS: nat := 32
  const MAX_GAIN: real := 12.0

  /** The 1/3-octave ISO centre frequencies of the bands, in Hz. */
  const BAND_FREQS: seq<real> := [
    16.0, 20.0, 25.0, 31.5, 40.0, 50.0, 63.0, 80.0, 100.0, 125.0, 160.0, 200.0, 250.0, 315.0,
    400.0, 500.0, 630.0, 800.0, 1000.0, 1250.0, 1600.0, 2000.0, 2500.0, 3150.0, 4000.0, 5000.0,
    6300.0, 8000.0, 10000.0, 12500.0, 16000.0, 20000.0
  ]

  /** Every band at 0 dB. */
  const FLAT: seq<real> := [
    0.0, 0.0, 0.0, 0.0, 0.0, 0.0, 0.0, 0.0,
    0.0, 0.0, 0.0, 0.0, 0.0, 0.0, 0.0, 0.0,
    0.0, 0.0, 0.0, 0.0, 0.0, 0.0, 0.0, 0.0,
    0.0, 0.0, 0.0, 0.0, 0.0, 0.0, 0.0, 0.0]

  /** One gain in dB per band: the `[f32; NUM_BANDS]` array. */
  type Gains = g: seq<real> | |g| == NUM_BANDS witness FLAT

  datatype EqParams = EqParams(enabled: bool, gains: Gains, presetIndex: nat)

  /** `EqParams::default`: enabled, flat, first preset. */
  function DefaultParams(): (p: EqParams)
    ensures p.enabled && p.presetIndex == 0
    ensures forall i :: 0 <= i < NUM_BANDS ==> p.gains[i] == 0.0
  {
    EqParams(true, FLAT, 0)
  }

  predicate InRange(g: seq<real>) {
    forall i :: 0 <= i < |g| ==> -MAX_GAIN <= g[i] <= MAX_GAIN
  }

  /** A named preset; every preset gain is a whole number of decibels. */
  datatype Preset = Preset(name: string, db: seq<int>)

  const FLAT_DB: seq<int> := [
      0, 0, 0, 0, 0, 0, 0, 0,
      0, 0, 0, 0, 0, 0, 0, 0,
      0, 0, 0, 0, 0, 0, 0, 0,
      0, 0, 0, 0, 0, 0, 0, 0]
  const ROCK_DB: seq<int> := [
       3,  3,  3,  4,  4,  3,  2,  1,
       0,  0, -1, -1, -1,  0,  0,  0,
       1,  1,  2,  2,  3,  3,  3,  4,
       4,  4,  3,  3,  3,  2,  2,  1]
  const POP_DB: seq<int> := [
      -1, -1,  0,  0,  1,  2,  3,  3,
       4,  4,  3,  3,  2,  2,  1,  0,
      -1, -1, -1, -1,  0,  0,  0,  0,
       1,  1,  2,  2,  2,  1,  1,  0]
  const JAZZ_DB: seq<int> := [
       3,  3,  3,  2,  2,  1,  0,  0,
       0,  0,  1,  2,  2,  1,  0, -1,
      -2, -2, -1,  0,  0,  1,  2,  2,
       3,  3,  3,  3,  4,  4,  3,  3]
  const CLASSICAL_DB: seq<int> := [
       4,  4,  3,  3,  3,  2,  2,  1,
       1,  0,  0, -1, -1, -1, -1,  0,
       0,  0,  0,  0, -1, -1,  0,  0,
       1,  2,  2,  3,  3,  3,  4,  4]
  const BASS_BOOST_DB: seq<int> := [
       8,  8,  7,  7,  6,  6,  5,  5,
       4,  4,  3,  2,  1,  0,  0,  0,
       0,  0,  0,  0,  0,  0,  0,  0,
       0,  0,  0,  0,  0,  0,  0,  0]
  const TREBLE_BOOST_DB: seq<int> := [
       0,  0,  0,  0,  0,  0,  0,  0,
       0,  0,  0,  0,  0,  0,  0,  0,
       0,  0,  0,  1,  2,  2,  3,  4,
       5,  5,  6,  6,  7,  7,  8,  8]
  const VOCAL_DB: seq<int> := [
      -2, -2, -2, -1, -1,  0,  0,  0,
       0,  0,  0,  1,  2,  3,  3,  4,
       5,  5,  5,  4,  3,  3,  2,  1,
       0,  0,  0,  0, -1, -1, -2, -2]
  const MELODIC_DEATH_DB: seq<int> := [
       4,  4,  5,  5,  6,  5,  4,  3,
       2,  1,  0, -1, -2, -2, -1,  0,
       1,  2,  3,  4,  5,  5,  4,  3,
       3,  4,  5,  5,  4,  3,  2,  1]
  const HEAVY_METAL_DB: seq<int> := [
       5,  5,  6,  6,  5,  4,  3,  2,
       1,  0, -1, -2, -3, -3, -2, -1,
       0,  1,  2,  3,  4,  5,  5,  5,
       6,  6,  5,  5,  4,  3,  2,  1]
  const POWER_METAL_DB: seq<int> := [
       3,  3,  4,  5,  5,  4,  3,  2,
       1,  0,  0,  0,  1,  1,  2,  2,
       3,  3,  4,  5,  5,  5,  4,  4,
       5,  5,  6,  6,  5,  4,  3,  2]

  const PRESETS: seq<Preset> := [
    Preset("Flat", FLAT_DB),
    Preset("Rock", ROCK_DB),
    Preset("Pop", POP_DB),
    Preset("Jazz", JAZZ_DB),
    Preset("Classical", CLASSICAL_DB),
    Preset("Bass Boost", BASS_BOOST_DB),
    Preset("Treble Boost", TREBLE_BOOST_DB),
    Preset("Vocal", VOCAL_DB),
    Preset("Melodic Death", MELODIC_DEATH_DB),
    Preset("Heavy Metal", HEAVY_METAL_DB),
    Preset("Power Metal", POWER_METAL_DB)
  ]

  /** One gain per band, each a whole number of decibels within the allowed range. */
  predicate DbFits(db: seq<int>) {
    |db| == NUM_BANDS && forall x :: x in db ==> -12 <= x <= 12
  }

  lemma PresetsFit0()
    ensures DbFits(FLAT_DB) && DbFits(ROCK_DB) && DbFits(POP_DB)
  {
  }

  lemma PresetsFit1()
    ensures DbFits(JAZZ_DB) && DbFits(CLASSICAL_DB) && DbFits(BASS_BOOST_DB)
  {
  }

  lemma PresetsFit2()
    ensures DbFits(TREBLE_BOOST_DB) && DbFits(VOCAL_DB) && DbFits(MELODIC_DEATH_DB)
  {
  }

  lemma PresetsFit3()
    ensures DbFits(HEAVY_METAL_DB) && DbFits(POWER_METAL_DB)
  {
  }

  /** Every preset has one gain per band, within the allowed range. */
  lemma PresetsWellFormed()
    ensures |PRESETS| == 11
    ensures forall k :: 0 <= k < |PRESETS| ==>
      |PRESETS[k].db| == NUM_BANDS && forall i :: 0 <= i < NUM_BANDS ==> -12 <= PRESETS[k].db[i] <= 12
  {
    PresetsFit0();
    PresetsFit1();
    PresetsFit2();
    PresetsFit3();
    assert forall k :: 0 <= k < |PRESETS| ==> DbFits(PRESETS[k].db);
    forall k, i | 0 <= k < |PRESETS| && 0 <= i < NUM_BANDS ensures -12 <= PRESETS[k].db[i] <= 12 {
      assert PRESETS[k].db[i] in PRESETS[k].db;
    }
  }

  /** The gain vector preset `k` selects. */
  function PresetGains(k: nat): (g: Gains)
    requires k < |PRESETS|
    ensures InRange(g) && Whole(g)
  {
    PresetsWellFormed();
    seq(NUM_BANDS, i requires 0 <= i < NUM_BANDS => PRESETS[k].db[i] as real)
  }

  /** The preset name the equalizer popup shows: "Custom" for an index past the table. */
  function PresetName(index: nat): (name: string)
    ensures index < |PRESETS| ==> name == PRESETS[index].name
    ensures index >= |PRESETS| ==> name == "Custom"
  {
    if index < |PRESETS| then PRESETS[index].name else "Custom"
  }

  // ----- Filters -----

  /** Biquad coefficients normalised so that a0 = 1. */
  datatype Coefficients = Coefficients(b0: real, b1: real, b2: real, a1: real, a2: real)

  /** What a peaking filter is designed from: centre frequency, gain in dB, sample rate. */
  datatype Design = Design(freq: real, gainDb: real, sampleRate: real)

  /** A Direct Form II transposed biquad: its design, its coefficients and its two state registers. */
  datatype Biquad = Biquad(design: Design, coeffs: Coefficients, s1: real, s2: real)

  /**
   * The frequency `make_filter` designs at: capped at Nyquist minus 1 Hz, then raised to at
   * least 1 Hz (so a sample rate below 4 Hz gives 1 Hz).
   */
  function ClampFreq(freq: real, sampleRate: real): (r: real)
    ensures r >= 1.0
    ensures sampleRate >= 4.0 ==> r <= sampleRate / 2.0 - 1.0
    ensures 1.0 <= freq <= sampleRate / 2.0 - 1.0 ==> r == freq
    ensures freq <= 1.0 ==> r == 1.0
  {
    Numeric.MaxReal(Numeric.MinReal(freq, sampleRate / 2.0 - 1.0), 1.0)
  }

  /** `make_filter`: a fresh filter (zero state) designed at the clamped frequency. */
  function MakeFilter(freq: real, gainDb: real, sampleRate: real, designer: Design -> Coefficients): (f: Biquad)
    ensures f.design == Design(ClampFreq(freq, sampleRate), gainDb, sampleRate)
    ensures f.coeffs == designer(f.design)
    ensures Quiet(f)
  {
    var d := Design(ClampFreq(freq, sampleRate), gainDb, sampleRate);
    Biquad(d, designer(d), 0.0, 0.0)
  }

  /** A filter whose state registers are both zero, as a freshly made one is. */
  predicate Quiet(f: Biquad) {
    f.s1 == 0.0 && f.s2 == 0.0
  }

  /** One step of `DirectForm2Transposed::run`: the new filter state and the output sample. */
  function Run(f: Biquad, x: real): (Biquad, real) {
    var c := f.coeffs;
    var y := f.s1 + c.b0 * x;
    (f.(s1 := f.s2 + c.b1 * x - c.a1 * y, s2 := c.b2 * x - c.a2 * y), y)
  }

  /**
   * Running a sample through a chain of filters in order: the updated filters and the final output.
   * Only the state registers change; each filter keeps its design and coefficients.
   */
  function Chain(fs: seq<Biquad>, x: real): (r: (seq<Biquad>, real))
    ensures |r.0| == |fs|
    ensures forall i :: 0 <= i < |fs| ==> r.0[i].design == fs[i].design && r.0[i].coeffs == fs[i].coeffs
  {
    if fs == [] then ([], x)
    else
      var (pre, y) := Chain(fs[..|fs| - 1], x);
      var (last, z) := Run(fs[|fs| - 1], y);
      (pre + [last], z)
  }

  /** Silence in, silence out: quiet filters fed a zero sample give zero and stay quiet. */
  lemma {:induction false} ChainSilence(fs: seq<Biquad>)
    requires forall i :: 0 <= i < |fs| ==> Quiet(fs[i])
    ensures Chain(fs, 0.0).1 == 0.0
    ensures forall i :: 0 <= i < |fs| ==> Quiet(Chain(fs, 0.0).0[i])
  {
    if fs != [] {
      ChainSilence(fs[..|fs| - 1]);
    }
  }

  /** Two filter rows with the same designs and coefficients, whatever their states. */
  predicate SameTuning(a: seq<Biquad>, b: seq<Biquad>) {
    |a| == |b| && forall i :: 0 <= i < |a| ==> a[i].design == b[i].design && a[i].coeffs == b[i].coeffs
  }

  /** Running through one more filter: the chain so far, then that filter's step. */
  lemma ChainSnoc(fs: seq<Biquad>, i: nat, x: real)
    requires i < |fs|
    ensures Chain(fs[..i + 1], x)
      == (Chain(fs[..i], x).0 + [Run(fs[i], Chain(fs[..i], x).1).0], Run(fs[i], Chain(fs[..i], x).1).1)
  {
    assert fs[..i + 1][..i] == fs[..i];
  }

  /** The loop of `process`: the sample runs through the filters of one channel in band order. */
  method RunChain(row: seq<Biquad>, sample: real) returns (updated: seq<Biquad>, out: real)
    ensures (updated, out) == Chain(row, sample)
    ensures SameTuning(updated, row)
  {
    updated := row;
    out := sample;
    for i := 0 to |row|
      invariant |updated| == |row|
      invariant (updated[..i], out) == Chain(row[..i], sample)
      invariant updated[i..] == row[i..]
    {
      ChainSnoc(row, i, sample);
      ghost var done := updated[..i];
      var (f, y) := Run(updated[i], out);
      updated := updated[i := f];
      out := y;
      assert updated[..i + 1] == done + [f];
    }
    assert updated[..|row|] == updated && row[..|row|] == row;
  }

  /** The filter band `i` holds when the gains are `gains`. */
  function BandFilter(i: nat, gains: Gains, sampleRate: real, designer: Design -> Coefficients): Biquad
    requires i < NUM_BANDS
  {
    MakeFilter(BAND_FREQS[i], gains[i], sampleRate, designer)
  }

  /** `EqFilters`: `filters[channel][band]` plus the gains and enabled flag they were last built for. */
  class EqFilters {
    var filters: seq<seq<Biquad>>
    var cachedGains: Gains
    var cachedEnabled: bool
    const sampleRate: real
    const designer: Design -> Coefficients

    /** Every channel has one filter per band, each designed for its band at the cached gain. */
    ghost predicate Valid()
      reads this
    {
      ValidRows(filters)
    }

    ghost predicate ValidRows(rows: seq<seq<Biquad>>)
      reads this
    {
      forall ch :: 0 <= ch < |rows| ==>
        |rows[ch]| == NUM_BANDS &&
        forall i :: 0 <= i < NUM_BANDS ==> Tuned(rows[ch][i], i, cachedGains)
    }

    /** Replacing a row by one with the same designs and coefficients keeps every filter tuned. */
    lemma ReplaceRow(rows: seq<seq<Biquad>>, ch: nat, row: seq<Biquad>)
      requires ValidRows(rows) && ch < |rows| && SameTuning(row, rows[ch])
      ensures ValidRows(rows[ch := row])
    {
      var r := rows[ch := row];
      forall c, i | 0 <= c < |r| && 0 <= i < NUM_BANDS ensures Tuned(r[c][i], i, cachedGains) {
        if c == ch {
          assert Tuned(rows[ch][i], i, cachedGains);
        }
      }
    }

    ghost predicate Tuned(f: Biquad, i: nat, gains: Gains)
      requires i < NUM_BANDS
      reads this
    {
      var built := BandFilter(i, gains, sampleRate, designer);
      f.design == built.design && f.coeffs == built.coeffs
    }

    /** `EqFilters::new`: `channels` rows of freshly made band filters. */
    constructor (channels: nat, sampleRate: real, params: EqParams, designer: Design -> Coefficients)
      ensures Valid()
      ensures this.sampleRate == sampleRate && this.designer == designer
      ensures |filters| == channels
      ensures forall ch, i :: 0 <= ch < channels && 0 <= i < NUM_BANDS ==>
        filters[ch][i] == BandFilter(i, params.gains, sampleRate, designer)
      ensures cachedGains == params.gains && cachedEnabled == params.enabled
    {
      this.sampleRate := sampleRate;
      this.designer := designer;
      filters := seq(channels, _ => seq(NUM_BANDS, i requires 0 <= i < NUM_BANDS =>
        MakeFilter(BAND_FREQS[i], params.gains[i], sampleRate, designer)));
      cachedGains := params.gains;
      cachedEnabled := params.enabled;
    }

    /**
     * `process`: the identity while disabled; otherwise the sample runs through the channel's 32
     * filters in band order, and only that channel's filter states change.
     */
    method Process(sample: real, channel: nat) returns (out: real)
      requires Valid()
      requires cachedEnabled ==> channel < |filters|
      modifies this`filters
      ensures Valid()
      ensures !cachedEnabled ==> out == sample && filters == old(filters)
      ensures cachedEnabled ==>
        var (updated, y) := Chain(old(filters[channel]), sample);
        out == y && filters == old(filters)[channel := updated]
    {
      if !cachedEnabled {
        return sample;
      }
      var ch;
      ch, out := RunChain(filters[channel], sample);
      ReplaceRow(filters, channel, ch);
      filters := filters[channel := ch];
    }

    /**
     * `update_if_changed`: nothing happens when both the flag and the gains match the cache; the
     * flag is always brought up to date; the filters are rebuilt only when the gains differ.
     */
    method UpdateIfChanged(params: EqParams)
      requires Valid()
      modifies this`filters, this`cachedGains, this`cachedEnabled
      ensures Valid()
      ensures cachedEnabled == params.enabled && cachedGains == params.gains
      ensures |filters| == old(|filters|)
      ensures old(cachedGains) == params.gains ==> filters == old(filters)
      ensures old(cachedGains) != params.gains ==>
        forall ch, i :: 0 <= ch < |filters| && 0 <= i < NUM_BANDS ==>
          filters[ch][i] == BandFilter(i, params.gains, sampleRate, designer)
    {
      if params.enabled == cachedEnabled && params.gains == cachedGains {
        return;
      }
      cachedEnabled := params.enabled;
      if params.gains != cachedGains {
        cachedGains := params.gains;
        var ch := 0;
        while ch < |filters|
          invariant 0 <= ch <= |filters| == old(|filters|)
          invariant cachedGains == params.gains && cachedEnabled == params.enabled
          invariant forall c :: 0 <= c < ch ==> |filters[c]| == NUM_BANDS
          invariant forall c, i :: 0 <= c < ch && 0 <= i < NUM_BANDS ==>
            filters[c][i] == BandFilter(i, cachedGains, sampleRate, designer)
          invariant forall c :: ch <= c < |filters| ==> filters[c] == old(filters[c])
        {
          var row := RebuiltRow();
          filters := filters[ch := row];
          ch := ch + 1;
        }
      }
    }

    /** One channel's filters made afresh for the cached gains. */
    method RebuiltRow() returns (row: seq<Biquad>)
      ensures |row| == NUM_BANDS
      ensures forall i :: 0 <= i < NUM_BANDS ==> row[i] == BandFilter(i, cachedGains, sampleRate, designer)
    {
      row := [];
      for i := 0 to NUM_BANDS
        invariant |row| == i
        invariant forall j :: 0 <= j < i ==> row[j] == BandFilter(j, cachedGains, sampleRate, designer)
      {
        row := row + [MakeFilter(BAND_FREQS[i], cachedGains[i], sampleRate, designer)];
      }
    }
  }

  // ----- The settings file -----

  predicate Whole(g: seq<real>) {
    forall i :: 0 <= i < |g| ==> g[i] == g[i].Floor as real
  }

  /** The gain `load_eq` takes for band `i` from the comma-separated fields of the third line. */
  function GainField(fields: seq<string>, i: nat): (g: real)
    ensures -MAX_GAIN <= g <= MAX_GAIN
  {
    if i < |fields| then
      match ParseDecimal(Trim(fields[i]))
      case Some(v) => Numeric.Clamp(v, -MAX_GAIN, MAX_GAIN)
      case None => 0.0
    else 0.0
  }

  function GainsFromFields(fields: seq<string>): (g: Gains)
    ensures InRange(g)
  {
    seq(NUM_BANDS, i requires 0 <= i < NUM_BANDS => GainField(fields, i))
  }

  /** The first line enables the equalizer iff it trims to "true"; a file without one enables it. */
  function EnabledLine(lines: seq<string>): bool {
    if |lines| >= 1 then Trim(lines[0]) == "true" else true
  }

  /** The second line is the preset index; 0 when it is missing or not a `usize`. */
  function PresetLine(lines: seq<string>): nat {
    if |lines| >= 2 then ParseUnsigned(Trim(lines[1]), 10, USIZE_BOUND).UnwrapOr(0) else 0
  }

  /** The third line holds the comma-separated gains; a missing one reads as "". */
  function GainsLine(lines: seq<string>): string {
    if |lines| >= 3 then lines[2] else ""
  }

  /** What `load_eq` makes of the file's content (`None` when the file cannot be read). */
  function ParseEq(content: Option<string>): (p: EqParams)
    ensures InRange(p.gains)
    ensures content.None? ==> p == DefaultParams()
  {
    match content
    case None => DefaultParams()
    case Some(text) =>
      var lines := Lines(text);
      EqParams(EnabledLine(lines), GainsFromFields(Split(GainsLine(lines), ',')), PresetLine(lines))
  }

  /** `load_eq`, given the file's content. */
  method LoadEq(content: Option<string>) returns (p: EqParams)
    ensures p == ParseEq(content)
  {
    if content.None? {
      return DefaultParams();
    }
    var lines := Lines(content.value);
    var gains := FillGains(Split(GainsLine(lines), ','));
    p := EqParams(EnabledLine(lines), gains, PresetLine(lines));
  }

  /** The first `n` bands of `vals` over flat gains: what the loop of `load_eq` holds after `n` fields. */
  function Filled(vals: Gains, n: nat): (g: Gains)
    requires n <= NUM_BANDS
    ensures forall j :: n <= j < NUM_BANDS ==> g[j] == 0.0
  {
    if n == 0 then FLAT else Filled(vals, n - 1)[n - 1 := vals[n - 1]]
  }

  /** The gain loop of `load_eq`: each of the first 32 fields that parses, clamped, fills its band. */
  method FillGains(fields: seq<string>) returns (gains: Gains)
    ensures gains == GainsFromFields(fields)
  {
    ghost var vals := GainsFromFields(fields);
    gains := FLAT;
    var i := 0;
    while i < |fields|
      invariant 0 <= i <= |fields| && i <= NUM_BANDS
      invariant gains == Filled(vals, i)
    {
      if i >= NUM_BANDS {
        break;
      }
      gains := FillBand(fields, gains, i);
      i := i + 1;
    }
    FilledGains(fields, i);
  }

  /** One pass of that loop: a field that parses sets its band to the clamped value; one that does not leaves it flat. */
  method FillBand(fields: seq<string>, gains: Gains, i: nat) returns (updated: Gains)
    requires i < |fields| && i < NUM_BANDS && gains[i] == 0.0
    ensures updated == gains[i := GainField(fields, i)]
  {
    updated := gains;
    var parsed := ParseDecimal(Trim(fields[i]));
    if parsed.Some? {
      updated := updated[i := Numeric.Clamp(parsed.value, -MAX_GAIN, MAX_GAIN)];
    }
  }

  /** Band `j` after `n` bands are filled holds `vals[j]` when `j < n`, and is flat otherwise. */
  lemma {:induction false} FilledAt(vals: Gains, n: nat, j: nat)
    requires n <= NUM_BANDS && j < NUM_BANDS
    ensures Filled(vals, n)[j] == if j < n then vals[j] else 0.0
  {
    if n > 0 && j < n - 1 {
      FilledAt(vals, n - 1, j);
    }
  }

  /** Once the fields or the bands run out, the filled gains are the loaded gains. */
  lemma FilledGains(fields: seq<string>, n: nat)
    requires n == |fields| || n == NUM_BANDS
    requires n <= NUM_BANDS
    ensures Filled(GainsFromFields(fields), n) == GainsFromFields(fields)
  {
    var vals := GainsFromFields(fields);
    forall j | 0 <= j < NUM_BANDS ensures Filled(vals, n)[j] == vals[j] {
      FilledAt(vals, n, j);
    }
  }

  /** Fields after the 32nd are ignored. */
  lemma {:induction false} ExtraFieldsIgnored(fields: seq<string>, extra: seq<string>)
    requires |fields| >= NUM_BANDS
    ensures GainsFromFields(fields + extra) == GainsFromFields(fields)
  {
    forall i | 0 <= i < NUM_BANDS
      ensures GainsFromFields(fields + extra)[i] == GainsFromFields(fields)[i]
    {
      assert (fields + extra)[i] == fields[i];
    }
  }

  function GainStrings(gains: seq<real>): (strs: seq<string>)
    ensures |strs| == |gains|
  {
    seq(|gains|, i requires 0 <= i < |gains| => FormatWhole(gains[i].Floor))
  }

  function FlagString(enabled: bool): string {
    if enabled then "true" else "false"
  }

  /**
   * `save_eq`: "true"/"false", the preset index and the comma-joined gains on three lines. Only
   * whole-decibel gains are written here.
   */
  function SaveEq(p: EqParams): string
    requires Whole(p.gains)
  {
    FlagString(p.enabled) + "\n" + NatToString(p.presetIndex) + "\n" + Join(GainStrings(p.gains), ",")
  }

  /** Saving and loading again gives back the same parameters. */
  lemma {:induction false} SaveLoadRoundTrip(p: EqParams)
    requires Whole(p.gains) && InRange(p.gains)
    requires p.presetIndex < USIZE_BOUND
    ensures ParseEq(Some(SaveEq(p))) == p
  {
    var lines := Lines(SaveEq(p));
    SavedLines(p);
    assert EnabledLine(lines) == p.enabled by {
      FlagTrim(p.enabled);
    }
    assert PresetLine(lines) == p.presetIndex by {
      ParseNatToString(p.presetIndex, USIZE_BOUND);
    }
    assert GainsLine(lines) == Join(GainStrings(p.gains), ",");
    GainsRoundTrip(p.gains);
  }

  lemma FlagTrim(b: bool)
    ensures Trim(FlagString(b)) == FlagString(b)
  {
    var f := FlagString(b);
    assert forall i :: 0 <= i < |f| ==> 'a' <= f[i] <= 'z';
    TrimNoWhitespace(f);
  }

  /** The saved file reads back as exactly its three lines. */
  lemma {:induction false} SavedLines(p: EqParams)
    requires Whole(p.gains)
    ensures Lines(SaveEq(p)) == [FlagString(p.enabled), NatToString(p.presetIndex), Join(GainStrings(p.gains), ",")]
  {
    var flag := FlagString(p.enabled);
    var idx := NatToString(p.presetIndex);
    var line3 := Join(GainStrings(p.gains), ",");
    assert forall i :: 0 <= i < |idx| ==> IsDigit(idx[i]);
    GainStringsPlain(p.gains);
    JoinNoNewline(GainStrings(p.gains));
    LinesThree(flag, idx, line3);
  }

  /** The joined gains split and parse back into the same gains. */
  lemma {:induction false} GainsRoundTrip(gains: Gains)
    requires Whole(gains) && InRange(gains)
    ensures GainsFromFields(Split(Join(GainStrings(gains), ","), ',')) == gains
  {
    var strs := GainStrings(gains);
    GainStringsPlain(gains);
    SplitJoin(strs, ',');
    forall i | 0 <= i < NUM_BANDS ensures GainsFromFields(strs)[i] == gains[i] {
      assert GainStrings(gains)[i] == FormatWhole(gains[i].Floor);
      FieldRoundTrip(strs, i, gains[i].Floor);
    }
  }

  lemma GainStringsPlain(gains: seq<real>)
    ensures forall k :: 0 <= k < |gains| ==>
      GainStrings(gains)[k] != [] && ',' !in GainStrings(gains)[k] && '\n' !in GainStrings(gains)[k]
  {
    forall k | 0 <= k < |gains|
      ensures GainStrings(gains)[k] != [] && ',' !in GainStrings(gains)[k] && '\n' !in GainStrings(gains)[k]
    {
      var s := FormatWhole(gains[k].Floor);
      assert GainStrings(gains)[k] == s;
    }
  }

  lemma FieldRoundTrip(strs: seq<string>, i: nat, g: int)
    requires i < |strs| && strs[i] == FormatWhole(g)
    requires -12 <= g <= 12
    ensures GainField(strs, i) == g as real
  {
    var s := FormatWhole(g);
    TrimNoWhitespace(s);
    ParseFormatWhole(g);
    assert ParseDecimal(Trim(strs[i])) == Some(g as real);
  }

  lemma {:induction false} JoinNoNewline(strs: seq<string>)
    requires |strs| >= 1
    requires forall k :: 0 <= k < |strs| ==> strs[k] != [] && '\n' !in strs[k]
    ensures Join(strs, ",") != [] && '\n' !in Join(strs, ",")
  {
    if |strs| > 1 {
      JoinNoNewline(strs[1..]);
    }
  }
}
