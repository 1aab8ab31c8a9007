/**
 * Playback transport (src/main.rs): the sample tap that sits between the decoder and the audio
 * sink, and the `App` state machine for pause, volume, seek and visualizer mode.
 *
 * The decoder, the audio sink and the named pipe are foreign. The inner source is the sequence of
 * samples it has still to yield. The sink is a value that records what the app asked of it plus the
 * time it has played. The pipe is the log of bytes written to it. Whether opening the pipe, writing
 * to it or taking the buffer's lock succeeds is passed in as a flag.
 */
module Transport {
  import opened Wrappers
  import opened Text
  import Numeric
  import opened Visualizer
  type Byte = Numeric.Byte

  const SAMPLE_BUF_SIZE: nat := 8192

  /** The buffer after one sample is pushed: a full buffer first drops its oldest sample. */
  function Pushed(buf: seq<real>, x: real): (r: seq<real>)
    ensures |buf| <= SAMPLE_BUF_SIZE ==> |r| <= SAMPLE_BUF_SIZE
    ensures r != [] && r[|r| - 1] == x
  {
    if |buf| >= SAMPLE_BUF_SIZE then buf[1..] + [x] else buf + [x]
  }

  /** The buffer after pushing `xs` in order. */
  function PushedAll(buf: seq<real>, xs: seq<real>): seq<real> {
    if xs == [] then buf else Pushed(PushedAll(buf, xs[..|xs| - 1]), xs[|xs| - 1])
  }

  /** The last `n` elements of `s` (all of it when it is shorter). */
  function LastN(s: seq<real>, n: nat): (r: seq<real>)
    ensures |r| == Numeric.Min(|s|, n)
  {
    if |s| <= n then s else s[|s| - n..]
  }

  /** The ring buffer always holds the most recent samples: the last 8192 of everything pushed. */
  lemma {:induction false} PushedAllRecent(buf: seq<real>, xs: seq<real>)
    requires |buf| <= SAMPLE_BUF_SIZE
    ensures PushedAll(buf, xs) == LastN(buf + xs, SAMPLE_BUF_SIZE)
  {
    if xs != [] {
      var init := xs[..|xs| - 1];
      var x := xs[|xs| - 1];
      PushedAllRecent(buf, init);
      assert buf + xs == (buf + init) + [x];
    }
  }

  /** The shared sample buffer (`Arc<Mutex<VecDeque<f32>>>`). */
  class SampleBuf {
    var samples: seq<real>

    ghost predicate Valid()
      reads this
    {
      |samples| <= SAMPLE_BUF_SIZE
    }

    constructor ()
      ensures Valid() && samples == []
    {
      samples := [];
    }

    /** `pop_front` when full, then `push_back`. */
    method Push(x: real)
      requires Valid()
      modifies this
      ensures Valid()
      ensures samples == Pushed(old(samples), x)
      ensures |old(samples)| >= SAMPLE_BUF_SIZE ==> samples == old(samples)[1..] + [x]
      ensures |old(samples)| < SAMPLE_BUF_SIZE ==> samples == old(samples) + [x]
    {
      if |samples| >= SAMPLE_BUF_SIZE {
        samples := samples[1..];
      }
      samples := samples + [x];
    }

    method Clear()
      modifies this
      ensures Valid() && samples == []
    {
      samples := [];
    }
  }

  /** `(x * 32767.0) as i16` after clamping to [-1, 1]: truncated toward zero, never saturating. */
  function PcmSample(x: real): (v: int)
    ensures -32767 <= v <= 32767
    ensures x >= 0.0 ==> v >= 0
    ensures x <= 0.0 ==> v <= 0
    ensures x >= 1.0 ==> v == 32767
    ensures x <= -1.0 ==> v == -32767
  {
    var scaled := Numeric.Clamp(x, -1.0, 1.0) * 32767.0;
    if scaled >= 0.0 then scaled.Floor else -((-scaled).Floor)
  }

  /** `i16::to_le_bytes`: two's complement, low byte first. */
  function LeBytes(v: int): (b: seq<Byte>)
    requires -32768 <= v < 32768
    ensures |b| == 2
  {
    var u := if v < 0 then v + 65536 else v;
    [(u % 256) as Byte, (u / 256) as Byte]
  }

  /** `i16::from_le_bytes`. */
  function FromLeBytes(b: seq<Byte>): (v: int)
    requires |b| == 2
    ensures -32768 <= v < 32768
  {
    var u := b[0] as int + 256 * b[1] as int;
    if u >= 32768 then u - 65536 else u
  }

  /** What the external scope reads back from the pipe is the sample that was written. */
  lemma LeBytesRoundTrip(v: int)
    requires -32768 <= v < 32768
    ensures FromLeBytes(LeBytes(v)) == v
  {
  }

  /** `PipedSource`: the decoder's samples pass through, copied to the pipe and the ring buffer. */
  class PipedSource {
    var inner: seq<real>
    var pipeOpen: bool
    var written: seq<Byte>
    const pipeReady: bool
    const buffer: SampleBuf

    /** `PipedSource::new`: no pipe held yet. */
    constructor (source: seq<real>, pipeReady: bool, buffer: SampleBuf)
      ensures inner == source && !pipeOpen && written == []
      ensures this.pipeReady == pipeReady && this.buffer == buffer
    {
      inner := source;
      pipeOpen := false;
      written := [];
      this.pipeReady := pipeReady;
      this.buffer := buffer;
    }

    /** `ensure_pipe`: a pipe is opened only when none is held and the reader is ready; `opens` says whether the open succeeds. */
    method EnsurePipe(opens: bool)
      modifies this`pipeOpen
      ensures pipeOpen == (old(pipeOpen) || (pipeReady && opens))
    {
      if !pipeOpen && pipeReady {
        if opens {
          pipeOpen := true;
        }
      }
    }

    /**
     * `Iterator::next`: `None` once the inner source is exhausted, with nothing else touched;
     * otherwise the inner sample itself. On the way it goes to the pipe as two little-endian bytes
     * (a failed write drops the pipe) and, when the lock is free, into the ring buffer.
     */
    method Next(opens: bool, writeOk: bool, lockFree: bool) returns (r: Option<real>)
      requires buffer.Valid()
      modifies this, buffer
      ensures buffer.Valid()
      ensures old(inner) == [] ==> r.None? && unchanged(this) && unchanged(buffer)
      ensures old(inner) != [] ==>
        var x := old(inner[0]);
        var open := old(pipeOpen) || (pipeReady && opens);
        r == Some(x) && inner == old(inner[1..]) &&
        pipeOpen == (open && writeOk) &&
        written == (if open && writeOk then old(written) + LeBytes(PcmSample(x)) else old(written)) &&
        buffer.samples == (if lockFree then Pushed(old(buffer.samples), x) else old(buffer.samples))
    {
      if inner == [] {
        return None;
      }
      var sample := inner[0];
      inner := inner[1..];

      EnsurePipe(opens);
      if pipeOpen {
        var pcm := PcmSample(sample);
        if writeOk {
          written := written + LeBytes(pcm);
        } else {
          pipeOpen := false;
        }
      }

      if lockFree {
        buffer.Push(sample);
      }
      return Some(sample);
    }
  }

  // ----- The app -----

  const NANOS_PER_SEC: nat := 1_000_000_000

  /** What the app has asked of the audio sink, and how far it has played since it was started. */
  datatype Sink = Sink(elapsed: nat, paused: bool, volume: real, startAt: nat)

  /** The keys the run loop reacts to. */
  datatype Key = Quit | Space | Up | Down | Right | Left | V | Other

  /** `load_volume`: the trimmed file content as a number, 1.0 when missing or unparseable; no range check. */
  function LoadVolume(content: Option<string>): (v: real)
    ensures content.None? ==> v == 1.0
    ensures content.Some? && ParseDecimal(Trim(content.value)).Some? ==> v == ParseDecimal(Trim(content.value)).value
  {
    match content
    case Some(s) => ParseDecimal(Trim(s)).UnwrapOr(1.0)
    case None => 1.0
  }

  /** A saved whole number loads back as itself, however far outside 0.0..=2.0 it lies: there is no range check. */
  lemma LoadVolumeUnchecked(sign: string, n: nat)
    requires sign == "" || sign == "-"
    ensures LoadVolume(Some(sign + NatToString(n))) == (if sign == "" then n as real else -(n as real))
  {
    var s := sign + NatToString(n);
    SignedNoWhitespace(sign, n);
    TrimNoWhitespace(s);
    ParseSignedNat(sign, n);
  }

  lemma SignedNoWhitespace(sign: string, n: nat)
    requires sign == "" || sign == "-"
    ensures NoWhitespace(sign + NatToString(n))
  {
    var d := NatToString(n);
    NatToStringNoWhitespace(n);
    forall i | 0 <= i < |sign + d| ensures !IsWhitespace((sign + d)[i]) {
      if i >= |sign| {
        assert (sign + d)[i] == d[i - |sign|];
      }
    }
  }

  /** Content that does not parse as a number, once trimmed, loads the default volume 1.0. */
  lemma LoadVolumeGarbage(s: string)
    requires ParseDecimal(Trim(s)) == None
    ensures LoadVolume(Some(s)) == 1.0
  {
  }

  /** The name `save_vis_mode` writes. */
  function VisModeName(m: VisMode): string {
    match m
    case Oscilloscope => "oscilloscope"
    case Vectorscope => "vectorscope"
    case Spectroscope => "spectroscope"
  }

  /** `load_vis_mode`: the mode whose name the trimmed content is, Oscilloscope otherwise. */
  function LoadVisMode(content: Option<string>): VisMode {
    match content
    case Some(s) => VisModeNamed(Trim(s))
    case None => Oscilloscope
  }

  /** The mode a name stands for, Oscilloscope for any other text. */
  function VisModeNamed(t: string): VisMode {
    if t == "oscilloscope" then Oscilloscope
    else if t == "vectorscope" then Vectorscope
    else if t == "spectroscope" then Spectroscope
    else Oscilloscope
  }

  lemma VisModeNamedName(m: VisMode)
    ensures VisModeNamed(VisModeName(m)) == m
  {
    match m
    case Oscilloscope =>
    case Vectorscope => assert |VisModeName(m)| != |"oscilloscope"|;
    case Spectroscope => assert VisModeName(m)[0] != "oscilloscope"[0] && |VisModeName(m)| != |"vectorscope"|;
  }

  lemma VisModeNameEnds(m: VisMode)
    ensures VisModeName(m) != [] && !IsWhitespace(VisModeName(m)[0]) && !IsWhitespace(VisModeName(m)[|VisModeName(m)| - 1])
  {
    match m
    case Oscilloscope =>
    case Vectorscope =>
    case Spectroscope =>
  }

  /** Saving a mode and loading it gives the mode back, even with whitespace around the name. */
  lemma VisModeRoundTrip(m: VisMode, pre: string, post: string)
    requires forall i :: 0 <= i < |pre| ==> IsWhitespace(pre[i])
    requires forall i :: 0 <= i < |post| ==> IsWhitespace(post[i])
    ensures LoadVisMode(Some(pre + VisModeName(m) + post)) == m
  {
    VisModeNameEnds(m);
    TrimAround(pre, VisModeName(m), post);
    VisModeNamedName(m);
  }

  lemma {:induction false} TrimAround(pre: string, s: string, post: string)
    requires forall i :: 0 <= i < |pre| ==> IsWhitespace(pre[i])
    requires forall i :: 0 <= i < |post| ==> IsWhitespace(post[i])
    requires s != [] && !IsWhitespace(s[0]) && !IsWhitespace(s[|s| - 1])
    ensures Trim(pre + s + post) == s
  {
    TrimStartPrefix(pre, s + post);
    assert pre + s + post == pre + (s + post);
    TrimEndSuffix(s, post);
  }

  lemma {:induction false} TrimStartPrefix(pre: string, s: string)
    requires forall i :: 0 <= i < |pre| ==> IsWhitespace(pre[i])
    requires s != [] && !IsWhitespace(s[0])
    ensures TrimStart(pre + s) == s
  {
    if pre != [] {
      assert (pre + s)[1..] == pre[1..] + s;
      TrimStartPrefix(pre[1..], s);
    }
  }

  lemma {:induction false} TrimEndSuffix(s: string, post: string)
    requires forall i :: 0 <= i < |post| ==> IsWhitespace(post[i])
    requires s != [] && !IsWhitespace(s[|s| - 1])
    ensures TrimEnd(s + post) == s
  {
    if post != [] {
      assert (s + post)[..|s + post| - 1] == s + post[..|post| - 1];
      TrimEndSuffix(s, post[..|post| - 1]);
    }
  }

  /** Unknown or missing content loads as the oscilloscope. */
  lemma UnknownVisMode(content: Option<string>)
    requires content.Some? ==> forall m: VisMode :: Trim(content.value) != VisModeName(m)
    ensures LoadVisMode(content) == Oscilloscope
  {
    if content.Some? {
      assert Trim(content.value) != VisModeName(Vectorscope);
      assert Trim(content.value) != VisModeName(Spectroscope);
    }
  }

  /** A volume that is a whole number of twentieths. */
  predicate OnGrid(v: real) {
    (v * 20.0).Floor as real == v * 20.0
  }

  /** The step k of the volume grid, k/20, with the bounds the volume keys rely on. */
  lemma Twentieths(k: int)
    ensures (k as real / 20.0) * 20.0 == k as real
    ensures OnGrid(k as real / 20.0)
    ensures 0 <= k ==> 0.0 <= k as real / 20.0
    ensures 1 <= k ==> 0.05 <= k as real / 20.0
    ensures k <= 39 ==> k as real / 20.0 <= 1.95
    ensures k <= 40 ==> k as real / 20.0 <= 2.0
  {
    var x := k as real / 20.0;
    assert x * 20.0 == k as real;
    assert (x * 20.0).Floor == k;
  }

  /** `volume_up`: one step up the 1/20 grid from the rounded current step, at most 2.0. */
  function StepUp(v: real): (r: real)
    ensures r <= 2.0
    ensures v >= 0.0 ==> 0.05 <= r
    ensures OnGrid(r)
  {
    var k := Numeric.Min(Numeric.Round(v * 20.0) + 1, 40);
    Twentieths(k);
    k as real / 20.0
  }

  /** `volume_down`: one step down the 1/20 grid from the rounded current step, at least 0.0. */
  function StepDown(v: real): (r: real)
    ensures r >= 0.0
    ensures v <= 2.0 ==> r <= 1.95
    ensures OnGrid(r)
  {
    var k := Numeric.Max(Numeric.Round(v * 20.0) - 1, 0);
    Twentieths(k);
    k as real / 20.0
  }

  /** On the grid k/20 with 0 ≤ k ≤ 40, the volume keys move exactly one step, stopping at 0 and 2. */
  lemma GridSteps(k: int)
    requires 0 <= k <= 40
    ensures StepUp(k as real / 20.0) == Numeric.Min(k + 1, 40) as real / 20.0
    ensures StepDown(k as real / 20.0) == Numeric.Max(k - 1, 0) as real / 20.0
  {
    assert k as real / 20.0 * 20.0 == k as real;
    RoundWhole(k);
  }

  lemma RoundWhole(k: int)
    ensures Numeric.Round(k as real) == k
  {
  }

  /** Below the top of the grid, one step up and one step down return to the same volume. */
  lemma UpThenDown(k: int)
    requires 0 <= k < 40
    ensures StepDown(StepUp(k as real / 20.0)) == k as real / 20.0
  {
    GridSteps(k);
    GridSteps(k + 1);
  }

  /** Where `seek` lands: `offset` seconds from `position`, floored at zero and capped at the known total. */
  function SeekTarget(position: nat, offset: int, total: Option<nat>): (t: nat)
    ensures total.Some? ==> t <= total.value
    ensures offset >= 0 && total.Some? ==> t == Numeric.Min(position + offset * NANOS_PER_SEC, total.value)
    ensures offset < 0 && total.Some? ==> t == Numeric.Min(Numeric.SatSub(position, -offset * NANOS_PER_SEC), total.value)
    ensures offset >= 0 && total.None? ==> t == position + offset * NANOS_PER_SEC
    ensures offset < 0 && total.None? ==> t == Numeric.SatSub(position, -offset * NANOS_PER_SEC)
    ensures offset < 0 ==> t <= position
  {
    var target := if offset >= 0 then position + offset * NANOS_PER_SEC
                  else Numeric.SatSub(position, -offset * NANOS_PER_SEC);
    match total
    case Some(d) => Numeric.Min(target, d)
    case None => target
  }

  /** Seeking forward and back by the same amount returns to the start when neither cap applied. */
  lemma SeekForwardBack(position: nat, seconds: nat, total: Option<nat>)
    requires total.Some? ==> position + seconds * NANOS_PER_SEC <= total.value
    ensures SeekTarget(SeekTarget(position, seconds, total), -(seconds as int), total) == position
  {
  }

  /** The player's state. */
  class App {
    var paused: bool
    var volume: real
    const totalDuration: Option<nat>
    var seekBase: nat
    var sink: Sink
    var visMode: VisMode
    const samples: SampleBuf

    /** The sink always agrees with the app's own pause flag and volume. */
    ghost predicate Valid()
      reads this, samples
    {
      sink.paused == paused && sink.volume == volume && samples.Valid()
    }

    /** `App::new`, given the stored volume and mode files and the probed duration. */
    constructor (volumeFile: Option<string>, visModeFile: Option<string>, totalDuration: Option<nat>)
      ensures Valid() && fresh(samples)
      ensures !paused && volume == LoadVolume(volumeFile) && seekBase == 0
      ensures sink == Sink(0, false, volume, 0) && samples.samples == []
      ensures visMode == LoadVisMode(visModeFile) && this.totalDuration == totalDuration
    {
      var buf := new SampleBuf();
      var v := LoadVolume(volumeFile);
      paused := false;
      volume := v;
      this.totalDuration := totalDuration;
      seekBase := 0;
      sink := Sink(0, false, v, 0);
      visMode := LoadVisMode(visModeFile);
      samples := buf;
    }

    /** `position`: where the current sink started plus how long it has played. */
    function Position(): (p: nat)
      reads this
      ensures p >= seekBase && p >= sink.elapsed
    {
      seekBase + sink.elapsed
    }

    /** `toggle_pause`: play when paused, pause when playing, and flip the flag. */
    method TogglePause()
      requires Valid()
      modifies this
      ensures Valid()
      ensures paused == !old(paused)
      ensures sink == old(sink).(paused := !old(paused))
      ensures volume == old(volume) && seekBase == old(seekBase) && visMode == old(visMode)
    {
      if paused {
        sink := sink.(paused := false);
      } else {
        sink := sink.(paused := true);
      }
      paused := !paused;
    }

    method VolumeUp()
      requires Valid()
      modifies this
      ensures Valid()
      ensures volume == StepUp(old(volume))
      ensures paused == old(paused) && seekBase == old(seekBase) && visMode == old(visMode)
      ensures sink == old(sink).(volume := volume)
    {
      volume := Numeric.Min(Numeric.Round(volume * 20.0) + 1, 40) as real / 20.0;
      sink := sink.(volume := volume);
    }

    method VolumeDown()
      requires Valid()
      modifies this
      ensures Valid()
      ensures volume == StepDown(old(volume))
      ensures paused == old(paused) && seekBase == old(seekBase) && visMode == old(visMode)
      ensures sink == old(sink).(volume := volume)
    {
      volume := Numeric.Max(Numeric.Round(volume * 20.0) - 1, 0) as real / 20.0;
      sink := sink.(volume := volume);
    }

    /**
     * `seek`: a new sink starts at the clamped target, with the same volume, paused iff the app is;
     * the position restarts from the target and the sample buffer is emptied.
     */
    method Seek(offset: int)
      requires Valid()
      modifies this, samples
      ensures Valid()
      ensures seekBase == SeekTarget(old(Position()), offset, totalDuration)
      ensures sink == Sink(0, paused, volume, seekBase)
      ensures Position() == seekBase
      ensures samples.samples == []
      ensures paused == old(paused) && volume == old(volume) && visMode == old(visMode)
    {
      var current := Position();
      var target := if offset >= 0 then current + offset * NANOS_PER_SEC
                    else Numeric.SatSub(current, -offset * NANOS_PER_SEC);
      var clamped := match totalDuration
        case Some(t) => Numeric.Min(target, t)
        case None => target;
      var newSink := Sink(0, false, volume, clamped);
      if paused {
        newSink := newSink.(paused := true);
      }
      sink := newSink;
      seekBase := clamped;
      samples.Clear();
    }

    /** The 'v' key: the next mode, and the name that is saved for it. */
    method CycleVisMode() returns (saved: string)
      modifies this`visMode
      ensures visMode == old(visMode).Next()
      ensures LoadVisMode(Some(saved)) == visMode
    {
      visMode := visMode.Next();
      saved := VisModeName(visMode);
      VisModeRoundTrip(visMode, "", "");
      assert "" + saved + "" == saved;
    }

    /** One key press of the run loop; `quit` is true only for 'q'. */
    method HandleKey(key: Key) returns (quit: bool)
      requires Valid()
      modifies this, samples
      ensures Valid()
      ensures quit <==> key == Quit
      ensures key == Space ==>
        paused == !old(paused) && sink == old(sink).(paused := !old(paused)) &&
        volume == old(volume) && seekBase == old(seekBase) && visMode == old(visMode) &&
        unchanged(samples)
      ensures key == Up ==>
        volume == StepUp(old(volume)) && sink == old(sink).(volume := volume) &&
        paused == old(paused) && seekBase == old(seekBase) && visMode == old(visMode) &&
        unchanged(samples)
      ensures key == Down ==>
        volume == StepDown(old(volume)) && sink == old(sink).(volume := volume) &&
        paused == old(paused) && seekBase == old(seekBase) && visMode == old(visMode) &&
        unchanged(samples)
      ensures key == Right ==>
        seekBase == SeekTarget(old(Position()), 5, totalDuration) &&
        sink == Sink(0, paused, volume, seekBase) && samples.samples == [] &&
        paused == old(paused) && volume == old(volume) && visMode == old(visMode)
      ensures key == Left ==>
        seekBase == SeekTarget(old(Position()), -5, totalDuration) &&
        sink == Sink(0, paused, volume, seekBase) && samples.samples == [] &&
        paused == old(paused) && volume == old(volume) && visMode == old(visMode)
      ensures key == V ==>
        visMode == old(visMode).Next() &&
        paused == old(paused) && volume == old(volume) && seekBase == old(seekBase) &&
        sink == old(sink) && unchanged(samples)
      ensures key in {Quit, Other} ==> unchanged(this) && unchanged(samples)
    {
      quit := false;
      match key
      case Quit => quit := true;
      case Space => TogglePause();
      case Up => VolumeUp();
      case Down => VolumeDown();
      case Right => Seek(5);
      case Left => Seek(-5);
      case V => var _ := CycleVisMode();
      case Other =>
    }

    /** The run loop ends on its own when the sink has drained and playback is not paused. */
    predicate Finished(sinkEmpty: bool)
      reads this
      ensures paused ==> !Finished(sinkEmpty)
      ensures !sinkEmpty ==> !Finished(sinkEmpty)
      ensures sinkEmpty && !paused ==> Finished(sinkEmpty)
    {
      sinkEmpty && !paused
    }
  }
}
