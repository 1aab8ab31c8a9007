# tui-player, modelled in Dafny

tui-player is a terminal music player. It decodes one audio file, plays it, and taps the samples on
their way to the sound card. The samples go to a ring buffer for the built-in visualizers and to a
named pipe for an external scope. Around the playback it draws a set of widgets:

- a progress gauge;
- a "now playing" bar with album art;
- a lyrics panel fed by lyric web services;
- a 32-band graphic equalizer;
- a file browser with fuzzy search;
- a colour-theme selector;
- a help bar of key bindings.

This project models the logic of that player that does not depend on audio, floating-point signal
processing or the terminal library, and proves what the code promises about it. One Dafny module
stands for each source file:

- `Transport` (transport.dfy) models src/main.rs: the sample tap (`PipedSource`): ring buffer and PCM pipe bytes; the `App` state machine for pause, volume, seek and visualizer mode; the stored volume and mode.
- `Eq` (eq.dfy) models src/eq.rs: parameters and presets; the filter bank with its change-detecting cache; the settings file written by `save_eq` and read by `load_eq`.
- `Visualizer` (visualizer.dfy) models src/visualizer.rs: the mode cycle; the braille canvas; the integer and index work of the oscilloscope, vectorscope and spectroscope.
- `Lyrics` (lyrics.dfy) models src/lyrics.rs: `url_encode`; the `html_to_text` state machine, run with the corrected `decode_entity` (see Findings); the scroll clamp of the panel.
- `FileBrowser` (filebrowser.dfy) models src/file_browser.rs: audio-file test; directory scan and its sort; pre-order collection; fuzzy match and filter; popup placement.
- `Controls` (controls.dfy) models src/controls.rs: the key/label spans; greedy wrapping that never splits a pair; the bar's height.
- `Gauge` (gauge.dfy) models src/gauge.rs: `RoundedGauge`: ratio clamp, plain-bar glyphs, waveform buckets and block heights, overflow colour, centred caption.
- `NowPlaying` (nowplaying.dfy) models src/now_playing.rs: the bar height with wrapping; the metadata order; the album-art widget and its overlay rectangle.
- `Progress` (progress.dfy) models src/progress.rs: `m:ss` formatting; the progress label and ratio.
- `Theme` (theme.dfy) models src/theme.rs: the theme table; stored index validation and saving; the selector popup lines.

Four supporting modules hold shared definitions:

- `Wrappers`: `Option`.
- `Numeric`: Rust's saturating subtraction, `clamp`, `round` and float-to-unsigned casts.
- `Text`: trimming, `lines()`, `split`/`join`, number parsing and printing, ASCII lower-casing and UTF-8 length.
- `Layout`: a rectangle, a colour and a screen cell.

## Modelling choices

- **Code that mutates state is imperative Dafny.** The ring buffer, the sample tap, the app, the
  filter bank and the lyrics scroll are classes whose methods update their fields. The character
  loops of `url_encode` and `html_to_text`, the loops of `load_eq`, the wrapping loop, the fuzzy
  matcher and the recursive walk are methods with loop invariants. The braille grids are `array`s
  updated in place. The gauge and the album art write into a buffer, `array<Cell>` and
  `array2<Cell>`. Each method is proved against a function that says what it computes.
- **Floats are exact reals.** `f32::round` rounds half away from zero. A float-to-unsigned `as`
  cast truncates toward zero and saturates at 0.
- **Durations are whole nanoseconds.**
- **Foreign effects are inputs.** The outcome of opening or writing the pipe, of `try_lock`, and
  the contents of a config file (`None` when it cannot be read) are parameters. The audio sink is
  a value recording what the app asked of it and how long it has played.
- **FFT results are inputs.** The spectroscope takes the FFT magnitudes, and each column's unclamped
  bin from the logarithmic mapping. The model starts at the clamping and averaging.
- **Filter coefficients are an input function.** The coefficient design is a function the filter
  bank is built with. The per-sample Direct Form II transposed step is written out.

## Model

| member | source | states |
|---|---|---|
| Transport.Pushed | src/main.rs:91-96 | pushing keeps the buffer within 8192 samples and puts the new sample at the back |
| Transport.LastN | src/main.rs:35 | the window holds as many samples as the sequence, up to its bound |
| Transport.PushedAllRecent | src/main.rs:35-96 | whatever was pushed, the ring buffer holds exactly the last 8192 samples, in order |
| Transport.SampleBuf.constructor | src/main.rs:770 | the shared buffer starts empty |
| Transport.SampleBuf.Push | src/main.rs:92-95 | a full buffer drops its front sample and then takes the new one at the back; otherwise nothing is removed; the length stays at most 8192 |
| Transport.SampleBuf.Clear | src/main.rs:843-845 | clearing empties the buffer |
| Transport.PcmSample | src/main.rs:83-84 | the clamped, scaled sample truncates toward zero into [-32767, 32767], keeps its sign, and is ±32767 at and beyond full scale |
| Transport.LeBytes | src/main.rs:85 | `to_le_bytes` of an `i16` is two bytes |
| Transport.FromLeBytes | src/main.rs:85 | two bytes read back as an `i16` |
| Transport.LeBytesRoundTrip | src/main.rs:85 | the reader of the pipe gets back exactly the sample that was written |
| Transport.PipedSource.constructor | src/main.rs:49-56 | a new tap holds no pipe and has written nothing |
| Transport.PipedSource.EnsurePipe | src/main.rs:58-68 | a pipe is held afterwards iff one was held before, or the reader was ready and the open succeeded |
| Transport.PipedSource.Next | src/main.rs:77-99 | `next` returns None and changes nothing once the source is exhausted; otherwise it returns the source's sample unchanged, writes its PCM bytes to the pipe when one is held (dropping the pipe on a failed write), and pushes it into the ring buffer when the lock is free |
| Transport.VisModeNamedName | src/main.rs:695-716 | the name saved for a mode is read back as that mode |
| Transport.VisModeNameEnds | src/main.rs:710-714 | no saved name starts or ends with whitespace |
| Transport.VisModeRoundTrip | src/main.rs:695-716 | loading a saved mode name, with any whitespace around it, returns the same mode |
| Transport.TrimAround | src/main.rs:698 | trimming removes exactly the surrounding whitespace of a name that neither starts nor ends with whitespace |
| Transport.TrimStartPrefix | src/main.rs:698 | trimming the start drops exactly the leading whitespace |
| Transport.TrimEndSuffix | src/main.rs:698 | trimming the end drops exactly the trailing whitespace |
| Transport.UnknownVisMode | src/main.rs:695-705 | missing content, or content that trims to no mode's name, loads as the oscilloscope |
| Transport.LoadVolume | src/main.rs:682-687 | `load_volume` gives 1.0 when the file is missing, and otherwise the number the trimmed content parses as |
| Transport.LoadVolumeUnchecked | src/main.rs:682-687 | the loaded volume is not range-checked: a saved whole number such as 5 or -3 loads back as itself |
| Transport.LoadVolumeGarbage | src/main.rs:682-687 | content that does not parse as a number, once trimmed, loads the default volume 1.0 |
| Transport.StepUp | src/main.rs:804-808 | `volume_up` gives a whole number of twentieths, at most 2.0, and at least 0.05 from any non-negative volume |
| Transport.StepDown | src/main.rs:810-814 | `volume_down` gives a whole number of twentieths, at least 0.0, and at most 1.95 from any volume up to 2.0 |
| Transport.GridSteps | src/main.rs:804-814 | from k/20 with 0 ≤ k ≤ 40, the keys give min(k+1, 40)/20 and max(k-1, 0)/20 |
| Transport.UpThenDown | src/main.rs:804-814 | below the top of the grid, a step up then a step down restores the volume |
| Transport.SeekTarget | src/main.rs:816-823 | the target is position plus the offset for a forward seek and the saturating difference for a backward one, and with a known total it is exactly the smaller of that target and the total; a backward seek never moves forward |
| Transport.SeekForwardBack | src/main.rs:816-823 | seeking forward and then back by the same number of seconds returns to the start when the total did not cap it |
| Transport.App.constructor | src/main.rs:753-793 | a new app plays unpaused from position 0 at the loaded volume in the loaded mode, with an empty sample buffer |
| Transport.App.Position | src/main.rs:672-674 | the position is never before the current sink's start or its own elapsed time |
| Transport.App.TogglePause | src/main.rs:795-802 | toggling flips the pause flag, the sink follows it, and nothing else changes, so two toggles restore the state |
| Transport.App.VolumeUp | src/main.rs:804-808 | the volume moves one step up the grid and the sink takes the new volume; nothing else changes |
| Transport.App.VolumeDown | src/main.rs:810-814 | the volume moves one step down the grid and the sink takes the new volume; nothing else changes |
| Transport.App.Seek | src/main.rs:816-846 | a seek starts a new sink at the clamped target with the same volume, paused iff the app is paused; the position restarts at the target and the sample buffer is emptied |
| Transport.App.CycleVisMode | src/main.rs:892-895 | the 'v' key moves to the next mode and saves a name that loads back as that mode |
| Transport.App.HandleKey | src/main.rs:885-897 | 'q' and only 'q' quits; for each other key the whole new state: space toggles pause in app and sink; up and down step the volume in app and sink; right and left seek 5 seconds with a new sink and an empty buffer; 'v' cycles the mode; every field the key does not touch is kept, and any other key changes nothing |
| Transport.App.Finished | src/main.rs:902-904 | the run loop ends exactly when the sink has drained and playback is not paused; a paused app never ends it |
| Eq.DefaultParams | src/eq.rs:32-40 | the default settings are enabled, every one of the 32 gains 0 dB, preset 0 |
| Eq.PresetsFit0 | src/eq.rs:46-58 | the Flat, Rock and Pop presets have 32 gains, each within ±12 dB |
| Eq.PresetsFit1 | src/eq.rs:59-76 | the Jazz, Classical and Bass Boost presets have 32 gains within ±12 dB |
| Eq.PresetsFit2 | src/eq.rs:77-94 | the Treble Boost, Vocal and Melodic Death presets have 32 gains within ±12 dB |
| Eq.PresetsFit3 | src/eq.rs:95-106 | the Heavy Metal and Power Metal presets have 32 gains within ±12 dB |
| Eq.PresetsWellFormed | src/eq.rs:23-107 | there are 11 presets, every one with exactly 32 gains in [-MAX_GAIN, MAX_GAIN] |
| Eq.PresetGains | src/eq.rs:45-107 | a preset's gains are whole decibels within ±12 dB |
| Eq.PresetName | src/eq.rs:263-266 | the displayed preset name is the preset's own for a valid index and "Custom" otherwise |
| Eq.ClampFreq | src/eq.rs:110-111 | a band frequency is clamped to at least 1 Hz and, for sample rates of at least 4 Hz, to at most one below the Nyquist frequency; frequencies already in range are kept |
| Eq.MakeFilter | src/eq.rs:109-128 | `make_filter` designs a peaking filter at the clamped frequency with the band's gain, and the new filter starts with an empty state |
| Eq.Chain | src/eq.rs:157-161 | running a sample through a chain of filters changes only their states, never their tuning |
| Eq.ChainSilence | src/eq.rs:157-161 | silence through quiet filters comes out as silence and leaves them quiet |
| Eq.ChainSnoc | src/eq.rs:159-161 | running one more filter of the chain extends the run of the ones before it |
| Eq.RunChain | src/eq.rs:157-162 | the loop over `iter_mut` feeds each filter's output to the next and gives the chain's result |
| Eq.EqFilters.ReplaceRow | src/eq.rs:157-161 | replacing one channel's filters with ones of the same tuning keeps every filter tuned to the cached gains |
| Eq.EqFilters.constructor | src/eq.rs:139-151 | `new` builds one row of 32 filters per channel, each tuned to its band's frequency and the given gain, and caches the gains and the flag |
| Eq.EqFilters.Process | src/eq.rs:153-163 | `process` returns the sample unchanged and changes nothing while disabled, for any channel index; otherwise it returns the channel chain's output and updates that channel's filters only |
| Eq.EqFilters.UpdateIfChanged | src/eq.rs:165-179 | afterwards the cache holds the given flag and gains; the filters are untouched unless the gains changed, and then every filter of every channel is rebuilt for the new gains; the number of channels never changes |
| Eq.EqFilters.RebuiltRow | src/eq.rs:173-176 | the inner rebuild loop makes the 32 filters of one channel for the cached gains |
| Eq.GainField | src/eq.rs:209-210 | a parsed gain is clamped to ±12 dB |
| Eq.GainsFromFields | src/eq.rs:204-212 | the 32 gains read from the comma-separated fields all lie within ±12 dB |
| Eq.ParseEq | src/eq.rs:192-218 | a loaded setting always has gains within ±12 dB, and a missing file gives the default settings |
| Eq.LoadEq | src/eq.rs:192-218 | `load_eq` reads the enabled flag (true unless the first line trims to something other than "true"), the preset index (0 when absent or unparseable) and the gains, filling the array in a loop |
| Eq.Filled | src/eq.rs:204-212 | bands the loop has not reached hold 0 dB |
| Eq.FillGains | src/eq.rs:204-212 | the gains loop stops after 32 fields and gives the gains read from the fields, with unparseable or missing fields left at 0 dB |
| Eq.FillBand | src/eq.rs:209-211 | one step of the loop sets exactly one band to its clamped field |
| Eq.FilledAt | src/eq.rs:204-212 | after n steps, the first n bands hold their fields and the rest 0 dB |
| Eq.FilledGains | src/eq.rs:205-208 | the loop is complete once it runs out of fields or reaches 32 |
| Eq.ExtraFieldsIgnored | src/eq.rs:206-208 | fields beyond the 32nd are ignored |
| Eq.GainStrings | src/eq.rs:223 | one string per gain |
| Eq.SaveLoadRoundTrip | src/eq.rs:192-231 | loading what `save_eq` writes gives back the same flag, preset index and gains, for whole-decibel gains within ±12 dB |
| Eq.FlagTrim | src/eq.rs:198-226 | the saved flag is unaffected by trimming |
| Eq.SavedLines | src/eq.rs:197-229 | the saved file splits into exactly three lines: the flag, the index, and the gains joined by commas |
| Eq.GainsRoundTrip | src/eq.rs:205-228 | splitting the joined gains at commas and parsing gives back the gains |
| Eq.GainStringsPlain | src/eq.rs:223 | each printed gain is non-empty and has no comma or newline |
| Eq.FieldRoundTrip | src/eq.rs:209-223 | a printed whole gain within ±12 dB parses back to itself |
| Eq.JoinNoNewline | src/eq.rs:228 | the joined gains form one non-empty line |
| Visualizer.VisMode.Next | src/visualizer.rs:21-27 | every mode's successor differs from it |
| Visualizer.VisMode.Label | src/visualizer.rs:29-35 | each block title is padded with a space on both sides |
| Visualizer.NextCycle | src/visualizer.rs:21-27 | three presses of the mode key return to the starting mode and two do not |
| Visualizer.Dot | src/visualizer.rs:42-45 | each braille dot is a single bit |
| Visualizer.DotsPartitionCell | src/visualizer.rs:38-45 | the eight dots are distinct bits (two share a bit iff they are the same dot) whose union is 0xFF |
| Visualizer.Braille | src/visualizer.rs:133 | a cell's character lies in the braille block U+2800 to U+28FF, so `char::from_u32` never falls back to a space |
| Visualizer.CellIndexBound | src/visualizer.rs:120-127 | a pixel whose cell passes the `cx < cols && cy < rows` guard has its index `cy * cols + cx` inside the grid |
| Visualizer.Zeros | src/visualizer.rs:99 | a blank grid has the given number of cells, all empty |
| Visualizer.BlankGrid | src/visualizer.rs:99 | `vec![0u8; cols * rows]` allocates a fresh all-zero grid |
| Visualizer.Plot | src/visualizer.rs:120-127 | setting a pixel keeps the grid's size |
| Visualizer.PlotAll | src/visualizer.rs:115-128 | setting pixels keeps the grid's size |
| Visualizer.PlotAllCells | src/visualizer.rs:120-127 | after setting pixels, each cell is its old bits ORed with exactly the bits of the pixels that land in it |
| Visualizer.PlotCell | src/visualizer.rs:125-127 | setting one pixel changes only its own cell, by ORing in its bit |
| Visualizer.PlotKeepsReference | src/visualizer.rs:111-136 | every bit of the reference grid is still set after plotting, and a cell counts as wave iff a plotted pixel added a bit outside the reference |
| Visualizer.PlotAllSnoc | src/visualizer.rs:115-128 | plotting one more pixel is plotting the earlier ones, then it |
| Visualizer.PlotAllAppend | src/visualizer.rs:204-223 | plotting two pixel runs is plotting the first, then the second |
| Visualizer.SetDot | src/visualizer.rs:120-127 | the guarded in-place OR is exactly setting that pixel on the grid |
| Visualizer.PlotNext | src/visualizer.rs:115-128 | one loop step takes the grid from the first n pixels plotted to the first n + 1 |
| Visualizer.HLine | src/visualizer.rs:215-223 | a horizontal line is the pixels of one row from the left edge, in order |
| Visualizer.VLine | src/visualizer.rs:204-212 | a vertical line is the pixels of one column from the top, in order |
| Visualizer.ChannelCount | src/visualizer.rs:92 | `channels.max(1)` is at least 1 and is the channel count when there is one |
| Visualizer.ScopeSampleInBounds | src/visualizer.rs:114-117 | the index `px_x * total_mono / px_w` is a frame that exists for every `px_x < px_w`, so the 0.0 fallback is never taken |
| Visualizer.ScopeRow | src/visualizer.rs:118 | a sample's pixel row always lies on the canvas |
| Visualizer.ScopePoints | src/visualizer.rs:115-118 | the oscilloscope plots one pixel per pixel column |
| Visualizer.Oscilloscope | src/visualizer.rs:68-141 | nothing is drawn iff the area has no width or height or there are no samples; otherwise the reference grid is the centre line and the cells are it with one waveform pixel per pixel column plotted over it |
| Visualizer.DrawCellRow | src/visualizer.rs:101-110 | the centre line loop sets both dots of the centre pixel row in every cell of its row |
| Visualizer.PlotWave | src/visualizer.rs:113-128 | the waveform loop plots the oscilloscope's pixels, left to right, over the grid |
| Visualizer.WavePixel | src/visualizer.rs:116-118 | one waveform pixel is the sample of its frame scaled to a row |
| Visualizer.ScopePointsOnCanvas | src/visualizer.rs:115-128 | every oscilloscope pixel, and the centre line, land on the canvas |
| Visualizer.SideColumn | src/visualizer.rs:241-244 | the pixel column of a frame lies on the canvas |
| Visualizer.MidRow | src/visualizer.rs:242-245 | the pixel row of a frame lies on the canvas |
| Visualizer.Offset | src/visualizer.rs:244-245 | a clamped and truncated coordinate is below the canvas extent |
| Visualizer.FrameInBounds | src/visualizer.rs:232-236 | every whole frame's samples exist |
| Visualizer.VectorPoints | src/visualizer.rs:232-255 | the vectorscope plots one pixel per whole frame |
| Visualizer.VectorPointOnCanvas | src/visualizer.rs:244-254 | every vectorscope pixel is clamped onto the canvas |
| Visualizer.MonoOnCentreColumn | src/visualizer.rs:235-244 | a mono frame has no side component and lands on the centre pixel column |
| Visualizer.Vectorscope | src/visualizer.rs:165-277 | nothing is drawn iff the area has no width or height or there are no samples; otherwise the reference grid is the crosshair and the cells are it with one pixel per whole frame plotted over it |
| Visualizer.DrawVLine | src/visualizer.rs:202-212 | the vertical crosshair loop plots the centre column from the top down |
| Visualizer.DrawHLine | src/visualizer.rs:213-223 | the horizontal crosshair loop plots the centre row from left to right |
| Visualizer.PlotFrames | src/visualizer.rs:232-255 | the frame loop plots the vectorscope's pixels, in frame order, over the grid |
| Visualizer.MonoMix | src/visualizer.rs:329-338 | the mono mix has one entry per whole frame, each the mean of that frame's channels |
| Visualizer.FrameSum | src/visualizer.rs:333-337 | the inner accumulator gives the frame's sum, whose share per channel is the frame's mean |
| Visualizer.NextPow2From | src/visualizer.rs:341 | the search ends at the least power of two, not below its start, that is at least n |
| Visualizer.NextPowerOfTwo | src/visualizer.rs:341 | `next_power_of_two` is the least power of two at least n |
| Visualizer.NumBins | src/visualizer.rs:341-358 | there are at least 32 bins, and at least half as many as mono samples |
| Visualizer.BinWindow | src/visualizer.rs:371-374 | the clamped bin lies in [1, num_bins - 1], and the window `lo..=hi` around it stays in [0, num_bins - 1] and holds 2 or 3 bins |
| Visualizer.ColumnMagnitudes | src/visualizer.rs:365-383 | each column's magnitude is the mean over its bin window, or 0.0 when there is at most one bin |
| Visualizer.MaxMag | src/visualizer.rs:386 | the normaliser is at least 0.001, bounds every column magnitude, and is one of them unless it is 0.001 |
| Visualizer.BarHeight | src/visualizer.rs:392-393 | a bar is at most the canvas height, empty for a silent column, and full for the loudest |
| Visualizer.Bar | src/visualizer.rs:396-403 | a bar of height h sets 2h pixels |
| Visualizer.BarInColumn | src/visualizer.rs:396-403 | every bar pixel lies in its column's cells, between pixel rows `px_h - height` and `px_h`, so bars are anchored at the bottom |
| Visualizer.BarRow | src/visualizer.rs:396-401 | each pixel row of a bar sets its left and right dot |
| Visualizer.SilentBars | src/visualizer.rs:391-404 | silence draws no bar pixels |
| Visualizer.Spectroscope | src/visualizer.rs:300-431 | nothing is drawn iff the area has no width or height or there are no samples; otherwise the cells are the bars of the averaged column magnitudes, normalised by their maximum, drawn into a blank grid |
| Visualizer.DrawBars | src/visualizer.rs:389-404 | the column loop draws every column's bar, left to right, into a blank grid |
| Visualizer.DrawColumn | src/visualizer.rs:391-404 | one column step adds that column's bar to the bars drawn so far |
| Visualizer.DrawBar | src/visualizer.rs:396-403 | the fill loop plots both dots of every row of the bar, from its top down to the bottom |
| Visualizer.SpectrumHasBins | src/visualizer.rs:366 | there are always more than one bin, so the averaging branch is always taken |
| Visualizer.FracBelow | src/visualizer.rs:415-416 | comparing `cy / rows` with a threshold is comparing `cy` with the threshold times `rows` |
| Visualizer.ScopeColour | src/visualizer.rs:136-137 | a scope cell is green iff it has a bit beyond the reference, grey otherwise |
| Visualizer.SpectrumColour | src/visualizer.rs:413-425 | a spectroscope cell is grey iff empty; a filled cell is red when cy/rows < 0.33, yellow when 0.33 ≤ cy/rows < 0.66 and green otherwise |
| Lyrics.HexDigit | src/lyrics.rs:25 | a digit below 16 prints as one upper-case hexadecimal character that reads back as the digit |
| Lyrics.EncodedSnoc | src/lyrics.rs:19-27 | the encoding of one more byte is the earlier encoding followed by that byte's own |
| Lyrics.UrlEncode | src/lyrics.rs:17-29 | `url_encode` copies letters, digits, '-', '_', '.' and '~', turns a space into "%20" and every other byte into '%' and two upper-case hex digits, in input order |
| Lyrics.EscapedCount | src/lyrics.rs:24-25 | at most every byte is escaped |
| Lyrics.EncodedLength | src/lyrics.rs:19-27 | the output has one character per copied byte and three per escaped byte |
| Lyrics.EncodedUrlSafe | src/lyrics.rs:19-27 | every output character is a letter, a digit, '-', '_', '.', '~' or '%' |
| Lyrics.UrlDecodeEncoded | src/lyrics.rs:17-29 | percent-decoding the output gives back the input bytes, so the encoding is injective |
| Lyrics.ScalarChar | src/lyrics.rs:104-110 | `char::from_u32` succeeds exactly outside the surrogate range and below 0x110000, with that code point |
| Lyrics.DecodeEntityAsWritten | src/lyrics.rs:90-118 | the decoder as written, where the slice `entity[2..len-1]` needs three bytes and a character boundary: a named entity gives its text, anything else one character or the entity verbatim |
| Lyrics.DecodeEntity | src/lyrics.rs:90-118 | the decoder: named entities give their text; the text changes only for a named entity or one starting "&#"; the result is one character or the entity verbatim |
| Lyrics.DecodeEntityAgrees | src/lyrics.rs:90-118 | wherever the slice is valid and the entity is named or starts "&#", the corrected decoder gives what the code as written gives |
| Lyrics.DigitNotNamed | src/lyrics.rs:91-97 | an entity with a digit after "&#" is never a named one |
| Lyrics.DecimalBody | src/lyrics.rs:108 | the decimal digits of any `u32` parse back to it |
| Lyrics.DecimalEntity | src/lyrics.rs:107-112 | `&#N;` decodes to the character N whenever N is a valid scalar value |
| Lyrics.HexEntity | src/lyrics.rs:101-106 | `&#xH;` and `&#XH;` decode to the character H whenever H parses as a hexadecimal `u32` that is a valid scalar value |
| Lyrics.BadNumericEntityVerbatim | src/lyrics.rs:107-112 | a decimal entity that does not parse, or names no character, is kept verbatim |
| Lyrics.NamedEntityValues | src/lyrics.rs:91-97 | `&amp;`, `&lt;`, `&gt;`, `&quot;`, `&apos;`, `&#x27;` and `&nbsp;` decode to `&`, `<`, `>`, `"`, `'`, `'` and a space |
| Lyrics.HtmlToText | src/lyrics.rs:42-88 | the character loop with its tag and entity flags and buffers produces exactly the text of the state machine run over the input, then flushed, with the corrected decoder `DecodeEntity` (see Findings: on "&ax41;" the model keeps the text where the code as written gives "A", and on "&;" it keeps the text where the code panics) |
| Lyrics.RunAppend | src/lyrics.rs:49-83 | running the machine over two pieces of text is running it over the first, then the second |
| Lyrics.RunPlain | src/lyrics.rs:80-81 | outside a tag or entity, text without '<' or '&' is copied as is |
| Lyrics.PlainTextUnchanged | src/lyrics.rs:42-88 | input with no '<' and no '&' comes back unchanged |
| Lyrics.RunTagBody | src/lyrics.rs:62-75 | after '<' and text without '>', the machine is inside a tag holding that text and has written nothing |
| Lyrics.TagRemoved | src/lyrics.rs:62-71 | a complete tag is removed, leaving exactly one newline when its lower-cased text starts with "<br" and nothing otherwise |
| Lyrics.RunEntityBody | src/lyrics.rs:50-79 | after '&' and at most ten bytes without ';', the machine is inside an entity holding that text and has written nothing |
| Lyrics.EntityDecoded | src/lyrics.rs:50-55 | a ';' within ten bytes of the '&' replaces the entity by its decoding |
| Lyrics.NamedEntityDecoded | src/lyrics.rs:50-97 | a short named entity in the text is replaced by its value |
| Lyrics.EntityOverflow | src/lyrics.rs:56-60 | an entity that grows past ten bytes without ';' is written out verbatim |
| Lyrics.UnterminatedEntityKept | src/lyrics.rs:85 | an entity still open at the end is appended verbatim |
| Lyrics.UnterminatedTagKept | src/lyrics.rs:86 | a tag still open at the end is appended verbatim |
| Lyrics.RunExtendsOutput | src/lyrics.rs:49-83 | the machine only ever appends to its output |
| Lyrics.EmptyEntityPanics | src/lyrics.rs:50-100 | "&;" reaches the decoder, whose slice `[2..1]` is out of range; the corrected decoder keeps it verbatim |
| Lyrics.MultibyteEntityPanics | src/lyrics.rs:50-100 | "&é;" reaches the decoder, whose slice starts inside 'é'; the corrected decoder keeps it verbatim |
| Lyrics.HexWithoutHashDecoded | src/lyrics.rs:100-106 | as written, "&ax41;" decodes to "A" although it is not a numeric entity; the corrected decoder keeps it verbatim |
| Lyrics.ClampedScroll | src/lyrics.rs:233-236 | the clamped scroll never grows, leaves no blank rows below the last line unless it is 0, and is unchanged when the text still fills the panel |
| Lyrics.ClampedScrollIdempotent | src/lyrics.rs:233-236 | clamping a clamped scroll changes nothing, so redrawing keeps the scroll |
| Lyrics.LyricsPanel.constructor | src/lyrics.rs:217 | the panel starts at the top |
| Lyrics.LyricsPanel.Draw | src/lyrics.rs:219-236 | drawing sets the scroll to its clamp against the number of lines: the URL and a blank line when there is a URL, then the lines of the loading message, the lyrics or "No lyrics found" |
| FileBrowser.LastIndexOf | src/file_browser.rs:17 | finds the last occurrence of a character, or reports that there is none |
| FileBrowser.LastIndexOfUnique | src/file_browser.rs:17 | an occurrence with none after it is the one found |
| FileBrowser.ExtensionAt | src/file_browser.rs:17-18 | after a '.' past the first character with no '.' following it, `Path::extension` is the text after that '.' |
| FileBrowser.AudioFileIff | src/file_browser.rs:14-20 | `is_audio_file` holds iff the name has a last '.' after its first character and the text after it, lower-cased, is mp3, flac, ogg, wav, aac or m4a |
| FileBrowser.AudioFileAnyCase | src/file_browser.rs:19 | an audio extension in any letter case makes an audio file |
| FileBrowser.Shift | src/file_browser.rs:79-86 | shifting positions moves every one by the same amount |
| FileBrowser.SubseqWitness | src/file_browser.rs:79-86 | when the greedy test succeeds, its hits are increasing positions of the name that spell out the query |
| FileBrowser.EmbedsIsSubseq | src/file_browser.rs:79-86 | any in-order occurrence of the query is found by the greedy test |
| FileBrowser.SubseqSnoc | src/file_browser.rs:96-101 | adding one element at the end of the longer sequence, or at the end of both, keeps a subsequence |
| FileBrowser.FuzzyMatch | src/file_browser.rs:72-88 | `fuzzy_match` is true exactly when the lower-cased query is a subsequence of the lower-cased name |
| FileBrowser.EmptyQueryMatches | src/file_browser.rs:75-78 | the empty query matches every name |
| FileBrowser.MatchesIgnoresCase | src/file_browser.rs:74-79 | matching ignores letter case in both the query and the name |
| FileBrowser.MatchesIff | src/file_browser.rs:72-88 | a query matches iff its lower-cased characters occur at strictly increasing positions of the lower-cased name |
| FileBrowser.PreorderAppend | src/file_browser.rs:59-67 | the display order of two lists of items is the display order of the first, then of the second |
| FileBrowser.AudioPaths | src/file_browser.rs:62-64 | at most one path is collected per item |
| FileBrowser.AudioPathsAppend | src/file_browser.rs:59-67 | collecting from two lists is collecting from the first, then from the second |
| FileBrowser.AudioPathsAreAudio | src/file_browser.rs:62 | every collected path names an audio file |
| FileBrowser.PreorderSnoc | src/file_browser.rs:60-66 | one more item puts the item, then its descendants, after the items before it |
| FileBrowser.AudioPathsCons | src/file_browser.rs:62-64 | an item's own path comes before the paths of what follows it |
| FileBrowser.WalkStep | src/file_browser.rs:60-66 | visiting one more item appends its own path, then the paths under it |
| FileBrowser.Walk | src/file_browser.rs:59-67 | the recursive `walk` appends to `out` exactly the audio-file paths of the items in pre-order: each item before its descendants, siblings in order |
| FileBrowser.CollectAudioFiles | src/file_browser.rs:57-70 | `collect_audio_files` returns the audio-file paths of the tree in pre-order |
| FileBrowser.KeepMatchingOrdered | src/file_browser.rs:96-101 | the kept paths are a subsequence of the collected ones, in their original order |
| FileBrowser.KeepMatchingMembers | src/file_browser.rs:96-101 | a path is kept iff it was collected and its file name fuzzy-matches the query |
| FileBrowser.KeepMatchingAll | src/file_browser.rs:75-101 | the empty query keeps every path |
| FileBrowser.EmptyQueryShortcut | src/file_browser.rs:93-95 | the early return for an empty query gives what filtering would have given |
| FileBrowser.FilterFiles | src/file_browser.rs:91-102 | `filter_files` returns every collected file for an empty query, and otherwise the collected files whose name fuzzy-matches, in order |
| FileBrowser.LexTotal | src/file_browser.rs:31-33 | byte-wise comparison of names is total |
| FileBrowser.LexTrans | src/file_browser.rs:31-33 | byte-wise comparison of names is transitive |
| FileBrowser.EntryLeTotal | src/file_browser.rs:27-35 | the sort's comparator is total |
| FileBrowser.EntryLeTrans | src/file_browser.rs:27-35 | the sort's comparator is transitive |
| FileBrowser.InsertMultiset | src/file_browser.rs:27-35 | inserting an entry adds exactly that entry |
| FileBrowser.SortedTail | src/file_browser.rs:27-35 | the tail of a sorted list is sorted |
| FileBrowser.InsertAbove | src/file_browser.rs:27-35 | a lower bound of an entry and of a list bounds the list with the entry inserted |
| FileBrowser.InsertSortedFront | src/file_browser.rs:27-35 | an entry no greater than the head of a sorted list can go in front |
| FileBrowser.ConsSorted | src/file_browser.rs:27-35 | a lower bound of a sorted list can go in front |
| FileBrowser.InsertSorted | src/file_browser.rs:27-35 | inserting into a sorted list keeps it sorted |
| FileBrowser.SortEntriesSpec | src/file_browser.rs:27-35 | the sorted entries are ordered by the comparator (directories first, then names compared after ASCII lower-casing) and are a permutation of the entries |
| FileBrowser.EntrySize | src/file_browser.rs:42-43 | every entry counts at least one towards the size of the tree |
| FileBrowser.InsertSize | src/file_browser.rs:27-35 | inserting an entry adds its size |
| FileBrowser.SortSize | src/file_browser.rs:27-35 | sorting keeps the size of the tree, so the recursion into subdirectories ends |
| FileBrowser.BuildItemsCons | src/file_browser.rs:38-52 | the items of a list of entries are the first entry's items, then the others' |
| FileBrowser.ItemsForSpec | src/file_browser.rs:39-51 | an entry gives at most one item: a non-empty directory or an audio file, well formed and standing for the entry |
| FileBrowser.BuildItemsSpec | src/file_browser.rs:37-53 | items built from sorted entries are in the same order, each well formed and standing for one of the entries |
| FileBrowser.ConsItemsSpec | src/file_browser.rs:38-52 | the first entry's item, put before the items of the later entries, keeps the order and the link to the entries |
| FileBrowser.MirrorsTail | src/file_browser.rs:38-52 | an item standing for a later entry stands for one of the entries |
| FileBrowser.HeadBeforeRest | src/file_browser.rs:27-52 | the first entry's item sorts before every item of the later entries |
| FileBrowser.BuildItemsHas | src/file_browser.rs:37-53 | every item an entry contributes is among the items built from a list holding that entry |
| FileBrowser.ScanDirectoryComplete | src/file_browser.rs:37-53 | nothing is dropped: every audio file of the directory is listed as a leaf, and every subdirectory whose own scan is non-empty is listed with those children |
| FileBrowser.ScanDirectorySpec | src/file_browser.rs:22-54 | `scan_directory` lists directories before files and names in case-insensitive order; every directory item has at least one child and every leaf is an audio file |
| FileBrowser.PopupSide | src/file_browser.rs:116-117 | a side of the popup is at most the frame's side, at least min(floor, side), and is 80% of the side when that reaches the floor |
| FileBrowser.PopupArea | src/file_browser.rs:114-121 | the popup fits in the frame, is centred (rounding down), and is at least min(40, width) wide and min(10, height) high |
| FileBrowser.PopupSideAsWritten | src/file_browser.rs:116 | with the `u16` product wrapping modulo 2^16, the side is still at most the frame's side |
| FileBrowser.PopupSideAgrees | src/file_browser.rs:116 | up to 819 columns the wrapped and the exact product give the same popup side |
| FileBrowser.PopupSideWraps | src/file_browser.rs:116 | at 820 columns the wrapped product gives a 40-column popup where 80% is 656 |
| Controls.ConcatAppend | src/controls.rs:92 | joining the lines of two lists of groups is joining each list's spans, one after the other |
| Controls.SpansOfPairs | src/controls.rs:16-74 | entries that are not key caps become twice as many spans, alternating key cap and label |
| Controls.ControlSpansShape | src/controls.rs:9-76 | `build_control_spans` gives 14 spans, plus 2 with the visualizer and 10 with the browser, alternating key cap and label, so the count is even |
| Controls.Chunks | src/controls.rs:86 | `chunks(2)` gives groups of one or two spans, all of two but the last, that join back to the spans |
| Controls.FitMore | src/controls.rs:88-93 | the groups that join a line are at most the groups left, and at least one when the line is empty |
| Controls.LineSpans | src/controls.rs:89-96 | each wrapped line's spans are its groups joined |
| Controls.WrapStepFirst | src/controls.rs:86-94 | the first group always opens the first line |
| Controls.WrapStepPush | src/controls.rs:88-91 | a group that overflows a line with width closes that line and opens the next |
| Controls.WrapStepAdd | src/controls.rs:92-93 | a group that fits, or meets a line with no width, joins the open line |
| Controls.TracksFirst | src/controls.rs:86-94 | after the first chunk the loop state agrees with the greedy wrapping |
| Controls.TracksPush | src/controls.rs:88-93 | pushing the open line keeps the loop state in agreement with the greedy wrapping |
| Controls.TracksAdd | src/controls.rs:92-93 | adding a chunk to the open line keeps the loop state in agreement with the greedy wrapping |
| Controls.WrapFinish | src/controls.rs:95-97 | at the end of the input, pushing the open line when it is not empty gives the whole wrapping |
| Controls.Feed | src/controls.rs:88-93 | after one pass the open line ends with the chunk just read |
| Controls.TracksFeed | src/controls.rs:86-94 | one pass of the loop keeps the loop state in agreement with the greedy wrapping |
| Controls.FeedFromTracks | src/controls.rs:86-94 | reading every remaining chunk keeps that agreement to the end of the loop |
| Controls.FeedFromStep | src/controls.rs:86 | reading the rest of the chunks is reading the next chunk, then the ones after it |
| Controls.WrapLines | src/controls.rs:79-99 | `wrap_lines` returns one line holding every span when the width is 0, and otherwise exactly the greedy wrapping of the chunks into lines |
| Controls.FeedChunk | src/controls.rs:87-93 | one pass over `lines`, `current` and `current_w` moves them exactly as the loop state moves |
| Controls.WrapLinesEnd | src/controls.rs:95-98 | pushing a non-empty last line completes the wrapping |
| Controls.LineSpansSnoc | src/controls.rs:89 | pushing a line adds its joined spans at the end |
| Controls.WrapConcat | src/controls.rs:86-97 | the wrapped lines joined give back the groups |
| Controls.WrapNonEmpty | src/controls.rs:88-95 | no wrapped line is empty |
| Controls.WrapMembers | src/controls.rs:92 | every group of every line is one of the input groups, so a key and its label are never separated |
| Controls.FitMoreStops | src/controls.rs:88 | a line closes only when it has width and the next group would push it past the limit |
| Controls.FitMoreFits | src/controls.rs:88-93 | the last group joined a line only if the line still fits, or if the line had no width before it |
| Controls.WrapGreedy | src/controls.rs:88-97 | every line is non-empty, and every line but the last has width and could not take the next line's first group without overflowing |
| Controls.WrapFits | src/controls.rs:88-93 | every line fits in the width, unless all its width comes from its last group (a single group wider than the bar) |
| Controls.WrapEven | src/controls.rs:86-93 | when all groups but the last are key/label pairs, every line but the last holds whole pairs |
| Controls.WrappedSpans | src/controls.rs:79-98 | the lines of `wrap_lines` joined give back the spans, no line is empty, and every line but the last holds an even number of spans (whole key/label pairs) |
| Controls.LineSpansConcat | src/controls.rs:89-96 | joining the lines' spans equals joining all their groups |
| Controls.ControlsHeight | src/controls.rs:101-113 | the height is the number of wrapped lines plus the two border rows, so it is at least 3 |
| Controls.OneLineWhenWide | src/controls.rs:86-97 | when all groups fit in the width together, there is exactly one line |
| Controls.AllFit | src/controls.rs:88 | when the rest fits, every group joins the open line |
| Gauge.New | src/gauge.rs:21-31 | the ratio is clamped to [0, 1] (kept when inside, 0 below, 1 above); caption and colour are kept; no threshold, red overflow colour, no waveform |
| Gauge.RoundToIndex | src/gauge.rs:65-68 | `round() as usize` lands within a half of a non-negative value and gives 0 for a non-positive one |
| Gauge.FilledCols | src/gauge.rs:65 | the filled column count is at most the width and is the nearest whole number to ratio × width: 0 for ratio 0, the whole width for ratio 1 |
| Gauge.OverflowCol | src/gauge.rs:66-69 | without a threshold the overflow column is the width |
| Gauge.FillColor | src/gauge.rs:89-104 | a filled column is in the filled colour before the overflow column and in the overflow colour at or past it |
| Gauge.NoThresholdNoOverflow | src/gauge.rs:66-104 | without a threshold no column of the bar takes the overflow colour |
| Gauge.BucketsTile | src/gauge.rs:76-77 | the waveform buckets start at sample 0, none runs backwards or past the end, each ends where the next begins, and the last ends at the final sample |
| Gauge.MaxFromZero | src/gauge.rs:79 | `fold(0.0, f32::max)` is at least 0, at least every sample, and is 0 or one of the samples |
| Gauge.BlockIndex | src/gauge.rs:83-87 | the glyph index is at most 8, is 0 iff the amplitude is not positive, and is 8 from amplitude 1 up |
| Gauge.BlockIndexMono | src/gauge.rs:83-87 | a louder column never gets a lower glyph |
| Gauge.PlainCellFilled | src/gauge.rs:105-129 | in the plain bar the heavy glyphs are exactly the filled columns, in the fill colour; the other columns are thin and grey; the background is reset |
| Gauge.PlainCellCaps | src/gauge.rs:105-127 | '╸' marks exactly the last filled column of a partly filled bar (past column 0); '╴' exactly an unfilled last column; '╺' column 0 of a bar with something filled; '╶' column 0 of an empty bar |
| Gauge.LabelStart | src/gauge.rs:133-135 | the caption starts at half the spare width, rounded down, and ends inside the bar |
| Gauge.Render | src/gauge.rs:51-147 | `render` on the inner area's row: nothing changes when the area is narrower than 2 or has no height; otherwise every column of the bar ends up as the caption's character where the caption covers it and as the bar cell elsewhere, and cells outside the bar are unchanged |
| Gauge.DrawBarCells | src/gauge.rs:72-131 | the bar pass writes each column of the bar exactly once, with its bar cell (the waveform glyph or the plain glyph), and leaves the rest of the row alone |
| Gauge.DrawCaption | src/gauge.rs:133-146 | the caption pass writes the caption's characters from its start column on, white over the filled part and grey elsewhere, and leaves the rest of the row alone |
| NowPlaying.PresentEmpty | src/now_playing.rs:161-174 | no metadata part is collected iff every field is absent |
| NowPlaying.PushIf | src/now_playing.rs:162-164 | `if let Some(v)` pushes the value when present and nothing otherwise |
| NowPlaying.MetaParts | src/now_playing.rs:161-173 | the collected parts are the present fields among artist, album, date and genre, in that order |
| NowPlaying.PresentFour | src/now_playing.rs:161-173 | collecting four fields gives the parts of the artist, then the album, then the date, then the genre |
| NowPlaying.PresentHead | src/now_playing.rs:161-173 | the parts of a list of fields are the first field's part followed by the parts of the rest |
| NowPlaying.PresentOrder | src/now_playing.rs:161-177 | of two present fields, the earlier one's value appears earlier in the parts |
| NowPlaying.PresentHas | src/now_playing.rs:161-173 | every present value is among the parts |
| NowPlaying.PresentFrom | src/now_playing.rs:161-173 | every part is the value of one of the fields |
| NowPlaying.JoinLength | src/now_playing.rs:177 | a join is as long as its parts plus one separator between each two |
| NowPlaying.Rows | src/now_playing.rs:158-179 | `max(ceil(w / inner), 1)` is at least 1, is the smallest row count whose total width holds a non-empty line, and is 1 when the line fits |
| NowPlaying.CeilDiv | src/now_playing.rs:158 | `(w + inner - 1) / inner` is the ceiling of w / inner |
| NowPlaying.NowPlayingHeight | src/now_playing.rs:137-183 | the height is 3 when the width is at most 2; otherwise it is the title rows plus the metadata rows plus 2; it is always at least 3 |
| NowPlaying.MetaRowsZero | src/now_playing.rs:161-180 | the metadata line takes no row iff artist, album, date and genre are all absent |
| NowPlaying.OneTitleRow | src/now_playing.rs:137-183 | with no metadata and a title that fits, the bar is three rows high |
| NowPlaying.Blend | src/now_playing.rs:85-87 | with an opacity in [0, 1] the blended channel lies between the art channel and the existing one; opacity 1 gives the art channel and opacity 0 the existing one |
| NowPlaying.CastBetween | src/now_playing.rs:86 | a value between two whole numbers casts (`as u8`) to a whole number between them |
| NowPlaying.BlendBetween | src/now_playing.rs:86 | weighting two channels by o and 1 - o lands between them |
| NowPlaying.BottomPixelPresent | src/now_playing.rs:103-112 | within the rows drawn, the lower pixel always comes from the next pixel row, so the fallback to the upper pixel is never taken |
| NowPlaying.ColorToRgb | src/now_playing.rs:69-83 | true colours keep their channels; a basic colour gets its usual value, and only Black maps to black; every other colour is black |
| NowPlaying.RenderArt | src/now_playing.rs:100-134 | `render` draws exactly the cells within min(height, pixel rows / 2) rows and min(width, first row's length) columns of the area, each the upper half block blended onto the cell that was there; every other cell is unchanged |
| NowPlaying.RenderArtRow | src/now_playing.rs:107-131 | one pass of the outer loop draws cell row `cy` of the art onto the first `cols` cells of its buffer row and nothing else |
| NowPlaying.BlendCell | src/now_playing.rs:111-130 | one cell is the upper half block, the top pixel blended over the old foreground and the bottom pixel (or the top one when there is no bottom row) over the old background |
| NowPlaying.ArtOverlay | src/now_playing.rs:187-197 | there is no overlay iff the area is at most 2 wide or high; otherwise it sits one cell inside the area, is at least 1 and at most ART_COLS wide and ART_ROWS high, fits in the area, and is exactly ART_COLS by ART_ROWS when the area has room |
| NowPlaying.DrawArtOverlay | src/now_playing.rs:187-199 | nothing changes when the inset area is empty; otherwise the art is rendered into the inset rectangle and nothing else changes |
| NowPlaying.Present | src/now_playing.rs:161-177 | the metadata parts are at most the fields there are: one per field that is present |
| Progress.TwoDigits | src/progress.rs:14 | `{:02}` of a number below 100 is two decimal digits that read back as the number |
| Progress.FormatDuration | src/progress.rs:12-15 | the text is digits with a single ':' three from the end, so the seconds field always has two digits |
| Progress.ParseFormatDuration | src/progress.rs:12-15 | reading the formatted time back gives the whole seconds of the duration (minutes × 60 + seconds, seconds below 60): the fraction is dropped |
| Progress.FormatDurationSeconds | src/progress.rs:12-15 | two durations print the same iff they have the same whole seconds |
| Progress.ProgressLabel | src/progress.rs:18-23 | the label holds '/' iff a non-zero total is known; it always starts with the elapsed time, and with a non-zero total it is "elapsed / total"; otherwise it is the elapsed time alone |
| Progress.ProgressRatio | src/progress.rs:24-32 | the ratio lies in [0, 1]; it is 0 with no total or a zero total, 1 once the elapsed time reaches the total, and elapsed/total before |
| Progress.ProgressGauge | src/progress.rs:33 | the gauge built carries exactly the label and ratio above, in cyan, with no overflow threshold or waveform |
| Theme.LoadTheme | src/theme.rs:143-149 | the index is always below the number of themes; an unreadable file gives 0; a stored text whose trimmed form parses as a `usize` below the number of themes gives that number, and anything else gives 0 |
| Theme.SaveTheme | src/theme.rs:151-155 | the saved text is a non-empty run of decimal digits |
| Theme.LoadSaveTheme | src/theme.rs:143-155 | saving a valid index and loading it again gives the same index |
| Theme.LoadGarbage | src/theme.rs:146-148 | stored text that does not parse as a number loads theme 0 |
| Theme.SelectorArea | src/theme.rs:160-164 | the popup is min(42, width) by min(themes + 4, height), inside the screen and centred (rounding down) |
| Theme.SelectorRow | src/theme.rs:193-220 | every row starts with its three-character marker |
| Theme.SelectorLines | src/theme.rs:180-223 | the popup holds the selected theme's name as a header, a blank line, then one row per theme, the row of theme i marked as selected iff i is the selected index |
| Theme.SelectorMarksOne | src/theme.rs:193-194 | a row carries the ">> " marker iff it is the selected theme's row |
| Theme.NamesFit | src/theme.rs:23-141 | every theme's name fits the 14-column name field |
| Theme.RowName | src/theme.rs:203-207 | a name of at most 14 characters sits right after the marker and is padded with spaces to column 17 |
| Theme.SelectorRowName | src/theme.rs:192-207 | every row of the popup shows its theme's name after the marker, padded with spaces to 14 columns |
| Theme.Marker | src/theme.rs:193-194 | both markers are three columns wide, so names line up |
| Numeric.SatSub | src/lyrics.rs:234-235 | `saturating_sub` is the difference when it is non-negative and 0 otherwise |
| Numeric.Clamp | src/main.rs:83 | `clamp` lands in the range and keeps values already in it |
| Numeric.Round | src/main.rs:805 | `round` is within one half of its argument and non-negative for non-negative arguments |
| Numeric.CastUnsigned | src/visualizer.rs:118 | a float-to-`usize` cast saturates negatives at 0 and otherwise truncates toward zero |
| Text.TrimStartSuffix | src/eq.rs:198 | trimming the start leaves a suffix and removes only whitespace |
| Text.TrimEndPrefix | src/eq.rs:198 | trimming the end leaves a prefix and removes only whitespace |
| Text.TrimNoWhitespace | src/eq.rs:201 | text without whitespace is unchanged by trimming |
| Text.IndexOf | src/file_browser.rs:80 | the index found holds the character and nothing before it does, or is the length when the character is absent |
| Text.LinesCons | src/eq.rs:197 | `lines()` of a line, a newline and the rest is that line followed by the lines of the rest |
| Text.LinesSingle | src/eq.rs:197 | a non-empty text without a newline is one line |
| Text.LinesThree | src/eq.rs:197-229 | three lines joined by newlines split back into those three lines |
| Text.SplitJoin | src/eq.rs:205-228 | splitting at a separator the joined parts do not contain gives back the parts |
| Text.ToDigit | src/eq.rs:201 | a digit's value is below its radix, and in base 10 exactly the characters '0' to '9' are digits |
| Text.NatToString | src/eq.rs:227 | a number prints as a non-empty run of decimal digits |
| Text.DigitsValueNatToString | src/eq.rs:201-227 | the printed digits of a number read back as the number |
| Text.ParseNatToString | src/eq.rs:199-227 | a printed index below the integer bound parses back to itself, before and after trimming |
| Text.ParseSignedNat | src/eq.rs:209-223 | a printed whole number, with or without a minus sign, parses back as a float |
| Text.ParseFormatWhole | src/eq.rs:209-223 | `format!("{g}")` of a whole gain parses back to the gain |
| Text.Lower | src/file_browser.rs:74-79 | lower-casing maps every character and keeps the length |
| Text.ByteLen | src/lyrics.rs:56 | a text has at least as many UTF-8 bytes as characters |
| Text.AsciiByteLen | src/lyrics.rs:56 | ASCII text has one byte per character |
| Text.PadRight | src/theme.rs:203 | padding keeps the text as a prefix and fills up to the width with spaces |

## Left out

- Audio decoding and output: the decoder, the sink, the output stream and the duration probe (src/main.rs:730-793) are foreign libraries. The sink is a value holding its elapsed time, pause flag, volume and start offset.
- The result of `try_seek` (src/main.rs:832) is ignored by the code. The model assumes the new sink plays from the clamped target.
- Concurrency is not modelled: the mutex around the sample buffer, the `AtomicBool` pipe flag, the lyric and art fetcher threads, and their channels. A failed `try_lock` is a flag passed to `PipedSource::next`. The run loop is a single key step plus the `Finished` test.
- Network and file I/O are not modelled: the lyric and album-art fetches (`fetch_lyrics_ovh`, `fetch_lyrics_genius` and its page scraping, `fetch_album_art`), reading and writing config files, and FIFO creation. Loaders take the file content, `None` when unreadable. Savers return the text they would write.
- Floating-point numerics are left out: biquad coefficient design (src/eq.rs:112-126) is an input function, and the FFT, the Hann window, `powf` and `cos` (src/visualizer.rs:341-370) are inputs. `f32` rounding, NaN and infinities are not modelled: floats are exact reals.
- Float formatting: `format!("{g}")` for gains is modelled only for whole numbers. `save_volume` (src/main.rs:689-693) is not modelled, since it only prints a float to a file. Float parsing accepts an optional sign, digits and an optional fraction, but not exponents, `inf` or `nan`.
- Eq.SaveLoadRoundTrip: proved only for whole-decibel gains, because printing a fractional `f32` is not modelled.
- Unicode: lower-casing is ASCII only, in fuzzy matching, extensions and the `<br` test. A span's display width is its number of characters, so East Asian wide characters are not modelled.
- Integer widths: the `u16` casts at the end of `controls_height` and `now_playing_height`, and `u16` screen coordinates, are unbounded naturals. The one overflow that matters is reported under Findings.
- FileBrowser.ScanDirectorySpec: the sort is modelled as insertion sort, so the stability of `sort_by` among equal keys is not stated. Symlinks and unreadable directories are not modelled. The `TreeItem::new` call at src/file_browser.rs:46 is taken to succeed, since the children of one directory have distinct paths.
- NowPlaying.RenderArt: requires every pixel row to be at least as long as the first. On ragged art the code would panic at `r[cx]`, and the model does not cover that case.
- The visualizers' final pass, which turns each grid cell into a braille character with a colour, is stated per cell (`Braille`, `ScopeColour`, `SpectrumColour`) and not as a buffer write.
- Drawing plumbing is not modelled: blocks, borders, paragraphs, styles, and `draw_eq`, `draw_file_browser` and `draw_now_playing_bar` beyond the metadata order.
- src/volume.rs is not part of this model. It is a thin wrapper that turns the volume into a percentage caption for the gauge.
- The copies of the visualizer and gauge widgets in src/main.rs:127-654 are modelled once, from src/visualizer.rs and src/gauge.rs.
- `config_dir` (src/main.rs:677-680) only builds the configuration path and belongs to the file I/O left out; `cache_hash` and `TrackMeta` are defined outside the modelled files and are not part of this model; `TrackMeta` is modelled as four optional strings.

## Findings

| source | as written | input that shows it | evidently intended | confidence | as-written member | corrected member |
|---|---|---|---|---|---|---|
| src/lyrics.rs:100 | `decode_entity` slices `entity[2..len-1]` whenever the entity is not a named one | "&;" in lyrics HTML gives the range 2..1, and "&é;" starts the slice inside 'é'; both panic | keep anything that is not a valid numeric entity verbatim | high, not executed | Lyrics.DecodeEntityAsWritten, Lyrics.EmptyEntityPanics, Lyrics.MultibyteEntityPanics | Lyrics.DecodeEntity |
| src/lyrics.rs:100-106 | the hexadecimal branch strips only the first two bytes, whatever they are, then looks for 'x' | "&ax41;" decodes to "A" | only "&#x…;" and "&#X…;" are hexadecimal entities, as the comment at line 99 says | medium, not executed | Lyrics.DecodeEntityAsWritten, Lyrics.HexWithoutHashDecoded | Lyrics.DecodeEntity |
| src/file_browser.rs:116-117 | `area.width * 80` and `area.height * 80` are computed in `u16` | a terminal 820 columns wide: the product is 65600, which panics in debug builds and wraps to 64 in release builds, giving a 40-column popup instead of 656 | 80% of the side, at least the floor, at most the side | high, not executed | FileBrowser.PopupSideAsWritten, FileBrowser.PopupSideWraps | FileBrowser.PopupSide, FileBrowser.PopupArea |
