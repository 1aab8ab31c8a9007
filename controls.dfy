/**
 * The controls help bar (src/controls.rs): the key/label spans it shows, the greedy wrapping of
 * those spans into lines that never separates a key from its label, and the bar's height.
 *
 * A span's display width is taken to be its number of characters.
 */
module Controls {
  import opened Numeric

  /** How a span is drawn: a key cap (black on yellow), plain text, or a setting shown cyan when active. */
  datatype Look = KeyCap | Plain | Flag(active: bool)

  datatype Span = Span(text: string, look: Look)

  function Width(s: Span): nat {
    |s.text|
  }

  function SpansWidth(ss: seq<Span>): nat {
    if ss == [] then 0 else Width(ss[0]) + SpansWidth(ss[1..])
  }

  function Concat<T>(xss: seq<seq<T>>): seq<T> {
    if xss == [] then [] else xss[0] + Concat(xss[1..])
  }

  lemma {:induction false} ConcatAppend<T>(a: seq<seq<T>>, b: seq<seq<T>>)
    ensures Concat(a + b) == Concat(a) + Concat(b)
  {
    if a == [] {
      assert a + b == b;
    } else {
      assert (a + b)[1..] == a[1..] + b;
      ConcatAppend(a[1..], b);
    }
  }

  // ----- build_control_spans -----

  /** One entry of the help bar: a key and what it does, drawn as a key-cap span and a label span. */
  datatype Control = Control(key: string, action: string, look: Look)

  /** The entries of `build_control_spans`, with the visualizer and browser entries when they apply. */
  function ControlList(showVisualizer: bool, hasBrowser: bool, shuffle: bool, repeatLabel: string, crossfadeLabel: string): seq<Control> {
    [Control(" Space ", " Play/Pause  ", Plain), Control(" ←/→ ", " Seek ±5s  ", Plain), Control(" ↑/↓ ", " Volume  ", Plain)]
    + (if showVisualizer then [Control(" v ", " Vis Mode  ", Plain)] else [])
    + [Control(" l ", " Lyrics  ", Plain), Control(" e ", " EQ  ", Plain)]
    + (if hasBrowser then
         [Control(" n/N ", " Next/Prev  ", Plain),
          Control(" s ", if shuffle then " Shuffle On  " else " Shuffle Off  ", Flag(shuffle)),
          Control(" r ", " " + repeatLabel + "  ", Flag(repeatLabel != "Repeat Off")),
          Control(" c ", " Crossfade " + crossfadeLabel + "  ", Flag(crossfadeLabel != "Off")),
          Control(" f ", " Files  ", Plain)]
       else [])
    + [Control(" x ", " Clear Cache  ", Plain), Control(" q ", " Quit", Plain)]
  }

  function SpansOf(cs: seq<Control>): seq<Span> {
    if cs == [] then [] else [Span(cs[0].key, KeyCap), Span(cs[0].action, cs[0].look)] + SpansOf(cs[1..])
  }

  /** `build_control_spans`. */
  function ControlSpans(showVisualizer: bool, hasBrowser: bool, shuffle: bool, repeatLabel: string, crossfadeLabel: string): seq<Span> {
    SpansOf(ControlList(showVisualizer, hasBrowser, shuffle, repeatLabel, crossfadeLabel))
  }

  /** Spans alternate key cap, label, key cap, label, and so on. */
  predicate KeyLabelPairs(ss: seq<Span>) {
    |ss| % 2 == 0 && forall k :: 0 <= k < |ss| ==> (ss[k].look == KeyCap <==> k % 2 == 0)
  }

  lemma {:induction false} SpansOfPairs(cs: seq<Control>)
    requires forall k :: 0 <= k < |cs| ==> cs[k].look != KeyCap
    ensures |SpansOf(cs)| == 2 * |cs|
    ensures KeyLabelPairs(SpansOf(cs))
  {
    if cs != [] {
      SpansOfPairs(cs[1..]);
      var rest := SpansOf(cs[1..]);
      var ss := SpansOf(cs);
      forall k | 2 <= k < |ss| ensures (ss[k].look == KeyCap <==> k % 2 == 0) {
        assert ss[k] == rest[k - 2];
      }
    }
  }

  /** 14 spans, plus 2 for the visualizer and 10 for the browser, always in key/label pairs. */
  lemma ControlSpansShape(showVisualizer: bool, hasBrowser: bool, shuffle: bool, repeatLabel: string, crossfadeLabel: string)
    ensures |ControlSpans(showVisualizer, hasBrowser, shuffle, repeatLabel, crossfadeLabel)|
      == 14 + (if showVisualizer then 2 else 0) + (if hasBrowser then 10 else 0)
    ensures KeyLabelPairs(ControlSpans(showVisualizer, hasBrowser, shuffle, repeatLabel, crossfadeLabel))
  {
    var cs := ControlList(showVisualizer, hasBrowser, shuffle, repeatLabel, crossfadeLabel);
    assert forall k :: 0 <= k < |cs| ==> cs[k].look != KeyCap;
    SpansOfPairs(cs);
  }

  // ----- wrap_lines -----

  /** `chunks(2)`: consecutive pairs, the last one single when the count is odd. */
  function Chunks(ss: seq<Span>): (gs: seq<seq<Span>>)
    ensures forall k :: 0 <= k < |gs| ==> 1 <= |gs[k]| <= 2
    ensures forall k :: 0 <= k < |gs| - 1 ==> |gs[k]| == 2
    ensures Concat(gs) == ss
  {
    if |ss| <= 2 then (if ss == [] then [] else [ss])
    else
      assert ss == ss[..2] + ss[2..];
      [ss[..2]] + Chunks(ss[2..])
  }

  function GroupWidth(g: seq<Span>): nat {
    SpansWidth(g)
  }

  function GroupsWidth(gs: seq<seq<Span>>): nat {
    if gs == [] then 0 else GroupWidth(gs[0]) + GroupsWidth(gs[1..])
  }

  /**
   * How many of the next groups join a line whose width is already `acc`: a group joins when it
   * fits in `w`, or when the line so far has no width at all.
   */
  function FitMore(acc: nat, rest: seq<seq<Span>>, w: nat): (n: nat)
    ensures n <= |rest|
    ensures acc == 0 && rest != [] ==> n >= 1
    decreases |rest|
  {
    if rest == [] then 0
    else if acc + GroupWidth(rest[0]) > w && acc > 0 then 0
    else 1 + FitMore(acc + GroupWidth(rest[0]), rest[1..], w)
  }

  /** Greedy wrapping, one line at a time: each line takes as many groups as fit. */
  function Wrap(groups: seq<seq<Span>>, w: nat): seq<seq<seq<Span>>>
    decreases |groups|
  {
    if groups == [] then []
    else
      var n := FitMore(0, groups, w);
      [groups[..n]] + Wrap(groups[n..], w)
  }

  /** The spans of each wrapped line. */
  function LineSpans(lines: seq<seq<seq<Span>>>): (r: seq<seq<Span>>)
    ensures |r| == |lines| && forall k :: 0 <= k < |lines| ==> r[k] == Concat(lines[k])
  {
    if lines == [] then [] else LineSpans(lines[..|lines| - 1]) + [Concat(lines[|lines| - 1])]
  }

  /** The lines `wrap_lines` produces for an inner width of `w`. */
  function Wrapped(spans: seq<Span>, w: nat): seq<seq<Span>> {
    if w == 0 then [spans] else LineSpans(Wrap(Chunks(spans), w))
  }

  /** The lines still to come when the current line holds `cur`, of width `acc`, and `rest` is unread. */
  function Pending(cur: seq<seq<Span>>, acc: nat, rest: seq<seq<Span>>, w: nat): seq<seq<seq<Span>>> {
    [cur + rest[..FitMore(acc, rest, w)]] + Wrap(rest[FitMore(acc, rest, w)..], w)
  }

  /** The first group always opens the first line. */
  lemma WrapStepFirst(rest: seq<seq<Span>>, w: nat)
    requires rest != []
    ensures Wrap(rest, w) == Pending([rest[0]], GroupWidth(rest[0]), rest[1..], w)
  {
    var m := FitMore(GroupWidth(rest[0]), rest[1..], w);
    assert FitMore(0, rest, w) == 1 + m;
    assert rest[..1 + m] == [rest[0]] + rest[1..][..m];
    assert rest[1 + m..] == rest[1..][m..];
  }

  /** A group that does not fit closes the current line and opens the next. */
  lemma WrapStepPush(rest: seq<seq<Span>>, cur: seq<seq<Span>>, acc: nat, w: nat)
    requires rest != [] && acc > 0 && acc + GroupWidth(rest[0]) > w
    ensures Pending(cur, acc, rest, w) == [cur] + Pending([rest[0]], GroupWidth(rest[0]), rest[1..], w)
  {
    assert FitMore(acc, rest, w) == 0;
    assert rest[..0] == [] && rest[0..] == rest;
    assert cur + [] == cur;
    WrapStepFirst(rest, w);
  }

  /** A group that fits joins the current line. */
  lemma WrapStepAdd(rest: seq<seq<Span>>, cur: seq<seq<Span>>, acc: nat, w: nat)
    requires rest != [] && !(acc + GroupWidth(rest[0]) > w && acc > 0)
    ensures Pending(cur, acc, rest, w) == Pending(cur + [rest[0]], acc + GroupWidth(rest[0]), rest[1..], w)
  {
    var m := FitMore(acc + GroupWidth(rest[0]), rest[1..], w);
    assert FitMore(acc, rest, w) == 1 + m;
    assert rest[..1 + m] == [rest[0]] + rest[1..][..m];
    assert rest[1 + m..] == rest[1..][m..];
    assert cur + rest[..1 + m] == (cur + [rest[0]]) + rest[1..][..m];
  }

  /**
   * The loop state of `wrap_lines` after `i` groups: the lines closed so far (`done`), then the
   * open line `cur` of width `acc`, followed by what `Wrap` makes of the rest, are the whole wrapping.
   */
  ghost predicate Tracks(groups: seq<seq<Span>>, i: nat, done: seq<seq<seq<Span>>>, cur: seq<seq<Span>>, acc: nat, w: nat)
    requires i <= |groups|
  {
    if i == 0 then done == [] && cur == [] && acc == 0
    else Wrap(groups, w) == done + Pending(cur, acc, groups[i..], w)
  }

  /** The first group opens the first line. */
  lemma TracksFirst(groups: seq<seq<Span>>, st: LineState, w: nat)
    requires 0 < |groups| && Tracks(groups, 0, st.done, st.cur, st.acc, w)
    ensures var next := Feed(st, groups[0], w); Tracks(groups, 1, next.done, next.cur, next.acc, w)
  {
    var g := groups[0];
    assert Feed(st, g, w) == LineState([], [g], GroupWidth(g));
    WrapStepFirst(groups, w);
  }

  /** A later group that does not fit closes the open line. */
  lemma TracksPush(groups: seq<seq<Span>>, i: nat, st: LineState, w: nat)
    requires 0 < i < |groups| && Tracks(groups, i, st.done, st.cur, st.acc, w)
    requires st.acc + GroupWidth(groups[i]) > w && st.acc > 0
    ensures var next := Feed(st, groups[i], w); Tracks(groups, i + 1, next.done, next.cur, next.acc, w)
  {
    var g := groups[i];
    assert Feed(st, g, w) == LineState(st.done + [st.cur], [g], GroupWidth(g));
    var rest := groups[i..];
    assert rest[0] == g && rest[1..] == groups[i + 1..];
    var later := Pending([g], GroupWidth(g), groups[i + 1..], w);
    WrapStepPush(rest, st.cur, st.acc, w);
    assert Wrap(groups, w) == st.done + ([st.cur] + later);
    assert st.done + ([st.cur] + later) == (st.done + [st.cur]) + later;
  }

  /** A later group that fits joins the open line. */
  lemma TracksAdd(groups: seq<seq<Span>>, i: nat, st: LineState, w: nat)
    requires 0 < i < |groups| && Tracks(groups, i, st.done, st.cur, st.acc, w)
    requires !(st.acc + GroupWidth(groups[i]) > w && st.acc > 0)
    ensures var next := Feed(st, groups[i], w); Tracks(groups, i + 1, next.done, next.cur, next.acc, w)
  {
    var g := groups[i];
    assert Feed(st, g, w) == LineState(st.done, st.cur + [g], st.acc + GroupWidth(g));
    var rest := groups[i..];
    assert rest[0] == g && rest[1..] == groups[i + 1..];
    WrapStepAdd(rest, st.cur, st.acc, w);
    assert Wrap(groups, w) == st.done + Pending(st.cur + [g], st.acc + GroupWidth(g), groups[i + 1..], w);
  }

  /** At the end of the input the open line, if any, is the last line. */
  lemma WrapFinish(groups: seq<seq<Span>>, done: seq<seq<seq<Span>>>, cur: seq<seq<Span>>, acc: nat, w: nat)
    requires Tracks(groups, |groups|, done, cur, acc, w) && (|groups| > 0 ==> cur != [])
    ensures Wrap(groups, w) == if cur == [] then done else done + [cur]
  {
    if |groups| > 0 {
      assert groups[|groups|..] == [];
      assert cur + [] == cur;
      assert Pending(cur, acc, [], w) == [cur];
    }
  }

  /** The state `wrap_lines` carries between chunks: closed lines, the open line and its width. */
  datatype LineState = LineState(done: seq<seq<seq<Span>>>, cur: seq<seq<Span>>, acc: nat)

  /** One pass of the loop: push the open line when the chunk overflows it, then add the chunk. */
  function Feed(st: LineState, g: seq<Span>, w: nat): (r: LineState)
    ensures r.cur != [] && r.cur[|r.cur| - 1] == g
  {
    if st.acc + GroupWidth(g) > w && st.acc > 0 then LineState(st.done + [st.cur], [g], GroupWidth(g))
    else LineState(st.done, st.cur + [g], st.acc + GroupWidth(g))
  }

  /** The loop state after feeding `gs`, in order, to `st`. */
  function FeedFrom(st: LineState, gs: seq<seq<Span>>, w: nat): LineState
    decreases |gs|
  {
    if gs == [] then st else FeedFrom(Feed(st, gs[0], w), gs[1..], w)
  }

  /** One pass of the loop keeps the state in agreement with `Wrap`. */
  lemma TracksFeed(groups: seq<seq<Span>>, i: nat, st: LineState, w: nat)
    requires i < |groups| && Tracks(groups, i, st.done, st.cur, st.acc, w)
    ensures var next := Feed(st, groups[i], w); Tracks(groups, i + 1, next.done, next.cur, next.acc, w)
  {
    if i == 0 {
      TracksFirst(groups, st, w);
    } else if st.acc + GroupWidth(groups[i]) > w && st.acc > 0 {
      TracksPush(groups, i, st, w);
    } else {
      TracksAdd(groups, i, st, w);
    }
  }

  /** Feeding the remaining chunks to a state that agrees with `Wrap` ends in one that agrees too. */
  lemma {:induction false} FeedFromTracks(groups: seq<seq<Span>>, i: nat, st: LineState, w: nat)
    requires i <= |groups| && Tracks(groups, i, st.done, st.cur, st.acc, w) && (i > 0 ==> st.cur != [])
    ensures var f := FeedFrom(st, groups[i..], w);
      Tracks(groups, |groups|, f.done, f.cur, f.acc, w) && (|groups| > 0 ==> f.cur != [])
    decreases |groups| - i
  {
    if i < |groups| {
      var next := Feed(st, groups[i], w);
      FeedFromStep(st, groups, i, w);
      TracksFeed(groups, i, st, w);
      FeedFromTracks(groups, i + 1, next, w);
      assert FeedFrom(st, groups[i..], w) == FeedFrom(next, groups[i + 1..], w);
    } else {
      assert groups[i..] == [];
      assert FeedFrom(st, groups[i..], w) == st;
    }
  }

  lemma FeedFromStep(st: LineState, groups: seq<seq<Span>>, i: nat, w: nat)
    requires i < |groups|
    ensures FeedFrom(st, groups[i..], w) == FeedFrom(Feed(st, groups[i], w), groups[i + 1..], w)
  {
    assert groups[i..][1..] == groups[i + 1..];
  }

  /** `wrap_lines`: the loop over the chunks, carrying the current line and its width. */
  method WrapLines(spans: seq<Span>, innerW: nat) returns (lines: seq<seq<Span>>)
    ensures lines == Wrapped(spans, innerW)
  {
    if innerW == 0 {
      return [spans];
    }
    var groups := Chunks(spans);
    lines := [];
    var current: seq<Span> := [];
    var currentW: nat := 0;
    ghost var st := LineState([], [], 0);
    for i := 0 to |groups|
      invariant FeedFrom(st, groups[i..], innerW) == FeedFrom(LineState([], [], 0), groups, innerW)
      invariant lines == LineSpans(st.done) && current == Concat(st.cur) && currentW == st.acc
      invariant st.cur == [] || st.cur[0] != []
    {
      assert groups[i] != [];
      FeedFromStep(st, groups, i, innerW);
      lines, current, currentW := FeedChunk(lines, current, currentW, groups[i], innerW, st);
      st := Feed(st, groups[i], innerW);
    }
    WrapLinesEnd(spans, innerW, st, lines, current);
    if current != [] {
      lines := lines + [current];
    }
  }

  /** One pass of the loop of `wrap_lines` on its variables: they follow `Feed` on the state they stand for. */
  method FeedChunk(lines: seq<seq<Span>>, current: seq<Span>, currentW: nat, chunk: seq<Span>, w: nat, ghost st: LineState)
    returns (nextLines: seq<seq<Span>>, nextCurrent: seq<Span>, nextW: nat)
    requires lines == LineSpans(st.done) && current == Concat(st.cur) && currentW == st.acc
    ensures var next := Feed(st, chunk, w);
      nextLines == LineSpans(next.done) && nextCurrent == Concat(next.cur) && nextW == next.acc
  {
    nextLines, nextCurrent, nextW := lines, current, currentW;
    var groupW := SpansWidth(chunk);
    if currentW + groupW > w && currentW > 0 {
      LineSpansSnoc(st.done, st.cur);
      nextLines := nextLines + [nextCurrent];
      nextCurrent := [];
      nextW := 0;
    }
    nextCurrent := nextCurrent + chunk;
    nextW := nextW + groupW;
    ConcatAppend(st.cur, [chunk]);
    ConcatSingle(chunk);
  }

  lemma ConcatSingle<T>(g: seq<T>)
    ensures Concat([g]) == g && [] + g == g
  {
    assert [g][1..] == [];
  }

  /** After the last chunk, pushing the open line when it is not empty completes the wrapping. */
  lemma WrapLinesEnd(spans: seq<Span>, w: nat, st: LineState, lines: seq<seq<Span>>, current: seq<Span>)
    requires w > 0 && FeedFrom(st, [], w) == FeedFrom(LineState([], [], 0), Chunks(spans), w)
    requires lines == LineSpans(st.done) && current == Concat(st.cur)
    requires st.cur == [] || st.cur[0] != []
    ensures (if current != [] then lines + [current] else lines) == Wrapped(spans, w)
  {
    var groups := Chunks(spans);
    assert groups[0..] == groups;
    FeedFromTracks(groups, 0, LineState([], [], 0), w);
    WrapFinish(groups, st.done, st.cur, st.acc, w);
    if st.cur != [] {
      ConcatNonEmpty(st.cur);
      LineSpansSnoc(st.done, st.cur);
    }
  }

  lemma LineSpansSnoc(done: seq<seq<seq<Span>>>, cur: seq<seq<Span>>)
    ensures LineSpans(done + [cur]) == LineSpans(done) + [Concat(cur)]
  {
    assert (done + [cur])[..|done|] == done;
  }

  // ----- properties of the wrapping -----

  /** The lines, joined, give back the groups. */
  lemma {:induction false} WrapConcat(groups: seq<seq<Span>>, w: nat)
    ensures Concat(Wrap(groups, w)) == groups
    decreases |groups|
  {
    if groups != [] {
      var n := FitMore(0, groups, w);
      WrapConcat(groups[n..], w);
      ConcatAppend([groups[..n]], Wrap(groups[n..], w));
      assert Concat([groups[..n]]) == groups[..n] by { assert [groups[..n]][1..] == []; }
      assert groups[..n] + groups[n..] == groups;
    }
  }

  /** Every line holds at least one group. */
  lemma {:induction false} WrapNonEmpty(groups: seq<seq<Span>>, w: nat)
    ensures forall k :: 0 <= k < |Wrap(groups, w)| ==> Wrap(groups, w)[k] != []
    decreases |groups|
  {
    if groups != [] {
      WrapNonEmpty(groups[FitMore(0, groups, w)..], w);
    }
  }

  /** Every group of every line is one of the input groups. */
  lemma {:induction false} WrapMembers(groups: seq<seq<Span>>, w: nat)
    ensures forall k, j :: 0 <= k < |Wrap(groups, w)| && 0 <= j < |Wrap(groups, w)[k]| ==> Wrap(groups, w)[k][j] in groups
    decreases |groups|
  {
    if groups != [] {
      var n := FitMore(0, groups, w);
      WrapMembers(groups[n..], w);
      var lines := Wrap(groups, w);
      forall k, j | 0 <= k < |lines| && 0 <= j < |lines[k]| ensures lines[k][j] in groups {
        if k == 0 {
          assert lines[0][j] == groups[j];
        } else {
          assert lines[k] == Wrap(groups[n..], w)[k - 1];
          assert lines[k][j] in groups[n..];
        }
      }
    }
  }

  lemma {:induction false} GroupsWidthSplit(gs: seq<seq<Span>>, n: nat)
    requires 1 <= n <= |gs|
    ensures GroupsWidth(gs[..n]) == GroupWidth(gs[0]) + GroupsWidth(gs[1..][..n - 1])
  {
    assert gs[..n][1..] == gs[1..][..n - 1];
  }

  /** A line stops only when it has width and the next group would overflow it. */
  lemma {:induction false} FitMoreStops(acc: nat, rest: seq<seq<Span>>, w: nat)
    requires FitMore(acc, rest, w) < |rest|
    ensures acc + GroupsWidth(rest[..FitMore(acc, rest, w)]) > 0
    ensures acc + GroupsWidth(rest[..FitMore(acc, rest, w)]) + GroupWidth(rest[FitMore(acc, rest, w)]) > w
    decreases |rest|
  {
    var n := FitMore(acc, rest, w);
    if n > 0 {
      var g := GroupWidth(rest[0]);
      FitMoreStops(acc + g, rest[1..], w);
      GroupsWidthSplit(rest, n);
      assert rest[n] == rest[1..][n - 1];
    } else {
      assert rest[..0] == [];
    }
  }

  /** The last group joined a line only if it fitted, or if the line had no width before it. */
  lemma {:induction false} FitMoreFits(acc: nat, rest: seq<seq<Span>>, w: nat)
    requires FitMore(acc, rest, w) >= 1
    ensures acc + GroupsWidth(rest[..FitMore(acc, rest, w)]) <= w
      || acc + GroupsWidth(rest[..FitMore(acc, rest, w) - 1]) == 0
    decreases |rest|
  {
    var n := FitMore(acc, rest, w);
    var g := GroupWidth(rest[0]);
    var m := FitMore(acc + g, rest[1..], w);
    GroupsWidthSplit(rest, n);
    if m == 0 {
      assert rest[..0] == [];
      assert rest[1..][..0] == [];
    } else {
      FitMoreFits(acc + g, rest[1..], w);
      GroupsWidthSplit(rest, n - 1);
      assert rest[1..][..m - 1] == rest[1..][..n - 2];
    }
  }

  /** Greedy: every line is non-empty, and every line but the last has width and could not take the next line's first group. */
  lemma {:induction false} WrapGreedy(groups: seq<seq<Span>>, w: nat)
    ensures forall k :: 0 <= k < |Wrap(groups, w)| ==> Wrap(groups, w)[k] != []
    ensures forall k :: 0 <= k < |Wrap(groups, w)| - 1 ==>
      GroupsWidth(Wrap(groups, w)[k]) > 0
      && GroupsWidth(Wrap(groups, w)[k]) + GroupWidth(Wrap(groups, w)[k + 1][0]) > w
    decreases |groups|
  {
    if groups != [] {
      var n := FitMore(0, groups, w);
      var rest := groups[n..];
      var lines := Wrap(groups, w);
      assert lines == [groups[..n]] + Wrap(rest, w);
      WrapGreedy(rest, w);
      WrapNonEmpty(groups, w);
      if rest != [] {
        FitMoreStops(0, groups, w);
        assert lines[1] == rest[..FitMore(0, rest, w)];
        assert lines[1][0] == groups[n];
      }
      forall k | 1 <= k < |lines| ensures lines[k] == Wrap(rest, w)[k - 1] {
      }
    }
  }

  /** Bounded: every line is non-empty and fits in `w`, unless only its last group has any width. */
  lemma {:induction false} WrapFits(groups: seq<seq<Span>>, w: nat)
    ensures forall k :: 0 <= k < |Wrap(groups, w)| ==>
      Wrap(groups, w)[k] != []
      && (GroupsWidth(Wrap(groups, w)[k]) <= w || GroupsWidth(Wrap(groups, w)[k][..|Wrap(groups, w)[k]| - 1]) == 0)
    decreases |groups|
  {
    if groups != [] {
      var n := FitMore(0, groups, w);
      var rest := groups[n..];
      var lines := Wrap(groups, w);
      assert lines == [groups[..n]] + Wrap(rest, w);
      WrapFits(rest, w);
      FitMoreFits(0, groups, w);
      assert groups[..n][..n - 1] == groups[..n - 1];
      forall k | 1 <= k < |lines| ensures lines[k] == Wrap(rest, w)[k - 1] {
      }
    }
  }

  /** With all groups but the last of size two, every line but the last has an even number of spans. */
  lemma {:induction false} WrapEven(groups: seq<seq<Span>>, w: nat)
    requires forall k :: 0 <= k < |groups| - 1 ==> |groups[k]| == 2
    ensures forall k :: 0 <= k < |Wrap(groups, w)| - 1 ==> |Concat(Wrap(groups, w)[k])| == 2 * |Wrap(groups, w)[k]|
    decreases |groups|
  {
    if groups != [] {
      var n := FitMore(0, groups, w);
      var rest := groups[n..];
      WrapEven(rest, w);
      if rest != [] {
        PairsLength(groups[..n]);
      }
      forall k | 1 <= k < |Wrap(groups, w)| ensures Wrap(groups, w)[k] == Wrap(rest, w)[k - 1] {
      }
    }
  }

  lemma {:induction false} PairsLength(gs: seq<seq<Span>>)
    requires forall k :: 0 <= k < |gs| ==> |gs[k]| == 2
    ensures |Concat(gs)| == 2 * |gs|
  {
    if gs != [] {
      PairsLength(gs[1..]);
    }
  }

  /**
   * What the wrapped help bar promises: the lines together are the spans, no line is empty, and no
   * line but the last ends between a key and its label.
   */
  lemma WrappedSpans(spans: seq<Span>, w: nat)
    requires w > 0
    ensures Concat(Wrapped(spans, w)) == spans
    ensures forall k :: 0 <= k < |Wrapped(spans, w)| ==> Wrapped(spans, w)[k] != []
    ensures forall k :: 0 <= k < |Wrapped(spans, w)| - 1 ==> |Wrapped(spans, w)[k]| % 2 == 0
  {
    var groups := Chunks(spans);
    var lines := Wrap(groups, w);
    var ls := LineSpans(lines);
    assert Wrapped(spans, w) == ls;
    WrapConcat(groups, w);
    LineSpansConcat(lines);
    assert Concat(ls) == spans;
    WrapMembers(groups, w);
    WrapNonEmpty(groups, w);
    forall k | 0 <= k < |ls| ensures ls[k] != [] {
      assert lines[k][0] in groups;
      ConcatNonEmpty(lines[k]);
    }
    WrapEven(groups, w);
    forall k | 0 <= k < |ls| - 1 ensures |ls[k]| % 2 == 0 {
      Even(|ls[k]|, |lines[k]|);
    }
  }

  lemma {:induction false} LineSpansConcat(lines: seq<seq<seq<Span>>>)
    ensures Concat(LineSpans(lines)) == Concat(Concat(lines))
  {
    if lines != [] {
      LineSpansConcat(lines[1..]);
      assert LineSpans(lines)[1..] == LineSpans(lines[1..]);
      ConcatAppend(lines[0], Concat(lines[1..]));
    }
  }

  lemma Even(n: nat, m: nat)
    requires n == 2 * m
    ensures n % 2 == 0
  {
  }

  lemma ConcatNonEmpty(gs: seq<seq<Span>>)
    requires gs != [] && gs[0] != []
    ensures Concat(gs) != []
  {
  }

  // ----- controls_height -----

  /** `controls_height`: the wrapped line count plus the two border rows. */
  method ControlsHeight(width: nat, showVisualizer: bool, hasBrowser: bool, shuffle: bool, repeatLabel: string, crossfadeLabel: string)
    returns (h: nat)
    ensures h == |Wrapped(ControlSpans(showVisualizer, hasBrowser, shuffle, repeatLabel, crossfadeLabel), SatSub(width, 2))| + 2
    ensures h >= 3
  {
    var spans := ControlSpans(showVisualizer, hasBrowser, shuffle, repeatLabel, crossfadeLabel);
    var innerW := SatSub(width, 2);
    var lines := WrapLines(spans, innerW);
    ControlSpansShape(showVisualizer, hasBrowser, shuffle, repeatLabel, crossfadeLabel);
    if innerW > 0 {
      WrapConcat(Chunks(spans), innerW);
    }
    h := |lines| + 2;
  }

  /** When everything fits on one line, the bar is three rows high. */
  lemma {:induction false} OneLineWhenWide(groups: seq<seq<Span>>, w: nat)
    requires groups != [] && GroupsWidth(groups) <= w
    ensures |Wrap(groups, w)| == 1
  {
    AllFit(0, groups, w);
    assert groups[|groups|..] == [];
  }

  lemma {:induction false} AllFit(acc: nat, rest: seq<seq<Span>>, w: nat)
    requires acc + GroupsWidth(rest) <= w
    ensures FitMore(acc, rest, w) == |rest|
    decreases |rest|
  {
    if rest != [] {
      AllFit(acc + GroupWidth(rest[0]), rest[1..], w);
    }
  }
}
