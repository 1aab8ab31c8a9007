/**
 * The file browser (src/file_browser.rs): which files count as audio, the directory scan that
 * builds the browser tree, the depth-first collection of audio files, the fuzzy search over file
 * names and the placement of the popup.
 *
 * The file system is a value: a directory is the list of its entries in the order `read_dir`
 * yields them. A path is the list of its components, and its file name is the last one.
 */
module FileBrowser {
  import opened Wrappers
  import opened Text
  import opened Numeric
  import opened Layout

  const AUDIO_EXTENSIONS: seq<string> := ["mp3", "flac", "ogg", "wav", "aac", "m4a"]

  type Path = seq<string>

  function FileName(p: Path): string {
    if p == [] then "" else p[|p| - 1]
  }

  // ----- is_audio_file -----

  /** The index of the last `c` in `s`. */
  function LastIndexOf(s: string, c: char): (r: Option<nat>)
    ensures r.Some? ==> r.value < |s| && s[r.value] == c && c !in s[r.value + 1..]
    ensures r.None? ==> c !in s
  {
    if s == [] then None
    else if s[|s| - 1] == c then Some(|s| - 1)
    else
      var r := LastIndexOf(s[..|s| - 1], c);
      assert r.Some? ==> s[r.value + 1..] == s[..|s| - 1][r.value + 1..] + [s[|s| - 1]];
      assert r.None? ==> s == s[..|s| - 1] + [s[|s| - 1]];
      r
  }

  lemma LastIndexOfUnique(s: string, c: char, i: nat)
    requires i < |s| && s[i] == c && c !in s[i + 1..]
    ensures LastIndexOf(s, c) == Some(i)
  {
    var r := LastIndexOf(s, c);
    assert r.Some? by { assert s[i] in s; }
    forall k | r.value < k < |s| ensures s[k] != c {
      assert s[k] == s[r.value + 1..][k - r.value - 1];
    }
    forall k | i < k < |s| ensures s[k] != c {
      assert s[k] == s[i + 1..][k - i - 1];
    }
  }

  /**
   * `Path::extension` of a file name: the text after the last '.', except that a name with no '.',
   * a name whose only '.' is its first character, and ".." have none.
   */
  function Extension(name: string): Option<string> {
    if name == ".." then None
    else
      match LastIndexOf(name, '.')
      case None => None
      case Some(i) => if i == 0 then None else Some(name[i + 1..])
  }

  /** `is_audio_file`: the extension, lower-cased, is one of the six audio extensions. */
  predicate IsAudioFile(name: string) {
    Extension(name).Some? && Lower(Extension(name).value) in AUDIO_EXTENSIONS
  }

  /** The '.' at `i`, after the first character of `name`, is its last, and what follows it is an audio extension. */
  predicate AudioDotAt(name: string, i: int) {
    0 < i < |name| && name[i] == '.' && '.' !in name[i + 1..] && Lower(name[i + 1..]) in AUDIO_EXTENSIONS
  }

  /** The extension `Path::extension` finds after such a '.' is the text that follows it. */
  lemma ExtensionAt(name: string, i: int)
    requires AudioDotAt(name, i)
    ensures Extension(name) == Some(name[i + 1..])
  {
    LastIndexOfUnique(name, '.', i);
    assert |Lower(name[i + 1..])| >= 3;
  }

  /**
   * A name is an audio file name exactly when it has a '.' after its first character, no '.'
   * follows that one, and what follows lower-cases to an audio extension.
   */
  lemma AudioFileIff(name: string)
    ensures IsAudioFile(name) <==> exists i :: AudioDotAt(name, i)
  {
    if IsAudioFile(name) {
      var i := LastIndexOf(name, '.').value;
      assert AudioDotAt(name, i);
    }
    if exists i :: AudioDotAt(name, i) {
      var i :| AudioDotAt(name, i);
      ExtensionAt(name, i);
    }
  }

  /** Upper-case extensions count as well: "Song.MP3" is an audio file. */
  lemma AudioFileAnyCase(stem: string, ext: string)
    requires stem != [] && '.' !in ext
    requires Lower(ext) in AUDIO_EXTENSIONS
    ensures IsAudioFile(stem + "." + ext)
  {
    var name := stem + "." + ext;
    assert name[|stem| + 1..] == ext;
    assert name[|stem|] == '.';
    assert AudioDotAt(name, |stem|);
    AudioFileIff(name);
  }

  // ----- fuzzy_match -----

  /** Whether `a` occurs in `b` in order, matching each element of `a` at its earliest chance. */
  predicate IsSubseq<T(==)>(a: seq<T>, b: seq<T>)
    decreases |b|
  {
    a == [] || (b != [] && if a[0] == b[0] then IsSubseq(a[1..], b[1..]) else IsSubseq(a, b[1..]))
  }

  /** `idx` lists strictly increasing positions of `b` that spell out `a`. */
  predicate Embeds<T(==)>(a: seq<T>, b: seq<T>, idx: seq<int>) {
    |idx| == |a|
    && (forall k :: 0 <= k < |idx| ==> 0 <= idx[k] < |b| && b[idx[k]] == a[k])
    && (forall j, k :: 0 <= j < k < |idx| ==> idx[j] < idx[k])
  }

  function Shift(idx: seq<int>, d: int): (r: seq<int>)
    ensures |r| == |idx| && forall k :: 0 <= k < |idx| ==> r[k] == idx[k] + d
  {
    seq(|idx|, k requires 0 <= k < |idx| => idx[k] + d)
  }

  /** The positions the greedy test picks. */
  function SubseqWitness<T(==)>(a: seq<T>, b: seq<T>): (idx: seq<int>)
    requires IsSubseq(a, b)
    ensures Embeds(a, b, idx)
    decreases |b|
  {
    if a == [] then []
    else if a[0] == b[0] then
      var rest := SubseqWitness(a[1..], b[1..]);
      EmbedsMatch(a, b, rest);
      [0] + Shift(rest, 1)
    else
      var rest := SubseqWitness(a, b[1..]);
      EmbedsSkip(a, b, rest);
      Shift(rest, 1)
  }

  /** Matching the heads: the rest of `a` embedded in the rest of `b`, shifted, after position 0. */
  lemma EmbedsMatch<T>(a: seq<T>, b: seq<T>, rest: seq<int>)
    requires a != [] && b != [] && a[0] == b[0] && Embeds(a[1..], b[1..], rest)
    ensures Embeds(a, b, [0] + Shift(rest, 1))
  {
    EmbedsSkip(a[1..], b, rest);
    EmbedsCons(a, b, Shift(rest, 1));
  }

  /** Position 0 put before an embedding of the tail of `a` that avoids position 0. */
  lemma EmbedsCons<T>(a: seq<T>, b: seq<T>, tail: seq<int>)
    requires a != [] && b != [] && a[0] == b[0] && Embeds(a[1..], b, tail)
    requires forall k :: 0 <= k < |tail| ==> tail[k] > 0
    ensures Embeds(a, b, [0] + tail)
  {
    var idx := [0] + tail;
    forall k | 0 < k < |idx| ensures 0 <= idx[k] < |b| && b[idx[k]] == a[k] {
      assert idx[k] == tail[k - 1] && a[1..][k - 1] == a[k];
    }
    forall j, k | 0 <= j < k < |idx| ensures idx[j] < idx[k] {
      assert idx[k] == tail[k - 1];
      if j > 0 {
        assert idx[j] == tail[j - 1];
      }
    }
  }

  /** Skipping the head of `b`: an embedding in its tail, shifted by one. */
  lemma EmbedsSkip<T>(a: seq<T>, b: seq<T>, rest: seq<int>)
    requires b != [] && Embeds(a, b[1..], rest)
    ensures Embeds(a, b, Shift(rest, 1))
  {
    var idx := Shift(rest, 1);
    forall k | 0 <= k < |idx| ensures 0 <= idx[k] < |b| && b[idx[k]] == a[k] {
      assert b[1..][rest[k]] == a[k];
    }
  }

  /** Any in-order occurrence is found by the greedy test. */
  lemma {:induction false} EmbedsIsSubseq<T>(a: seq<T>, b: seq<T>, idx: seq<int>)
    requires Embeds(a, b, idx)
    ensures IsSubseq(a, b)
    decreases |b|
  {
    if a != [] {
      assert b != [] by { assert 0 <= idx[0] < |b|; }
      if a[0] == b[0] {
        var rest := Shift(idx[1..], -1);
        forall k | 0 <= k < |rest| ensures 0 <= rest[k] < |b[1..]| && b[1..][rest[k]] == a[1..][k] {
          assert idx[0] < idx[k + 1];
        }
        EmbedsIsSubseq(a[1..], b[1..], rest);
      } else {
        var rest := Shift(idx, -1);
        assert idx[0] != 0;
        forall k | 0 <= k < |rest| ensures 0 <= rest[k] < |b[1..]| && b[1..][rest[k]] == a[k] {
          if k > 0 {
            assert idx[0] < idx[k];
          }
        }
        EmbedsIsSubseq(a, b[1..], rest);
      }
    }
  }

  /** Adding one element to the end of the longer sequence, or to the ends of both, keeps a subsequence. */
  lemma SubseqSnoc<T>(a: seq<T>, b: seq<T>, x: T)
    requires IsSubseq(a, b)
    ensures IsSubseq(a, b + [x]) && IsSubseq(a + [x], b + [x])
  {
    var idx := SubseqWitness(a, b);
    assert Embeds(a, b + [x], idx);
    EmbedsIsSubseq(a, b + [x], idx);
    var idx2 := idx + [|b|];
    assert Embeds(a + [x], b + [x], idx2);
    EmbedsIsSubseq(a + [x], b + [x], idx2);
  }

  /** The search relation: the lower-cased query occurs in order in the lower-cased name. */
  predicate Matches(query: string, name: string) {
    IsSubseq(Lower(query), Lower(name))
  }

  /** `fuzzy_match`: walks the name once, advancing through the query on every hit. */
  method FuzzyMatch(query: string, haystack: string) returns (m: bool)
    ensures m == Matches(query, haystack)
  {
    var q := Lower(query);
    var h := Lower(haystack);
    if |q| == 0 {
      return true;
    }
    var j := 0;
    for i := 0 to |h|
      invariant 0 <= j < |q|
      invariant IsSubseq(q, h) == IsSubseq(q[j..], h[i..])
    {
      assert q[j..][1..] == q[j + 1..];
      assert h[i..][1..] == h[i + 1..];
      if h[i] == q[j] {
        j := j + 1;
        if j == |q| {
          return true;
        }
      }
    }
    return false;
  }

  /** The empty query matches every name. */
  lemma EmptyQueryMatches(name: string)
    ensures Matches("", name)
  {
  }

  /** The search ignores letter case on both sides. */
  lemma MatchesIgnoresCase(q1: string, q2: string, h1: string, h2: string)
    requires Lower(q1) == Lower(q2) && Lower(h1) == Lower(h2)
    ensures Matches(q1, h1) == Matches(q2, h2)
  {
  }

  /** A query matches a name exactly when its lower-cased letters sit at increasing positions of the name. */
  lemma MatchesIff(query: string, name: string)
    ensures Matches(query, name) <==> exists idx :: Embeds(Lower(query), Lower(name), idx)
  {
    if Matches(query, name) {
      var idx := SubseqWitness(Lower(query), Lower(name));
      assert Embeds(Lower(query), Lower(name), idx);
    }
    if exists idx :: Embeds(Lower(query), Lower(name), idx) {
      var idx :| Embeds(Lower(query), Lower(name), idx);
      EmbedsIsSubseq(Lower(query), Lower(name), idx);
    }
  }

  // ----- the browser tree and collect_audio_files -----

  /** A browser tree item: its path, whether the path is a regular file, and its children. */
  datatype Node = Node(path: Path, isFile: bool, children: seq<Node>)

  predicate IsAudioNode(n: Node) {
    n.isFile && IsAudioFile(FileName(n.path))
  }

  /** All items in display order: each item, then its descendants, then its next sibling. */
  function Preorder(items: seq<Node>): seq<Node>
    decreases items
  {
    if items == [] then [] else PreorderNode(items[0]) + Preorder(items[1..])
  }

  function PreorderNode(n: Node): seq<Node>
    decreases n
  {
    [n] + Preorder(n.children)
  }

  lemma {:induction false} PreorderAppend(a: seq<Node>, b: seq<Node>)
    ensures Preorder(a + b) == Preorder(a) + Preorder(b)
  {
    if a == [] {
      assert a + b == b;
    } else {
      assert (a + b)[1..] == a[1..] + b;
      PreorderAppend(a[1..], b);
    }
  }

  /** The paths of the audio-file items, in order. */
  function AudioPaths(nodes: seq<Node>): (r: seq<Path>)
    ensures |r| <= |nodes|
  {
    if nodes == [] then []
    else OwnPath(nodes[0]) + AudioPaths(nodes[1..])
  }

  lemma {:induction false} AudioPathsAppend(a: seq<Node>, b: seq<Node>)
    ensures AudioPaths(a + b) == AudioPaths(a) + AudioPaths(b)
  {
    if a == [] {
      assert a + b == b;
    } else {
      assert (a + b)[0] == a[0] && (a + b)[1..] == a[1..] + b;
      AudioPathsAppend(a[1..], b);
    }
  }

  /** Everything collected names an audio file. */
  lemma {:induction false} AudioPathsAreAudio(nodes: seq<Node>)
    ensures forall p :: p in AudioPaths(nodes) ==> IsAudioFile(FileName(p))
  {
    if nodes != [] {
      AudioPathsAreAudio(nodes[1..]);
    }
  }

  /** The path an item contributes itself: its own, when it is an audio file. */
  function OwnPath(n: Node): seq<Path> {
    if IsAudioNode(n) then [n.path] else []
  }

  lemma PreorderSnoc(done: seq<Node>, item: Node)
    ensures Preorder(done + [item]) == Preorder(done) + ([item] + Preorder(item.children))
  {
    PreorderAppend(done, [item]);
    assert [item][1..] == [];
  }

  lemma AudioPathsCons(n: Node, rest: seq<Node>)
    ensures AudioPaths([n] + rest) == OwnPath(n) + AudioPaths(rest)
  {
    assert ([n] + rest)[1..] == rest;
  }

  /** Visiting one more item appends its own path, then the paths under it. */
  lemma WalkStep(acc: seq<Path>, items: seq<Node>, i: nat)
    requires i < |items|
    ensures acc + AudioPaths(Preorder(items[..i + 1]))
      == (acc + AudioPaths(Preorder(items[..i])) + OwnPath(items[i])) + AudioPaths(Preorder(items[i].children))
  {
    var item := items[i];
    assert items[..i + 1] == items[..i] + [item];
    PreorderSnoc(items[..i], item);
    AudioPathsAppend(Preorder(items[..i]), [item] + Preorder(item.children));
    AudioPathsCons(item, Preorder(item.children));
  }

  /** The recursive `walk`: appends the audio files under `items`, in display order, to `acc`. */
  method Walk(items: seq<Node>, acc: seq<Path>) returns (res: seq<Path>)
    ensures res == acc + AudioPaths(Preorder(items))
    decreases items
  {
    res := acc;
    for i := 0 to |items|
      invariant res == acc + AudioPaths(Preorder(items[..i]))
    {
      WalkStep(acc, items, i);
      res := Walk(items[i].children, res + OwnPath(items[i]));
    }
    assert items[..|items|] == items;
  }

  /** `collect_audio_files`. */
  method CollectAudioFiles(items: seq<Node>) returns (files: seq<Path>)
    ensures files == AudioPaths(Preorder(items))
  {
    files := Walk(items, []);
  }

  // ----- filter_files -----

  /** The paths whose file name matches the query, in their original order. */
  function KeepMatching(paths: seq<Path>, query: string): seq<Path> {
    if paths == [] then []
    else
      var last := paths[|paths| - 1];
      KeepMatching(paths[..|paths| - 1], query) + (if Matches(query, FileName(last)) then [last] else [])
  }

  /** Keeping the matches preserves the order of the paths. */
  lemma {:induction false} KeepMatchingOrdered(paths: seq<Path>, query: string)
    ensures IsSubseq(KeepMatching(paths, query), paths)
  {
    if paths != [] {
      var init := paths[..|paths| - 1];
      var last := paths[|paths| - 1];
      var kept := KeepMatching(init, query);
      KeepMatchingOrdered(init, query);
      SubseqSnoc(kept, init, last);
      assert init + [last] == paths;
      if Matches(query, FileName(last)) {
        assert KeepMatching(paths, query) == kept + [last];
      } else {
        assert KeepMatching(paths, query) == kept;
      }
    }
  }

  /** Keeping the matches keeps exactly the paths whose file name matches. */
  lemma {:induction false} KeepMatchingMembers(paths: seq<Path>, query: string)
    ensures forall p :: p in KeepMatching(paths, query) <==> p in paths && Matches(query, FileName(p))
  {
    if paths != [] {
      var init := paths[..|paths| - 1];
      var last := paths[|paths| - 1];
      KeepMatchingMembers(init, query);
      assert paths == init + [last];
      forall p ensures p in KeepMatching(paths, query) <==> p in paths && Matches(query, FileName(p)) {
        assert p in paths <==> p in init || p == last;
      }
    }
  }

  lemma {:induction false} KeepMatchingAll(paths: seq<Path>)
    ensures KeepMatching(paths, "") == paths
  {
    if paths != [] {
      var init := paths[..|paths| - 1];
      var last := paths[|paths| - 1];
      KeepMatchingAll(init);
      EmptyQueryMatches(FileName(last));
      assert KeepMatching(paths, "") == KeepMatching(init, "") + [last];
      assert init + [last] == paths;
    }
  }

  function Filtered(all: seq<Path>, query: string): seq<Path> {
    if query == [] then all else KeepMatching(all, query)
  }

  /** The early return for an empty query gives what filtering would have given. */
  lemma EmptyQueryShortcut(all: seq<Path>)
    ensures Filtered(all, "") == KeepMatching(all, "")
  {
    KeepMatchingAll(all);
  }

  /** `filter_files`: every collected file for an empty query, else those whose name fuzzy-matches. */
  method FilterFiles(items: seq<Node>, query: string) returns (r: seq<Path>)
    ensures r == Filtered(AudioPaths(Preorder(items)), query)
  {
    var all := CollectAudioFiles(items);
    if query == [] {
      return all;
    }
    r := [];
    for i := 0 to |all|
      invariant r == KeepMatching(all[..i], query)
    {
      var m := FuzzyMatch(query, FileName(all[i]));
      assert all[..i + 1][..i] == all[..i];
      if m {
        r := r + [all[i]];
      }
    }
    assert all[..|all|] == all;
  }

  // ----- scan_directory -----

  /** A directory entry as `read_dir` reports it; a directory carries its own entries. */
  datatype Entry = Entry(name: string, isDir: bool, entries: seq<Entry>)

  /** Byte-wise lexicographic order; on UTF-8 text this is the order of the code points. */
  predicate LexLe(a: string, b: string) {
    a == [] || (b != [] && (a[0] < b[0] || (a[0] == b[0] && LexLe(a[1..], b[1..]))))
  }

  lemma {:induction false} LexTotal(a: string, b: string)
    ensures LexLe(a, b) || LexLe(b, a)
  {
    if a != [] && b != [] && a[0] == b[0] {
      LexTotal(a[1..], b[1..]);
    }
  }

  lemma {:induction false} LexTrans(a: string, b: string, c: string)
    requires LexLe(a, b) && LexLe(b, c)
    ensures LexLe(a, c)
  {
    if a != [] && b != [] && c != [] && a[0] == b[0] && b[0] == c[0] {
      LexTrans(a[1..], b[1..], c[1..]);
    }
  }

  /** The comparator of the sort: directories first, then names compared after ASCII lower-casing. */
  predicate EntryLe(a: Entry, b: Entry) {
    (a.isDir && !b.isDir) || (a.isDir == b.isDir && LexLe(Lower(a.name), Lower(b.name)))
  }

  lemma EntryLeTotal(a: Entry, b: Entry)
    ensures EntryLe(a, b) || EntryLe(b, a)
  {
    LexTotal(Lower(a.name), Lower(b.name));
  }

  lemma EntryLeTrans(a: Entry, b: Entry, c: Entry)
    requires EntryLe(a, b) && EntryLe(b, c)
    ensures EntryLe(a, c)
  {
    if a.isDir == b.isDir && b.isDir == c.isDir {
      LexTrans(Lower(a.name), Lower(b.name), Lower(c.name));
    }
  }

  predicate SortedEntries(s: seq<Entry>) {
    forall i, j :: 0 <= i < j < |s| ==> EntryLe(s[i], s[j])
  }

  function Insert(e: Entry, s: seq<Entry>): seq<Entry> {
    if s == [] || EntryLe(e, s[0]) then [e] + s else [s[0]] + Insert(e, s[1..])
  }

  lemma {:induction false} InsertMultiset(e: Entry, s: seq<Entry>)
    ensures multiset(Insert(e, s)) == multiset(s) + multiset{e}
  {
    if s != [] && !EntryLe(e, s[0]) {
      InsertMultiset(e, s[1..]);
      assert s == [s[0]] + s[1..];
    }
  }

  lemma SortedTail(s: seq<Entry>)
    requires SortedEntries(s) && s != []
    ensures SortedEntries(s[1..])
  {
    forall i, j | 0 <= i < j < |s[1..]| ensures EntryLe(s[1..][i], s[1..][j]) {
      assert s[1..][i] == s[i + 1] && s[1..][j] == s[j + 1];
    }
  }

  /** A lower bound of `e` and of every element of `s` bounds every element of `Insert(e, s)`. */
  lemma {:induction false} InsertAbove(x: Entry, e: Entry, s: seq<Entry>)
    requires EntryLe(x, e) && forall k :: 0 <= k < |s| ==> EntryLe(x, s[k])
    ensures forall k :: 0 <= k < |Insert(e, s)| ==> EntryLe(x, Insert(e, s)[k])
  {
    if s != [] && !EntryLe(e, s[0]) {
      forall k | 0 <= k < |s[1..]| ensures EntryLe(x, s[1..][k]) {
        assert s[1..][k] == s[k + 1];
      }
      InsertAbove(x, e, s[1..]);
    }
  }

  lemma InsertSortedFront(e: Entry, s: seq<Entry>)
    requires SortedEntries(s) && s != [] && EntryLe(e, s[0])
    ensures SortedEntries([e] + s)
  {
    forall i, j | 0 <= i < j < |[e] + s| ensures EntryLe(([e] + s)[i], ([e] + s)[j]) {
      if i == 0 && j > 1 {
        EntryLeTrans(e, s[0], s[j - 1]);
      } else if i > 0 {
        assert ([e] + s)[i] == s[i - 1] && ([e] + s)[j] == s[j - 1];
      }
    }
  }

  lemma ConsSorted(x: Entry, rest: seq<Entry>)
    requires SortedEntries(rest) && forall k :: 0 <= k < |rest| ==> EntryLe(x, rest[k])
    ensures SortedEntries([x] + rest)
  {
    var r := [x] + rest;
    forall i, j | 0 <= i < j < |r| ensures EntryLe(r[i], r[j]) {
      if i > 0 {
        assert r[i] == rest[i - 1];
      }
      assert r[j] == rest[j - 1];
    }
  }

  lemma {:induction false} InsertSorted(e: Entry, s: seq<Entry>)
    requires SortedEntries(s)
    ensures SortedEntries(Insert(e, s))
  {
    if s == [] {
    } else if EntryLe(e, s[0]) {
      InsertSortedFront(e, s);
    } else {
      SortedTail(s);
      InsertSorted(e, s[1..]);
      EntryLeTotal(e, s[0]);
      forall k | 0 <= k < |s[1..]| ensures EntryLe(s[0], s[1..][k]) {
        assert s[1..][k] == s[k + 1];
      }
      InsertAbove(s[0], e, s[1..]);
      ConsSorted(s[0], Insert(e, s[1..]));
    }
  }

  /** The sort of `scan_directory`, as an insertion sort. */
  function SortEntries(s: seq<Entry>): seq<Entry> {
    if s == [] then [] else Insert(s[0], SortEntries(s[1..]))
  }

  /** The sorted entries are in comparator order and are the same entries. */
  lemma {:induction false} SortEntriesSpec(s: seq<Entry>)
    ensures SortedEntries(SortEntries(s))
    ensures multiset(SortEntries(s)) == multiset(s)
  {
    if s != [] {
      SortEntriesSpec(s[1..]);
      InsertSorted(s[0], SortEntries(s[1..]));
      InsertMultiset(s[0], SortEntries(s[1..]));
      assert s == [s[0]] + s[1..];
    }
  }

  function EntrySize(e: Entry): (n: nat)
    ensures n >= 1
    decreases e
  {
    1 + EntriesSize(e.entries)
  }

  function EntriesSize(s: seq<Entry>): nat
    decreases s
  {
    if s == [] then 0 else EntrySize(s[0]) + EntriesSize(s[1..])
  }

  lemma {:induction false} InsertSize(e: Entry, s: seq<Entry>)
    ensures EntriesSize(Insert(e, s)) == EntrySize(e) + EntriesSize(s)
  {
    if s != [] && !EntryLe(e, s[0]) {
      InsertSize(e, s[1..]);
      assert ([s[0]] + Insert(e, s[1..]))[1..] == Insert(e, s[1..]);
    } else if s != [] {
      assert ([e] + s)[1..] == s;
    }
  }

  lemma {:induction false} SortSize(s: seq<Entry>)
    ensures EntriesSize(SortEntries(s)) == EntriesSize(s)
  {
    if s != [] {
      SortSize(s[1..]);
      InsertSize(s[0], SortEntries(s[1..]));
    }
  }

  /** `scan_directory`: sorts the entries, then keeps non-empty directories and audio files. */
  function ScanDirectory(dir: seq<Entry>, path: Path): seq<Node>
    decreases EntriesSize(dir), 1
  {
    SortSize(dir);
    BuildItems(SortEntries(dir), path)
  }

  function BuildItems(entries: seq<Entry>, path: Path): seq<Node>
    decreases EntriesSize(entries), 0
  {
    if entries == [] then []
    else
      var e := entries[0];
      var p := path + [e.name];
      assert EntriesSize(entries) == 1 + EntriesSize(e.entries) + EntriesSize(entries[1..]);
      var item :=
        if e.isDir then
          var children := ScanDirectory(e.entries, p);
          if children != [] then [Node(p, false, children)] else []
        else if IsAudioFile(e.name) then [Node(p, true, [])]
        else [];
      item + BuildItems(entries[1..], path)
  }

  /** The order of the tree's items: directories before files, then names after ASCII lower-casing. */
  predicate ItemLe(a: Node, b: Node) {
    (!a.isFile && b.isFile) || (a.isFile == b.isFile && LexLe(Lower(FileName(a.path)), Lower(FileName(b.path))))
  }

  predicate SortedItems(s: seq<Node>) {
    forall i, j :: 0 <= i < j < |s| ==> ItemLe(s[i], s[j])
  }

  /** The tree shape `scan_directory` builds: audio-file leaves, and directories with at least one child. */
  predicate WellFormed(n: Node)
    decreases n
  {
    if n.isFile then n.children == [] && IsAudioFile(FileName(n.path))
    else n.children != [] && forall k :: 0 <= k < |n.children| ==> WellFormed(n.children[k])
  }

  /** The items one entry contributes: itself when it is a non-empty directory or an audio file. */
  function ItemsFor(e: Entry, path: Path): seq<Node> {
    var p := path + [e.name];
    if e.isDir then
      var children := ScanDirectory(e.entries, p);
      if children != [] then [Node(p, false, children)] else []
    else if IsAudioFile(e.name) then [Node(p, true, [])]
    else []
  }

  lemma BuildItemsCons(entries: seq<Entry>, path: Path)
    requires entries != []
    ensures BuildItems(entries, path) == ItemsFor(entries[0], path) + BuildItems(entries[1..], path)
  {
  }

  /** An item stands for an entry: same name and the same kind. */
  predicate Mirrors(n: Node, e: Entry) {
    FileName(n.path) == e.name && n.isFile == !e.isDir
  }

  /** An item stands for one of the entries. */
  predicate MirrorsSome(n: Node, entries: seq<Entry>) {
    exists j :: 0 <= j < |entries| && Mirrors(n, entries[j])
  }

  /** An entry contributes at most one item, well formed and standing for the entry. */
  lemma ItemsForSpec(e: Entry, path: Path)
    ensures |ItemsFor(e, path)| <= 1
    ensures forall k :: 0 <= k < |ItemsFor(e, path)| ==> WellFormed(ItemsFor(e, path)[k]) && Mirrors(ItemsFor(e, path)[k], e)
    decreases EntrySize(e), 2
  {
    if e.isDir {
      ScanDirectorySpec(e.entries, path + [e.name]);
    }
  }

  /** Every item built from entries sorted by the comparator inherits that order, and is well formed. */
  lemma {:induction false} BuildItemsSpec(entries: seq<Entry>, path: Path)
    requires SortedEntries(entries)
    ensures SortedItems(BuildItems(entries, path))
    ensures forall k :: 0 <= k < |BuildItems(entries, path)| ==> WellFormed(BuildItems(entries, path)[k])
    ensures forall k :: 0 <= k < |BuildItems(entries, path)| ==> MirrorsSome(BuildItems(entries, path)[k], entries)
    decreases EntriesSize(entries), 3
  {
    if entries != [] {
      assert EntriesSize(entries) == EntrySize(entries[0]) + EntriesSize(entries[1..]);
      SortedTail(entries);
      BuildItemsSpec(entries[1..], path);
      ItemsForSpec(entries[0], path);
      BuildItemsCons(entries, path);
      ConsItemsSpec(entries, ItemsFor(entries[0], path), BuildItems(entries[1..], path));
    }
  }

  /** The first entry's items, put before the items of the others, keep the order and the links to entries. */
  lemma ConsItemsSpec(entries: seq<Entry>, head: seq<Node>, rest: seq<Node>)
    requires SortedEntries(entries) && entries != []
    requires |head| <= 1 && forall k :: 0 <= k < |head| ==> WellFormed(head[k]) && Mirrors(head[k], entries[0])
    requires SortedItems(rest) && forall k :: 0 <= k < |rest| ==> WellFormed(rest[k])
    requires forall k :: 0 <= k < |rest| ==> MirrorsSome(rest[k], entries[1..])
    ensures SortedItems(head + rest)
    ensures forall k :: 0 <= k < |head + rest| ==> WellFormed((head + rest)[k])
    ensures forall k :: 0 <= k < |head + rest| ==> MirrorsSome((head + rest)[k], entries)
  {
    MirrorsTail(entries, rest);
    if head == [] {
      assert head + rest == rest;
    } else {
      var item := head[0];
      assert head + rest == [item] + rest;
      HeadBeforeRest(entries, rest, item);
      forall k | 0 <= k < |head + rest| ensures MirrorsSome((head + rest)[k], entries) {
        if k == 0 {
          assert Mirrors((head + rest)[k], entries[0]);
        } else {
          assert (head + rest)[k] == rest[k - 1];
        }
      }
      forall k | 0 <= k < |head + rest| ensures WellFormed((head + rest)[k]) {
        if k > 0 {
          assert (head + rest)[k] == rest[k - 1];
        }
      }
    }
  }

  lemma MirrorsTail(entries: seq<Entry>, rest: seq<Node>)
    requires entries != []
    requires forall k :: 0 <= k < |rest| ==> MirrorsSome(rest[k], entries[1..])
    ensures forall k :: 0 <= k < |rest| ==> MirrorsSome(rest[k], entries)
  {
    forall k | 0 <= k < |rest| ensures MirrorsSome(rest[k], entries) {
      var j :| 0 <= j < |entries[1..]| && Mirrors(rest[k], entries[1..][j]);
      assert Mirrors(rest[k], entries[j + 1]);
    }
  }

  /** Items standing for two entries are ordered as the entries are. */
  lemma MirrorsLe(a: Node, b: Node, ea: Entry, eb: Entry)
    requires Mirrors(a, ea) && Mirrors(b, eb) && EntryLe(ea, eb)
    ensures ItemLe(a, b)
  {
  }

  lemma HeadBeforeRest(entries: seq<Entry>, rest: seq<Node>, item: Node)
    requires SortedEntries(entries) && entries != []
    requires Mirrors(item, entries[0])
    requires SortedItems(rest)
    requires forall k :: 0 <= k < |rest| ==> MirrorsSome(rest[k], entries[1..])
    ensures SortedItems([item] + rest)
  {
    var s := [item] + rest;
    forall i, j | 0 <= i < j < |s| ensures ItemLe(s[i], s[j]) {
      assert s[j] == rest[j - 1];
      if i == 0 {
        HeadBeforeItem(entries, rest[j - 1], item);
      } else {
        assert s[i] == rest[i - 1];
      }
    }
  }

  /** The head's item sorts before any item standing for a later entry. */
  lemma HeadBeforeItem(entries: seq<Entry>, other: Node, item: Node)
    requires SortedEntries(entries) && entries != []
    requires Mirrors(item, entries[0]) && MirrorsSome(other, entries[1..])
    ensures ItemLe(item, other)
  {
    var m :| 0 <= m < |entries[1..]| && Mirrors(other, entries[1..][m]);
    var later := entries[m + 1];
    assert entries[1..][m] == later;
    assert EntryLe(entries[0], later);
    MirrorsLe(item, other, entries[0], later);
  }

  /** Every item an entry contributes is among the items built from a list holding that entry. */
  lemma {:induction false} BuildItemsHas(entries: seq<Entry>, path: Path, e: Entry)
    requires e in entries
    ensures forall n :: n in ItemsFor(e, path) ==> n in BuildItems(entries, path)
    decreases |entries|
  {
    BuildItemsCons(entries, path);
    if entries[0] != e {
      BuildItemsHas(entries[1..], path, e);
    }
  }

  /** Nothing is dropped: every audio file is listed, and so is every directory whose own scan is not empty. */
  lemma ScanDirectoryComplete(dir: seq<Entry>, path: Path, e: Entry)
    requires e in dir
    ensures !e.isDir && IsAudioFile(e.name) ==> Node(path + [e.name], true, []) in ScanDirectory(dir, path)
    ensures e.isDir && ScanDirectory(e.entries, path + [e.name]) != [] ==>
      Node(path + [e.name], false, ScanDirectory(e.entries, path + [e.name])) in ScanDirectory(dir, path)
  {
    var p := path + [e.name];
    var sorted := SortEntries(dir);
    SortEntriesSpec(dir);
    assert e in multiset(sorted);
    BuildItemsHas(sorted, path, e);
    assert ScanDirectory(dir, path) == BuildItems(sorted, path);
    if !e.isDir && IsAudioFile(e.name) {
      assert ItemsFor(e, path) == [Node(p, true, [])];
    }
    if e.isDir && ScanDirectory(e.entries, p) != [] {
      assert ItemsFor(e, path) == [Node(p, false, ScanDirectory(e.entries, p))];
    }
  }

  /** Directories come before files, names are in case-insensitive order, and no directory is empty. */
  lemma ScanDirectorySpec(dir: seq<Entry>, path: Path)
    ensures SortedItems(ScanDirectory(dir, path))
    ensures forall k :: 0 <= k < |ScanDirectory(dir, path)| ==> WellFormed(ScanDirectory(dir, path)[k])
    decreases EntriesSize(dir), 4
  {
    SortSize(dir);
    SortEntriesSpec(dir);
    BuildItemsSpec(SortEntries(dir), path);
  }

  // ----- popup_area -----

  /** One side of the popup with the product computed exactly: 80% of the side, at least `floor`, at most the side. */
  function PopupSide(side: nat, floor: nat): (r: nat)
    ensures r <= side
    ensures r >= Min(floor, side)
    ensures side * 80 / 100 >= floor ==> r == side * 80 / 100
  {
    Min(Max(side * 80 / 100, floor), side)
  }

  /** `popup_area`: an 80% popup, at least 40 by 10 when the frame allows, centred in the frame. */
  function PopupArea(width: nat, height: nat): (r: Rect)
    ensures r.width <= width && r.height <= height
    ensures r.x + r.width <= width && r.y + r.height <= height
    ensures r.x == (width - r.width) / 2 && r.y == (height - r.height) / 2
    ensures r.width >= Min(40, width) && r.height >= Min(10, height)
  {
    var w := PopupSide(width, 40);
    var h := PopupSide(height, 10);
    Rect(SatSub(width, w) / 2, SatSub(height, h) / 2, w, h)
  }

  /** The `u16` product as the code computes it when overflow checks are off: modulo 2^16. */
  function PopupSideAsWritten(side: nat, floor: nat): (r: nat)
    requires side < 0x1_0000
    ensures r <= side
  {
    Min(Max((side * 80) % 0x1_0000 / 100, floor), side)
  }

  /** Up to 819 columns the product fits in 16 bits and both agree. */
  lemma PopupSideAgrees(side: nat, floor: nat)
    requires side <= 819
    ensures PopupSideAsWritten(side, floor) == PopupSide(side, floor)
  {
    var product := side * 80;
    assert product <= 65520 < 0x1_0000;
    assert product % 0x1_0000 == product;
  }

  /** At 820 columns the product wraps to 64, and the popup shrinks to 40 columns instead of 656. */
  lemma PopupSideWraps()
    ensures PopupSideAsWritten(820, 40) == 40
    ensures PopupSide(820, 40) == 656
  {
  }
}
