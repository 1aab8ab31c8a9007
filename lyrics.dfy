/**
 * The text-processing core of the lyrics panel (src/lyrics.rs): the percent-encoder used to build
 * lyric-service URLs, the character-level HTML-to-text state machine with its entity decoder,
 * and the scroll clamp applied every time the expanded panel is drawn.
 */
module Lyrics {
  import opened Wrappers
  import opened Text
  import opened Numeric

  // ----- url_encode -----

  /** The bytes `url_encode` copies unchanged: ASCII letters, digits, '-', '_', '.' and '~'. */
  predicate Unreserved(b: Byte) {
    (65 <= b <= 90) || (97 <= b <= 122) || (48 <= b <= 57) || b == 45 || b == 95 || b == 46 || b == 126
  }

  /** An upper-case hexadecimal digit, as `{:02X}` prints it. */
  function HexDigit(d: nat): (c: char)
    requires d < 16
    ensures ToDigit(c, 16) == Some(d)
    ensures '0' <= c <= '9' || 'A' <= c <= 'F'
  {
    if d < 10 then DigitChar(d) else ('A' as int + d - 10) as char
  }

  /** What one input byte becomes. */
  function EncodeByte(b: Byte): string {
    if Unreserved(b) then [b as int as char]
    else if b == 32 then "%20"
    else ['%', HexDigit(b as int / 16), HexDigit(b as int % 16)]
  }

  /** The percent-encoding of a byte string (the UTF-8 bytes of the text). */
  function Encoded(bs: seq<Byte>): string {
    if bs == [] then "" else EncodeByte(bs[0]) + Encoded(bs[1..])
  }

  lemma {:induction false} EncodedSnoc(bs: seq<Byte>, b: Byte)
    ensures Encoded(bs + [b]) == Encoded(bs) + EncodeByte(b)
  {
    if bs == [] {
      assert bs + [b] == [b];
      assert Encoded([b]) == EncodeByte(b) + Encoded([]);
    } else {
      assert (bs + [b])[1..] == bs[1..] + [b];
      EncodedSnoc(bs[1..], b);
    }
  }

  /** `url_encode`: walks the bytes and appends each byte's encoding. */
  method UrlEncode(bytes: seq<Byte>) returns (out: string)
    ensures out == Encoded(bytes)
  {
    out := "";
    for i := 0 to |bytes|
      invariant out == Encoded(bytes[..i])
    {
      var b := bytes[i];
      if Unreserved(b) {
        out := out + [b as int as char];
      } else if b == 32 {
        out := out + "%20";
      } else {
        out := out + ['%', HexDigit(b as int / 16), HexDigit(b as int % 16)];
      }
      assert bytes[..i + 1] == bytes[..i] + [b];
      EncodedSnoc(bytes[..i], b);
    }
    assert bytes[..|bytes|] == bytes;
  }

  /** The number of bytes that are not copied unchanged. */
  function EscapedCount(bs: seq<Byte>): (n: nat)
    ensures n <= |bs|
  {
    if bs == [] then 0 else (if Unreserved(bs[0]) then 0 else 1) + EscapedCount(bs[1..])
  }

  /** Each unreserved byte costs one character and every other byte three. */
  lemma {:induction false} EncodedLength(bs: seq<Byte>)
    ensures |Encoded(bs)| == |bs| + 2 * EscapedCount(bs)
  {
    if bs != [] {
      EncodedLength(bs[1..]);
    }
  }

  /** The characters a URL path segment may hold without further escaping. */
  predicate UrlSafe(c: char) {
    ('A' <= c <= 'Z') || ('a' <= c <= 'z') || ('0' <= c <= '9') || c == '-' || c == '_' || c == '.' || c == '~' || c == '%'
  }

  lemma {:induction false} EncodedUrlSafe(bs: seq<Byte>)
    ensures forall i :: 0 <= i < |Encoded(bs)| ==> UrlSafe(Encoded(bs)[i])
  {
    if bs != [] {
      EncodedUrlSafe(bs[1..]);
      var head := EncodeByte(bs[0]);
      assert forall i :: 0 <= i < |head| ==> UrlSafe(head[i]);
    }
  }

  /** Percent-decoding: the inverse the encoder is checked against. */
  function UrlDecode(s: string): Option<seq<Byte>> {
    if s == [] then Some([])
    else if s[0] == '%' then
      if |s| >= 3 && ToDigit(s[1], 16).Some? && ToDigit(s[2], 16).Some? then
        match UrlDecode(s[3..])
        case Some(rest) => Some([(ToDigit(s[1], 16).value * 16 + ToDigit(s[2], 16).value) as Byte] + rest)
        case None => None
      else None
    else if s[0] as int < 256 && Unreserved(s[0] as int as Byte) then
      match UrlDecode(s[1..])
      case Some(rest) => Some([s[0] as int as Byte] + rest)
      case None => None
    else None
  }

  /** Decoding an encoded byte string gives the bytes back, so distinct inputs never share a URL. */
  lemma {:induction false} UrlDecodeEncoded(bs: seq<Byte>)
    ensures UrlDecode(Encoded(bs)) == Some(bs)
  {
    if bs != [] {
      var b := bs[0];
      var head := EncodeByte(b);
      var s := Encoded(bs);
      UrlDecodeEncoded(bs[1..]);
      assert s == head + Encoded(bs[1..]);
      if Unreserved(b) {
        assert s[1..] == Encoded(bs[1..]);
      } else {
        assert s[3..] == Encoded(bs[1..]);
        assert (b as int / 16) * 16 + b as int % 16 == b as int;
      }
      assert [b] + bs[1..] == bs;
    }
  }

  // ----- decode_entity -----

  /** The entities `decode_entity` knows by name, and what each stands for. */
  function NamedEntity(e: string): Option<string> {
    if e == "&amp;" then Some("&")
    else if e == "&lt;" then Some("<")
    else if e == "&gt;" then Some(">")
    else if e == "&quot;" then Some("\"")
    else if e == "&apos;" || e == "&#x27;" then Some("'")
    else if e == "&nbsp;" then Some(" ")
    else None
  }

  /** `char::from_u32`: the Unicode scalar values, which exclude the surrogates. */
  function ScalarChar(n: nat): (c: Option<char>)
    ensures c.Some? ==> c.value as int == n
    ensures c.Some? <==> (n < 0xD800 || (0xE000 <= n < 0x11_0000))
  {
    if n < 0xD800 || (0xE000 <= n < 0x11_0000) then Some(n as char) else None
  }

  /** The one-character string for a parsed code point, or the entity text when there is none. */
  function CharOrVerbatim(n: Option<nat>, e: string): string {
    if n.Some? && ScalarChar(n.value).Some? then [ScalarChar(n.value).value] else e
  }

  /** The code point of an entity body: hexadecimal after 'x' or 'X', decimal otherwise. */
  function NumericBody(inner: string, decimal: bool): Option<nat> {
    if inner != [] && (inner[0] == 'x' || inner[0] == 'X') then ParseUnsigned(inner[1..], 16, U32_BOUND)
    else if decimal then ParseUnsigned(inner, 10, U32_BOUND)
    else None
  }

  /**
   * The byte range `2..len-1` of an entity that starts with '&' and ends with ';' (both one byte
   * long) lies within the text and on character boundaries exactly when the entity has at least
   * three characters and its second character is one byte long.
   */
  predicate SliceInBounds(e: string) {
    |e| >= 3 && Utf8Len(e[1]) == 1
  }

  /**
   * `decode_entity` as written: named entities, then the text between the first two bytes and the
   * final ';' read as hexadecimal when it starts with 'x' or 'X' (whatever precedes it), or as
   * decimal when the entity starts with "&#"; anything else is kept verbatim. Rust panics on the
   * slice when it is out of bounds, hence the precondition.
   */
  function DecodeEntityAsWritten(e: string): (r: string)
    requires |e| >= 2 && e[0] == '&' && e[|e| - 1] == ';'
    requires NamedEntity(e).Some? || SliceInBounds(e)
    ensures NamedEntity(e).Some? ==> r == NamedEntity(e).value
    ensures |r| == 1 || r == e
  {
    if NamedEntity(e).Some? then NamedEntity(e).value
    else CharOrVerbatim(NumericBody(e[2..|e| - 1], e[..2] == "&#"), e)
  }

  /**
   * The entity decoder the rest of the model uses: as written, except that a numeric entity must
   * start with "&#", which also means the slice is never taken on text too short for it.
   */
  function DecodeEntity(e: string): (r: string)
    ensures NamedEntity(e).Some? ==> r == NamedEntity(e).value
    ensures r != e ==> NamedEntity(e).Some? || (|e| >= 3 && e[..2] == "&#")
    ensures |r| == 1 || r == e
  {
    if NamedEntity(e).Some? then NamedEntity(e).value
    else if |e| >= 3 && e[..2] == "&#" then CharOrVerbatim(NumericBody(e[2..|e| - 1], true), e)
    else e
  }

  /** Wherever the original decoder is defined and the entity is named or starts with "&#", the two agree. */
  lemma DecodeEntityAgrees(e: string)
    requires |e| >= 2 && e[0] == '&' && e[|e| - 1] == ';'
    requires NamedEntity(e).Some? || SliceInBounds(e)
    requires NamedEntity(e).Some? || e[1] == '#'
    ensures DecodeEntity(e) == DecodeEntityAsWritten(e)
  {
    if NamedEntity(e).None? {
      assert e[..2] == "&#";
    }
  }

  /** None of the named entities has a digit as its third character. */
  lemma DigitNotNamed(e: string)
    requires |e| >= 3 && IsDigit(e[2])
    ensures NamedEntity(e).None?
  {
  }

  /** The decimal text of a code point below 2^32 reads back as that code point. */
  lemma DecimalBody(n: nat)
    requires n < U32_BOUND
    ensures NumericBody(NatToString(n), true) == Some(n)
  {
    var digits := NatToString(n);
    assert IsDigit(digits[0]);
    DigitsValueNatToString(n);
    assert ParseUnsigned(digits, 10, U32_BOUND) == Some(n);
  }

  /** A decimal reference to a Unicode scalar value decodes to that character. */
  lemma DecimalEntity(n: nat)
    requires ScalarChar(n).Some?
    ensures DecodeEntity("&#" + NatToString(n) + ";") == [n as char]
  {
    var digits := NatToString(n);
    var e := "&#" + digits + ";";
    assert e[..2] == "&#";
    assert e[2..|e| - 1] == digits;
    assert e[2] == digits[0] && IsDigit(digits[0]);
    DigitNotNamed(e);
    DecimalBody(n);
  }

  /** A hexadecimal reference whose digits parse to a scalar value decodes to that character. */
  lemma HexEntity(x: char, hex: string, n: nat)
    requires x == 'x' || x == 'X'
    requires ParseUnsigned(hex, 16, U32_BOUND) == Some(n) && ScalarChar(n).Some?
    ensures DecodeEntity("&#" + [x] + hex + ";") == [n as char]
  {
    var body := [x] + hex;
    var e := "&#" + [x] + hex + ";";
    assert e[..2] == "&#" && e[1] == '#';
    assert e[2..|e| - 1] == body;
    assert body[1..] == hex;
    assert NumericBody(body, true) == Some(n);
    if e == "&#x27;" {
      assert |hex| == 2 && hex[0] == e[3] && hex[1] == e[4];
      assert hex == "27";
      AposHexDigits(hex, n);
      assert DecodeEntity(e) == NamedEntity(e).value == "'";
      assert [n as char] == "'";
    } else {
      NumericNotNamed(e);
      assert DecodeEntity(e) == CharOrVerbatim(NumericBody(body, true), e);
      assert ScalarChar(n).value == n as char;
    }
  }

  /** The one named entity that is also a hexadecimal reference, "&#x27;", names the character 0x27. */
  lemma AposHexDigits(hex: string, n: nat)
    requires hex == "27" && ParseUnsigned(hex, 16, U32_BOUND) == Some(n)
    ensures n == 0x27
  {
    assert DigitsValue("2", 16) == Some(2) by { assert "2"[..0] == []; }
    assert ParseUnsigned(hex, 16, U32_BOUND) == Some(0x27) by { assert hex[..1] == "2"; }
  }

  /** Apart from "&#x27;", no named entity starts with "&#". */
  lemma NumericNotNamed(e: string)
    requires |e| >= 2 && e[1] == '#' && e != "&#x27;"
    ensures NamedEntity(e).None?
  {
    assert "&amp;"[1] != '#' && "&lt;"[1] != '#' && "&gt;"[1] != '#';
    assert "&quot;"[1] != '#' && "&apos;"[1] != '#' && "&nbsp;"[1] != '#';
  }

  /** A numeric reference that does not parse, or names no character, is kept verbatim. */
  lemma BadNumericEntityVerbatim(inner: string)
    requires NamedEntity("&#" + inner + ";").None?
    requires NumericBody(inner, true).None? || ScalarChar(NumericBody(inner, true).value).None?
    ensures DecodeEntity("&#" + inner + ";") == "&#" + inner + ";"
  {
    var e := "&#" + inner + ";";
    assert e[..2] == "&#";
    assert e[2..|e| - 1] == inner;
  }

  // ----- html_to_text -----

  /** The loop state of `html_to_text`: the output so far and the tag and entity buffers. */
  datatype Scan = Scan(out: string, inTag: bool, tagBuf: string, inEntity: bool, entityBuf: string)

  const Start := Scan("", false, "", false, "")

  /** Between tags and entities, with both buffers empty. */
  predicate Idle(st: Scan) {
    !st.inTag && !st.inEntity && st.tagBuf == "" && st.entityBuf == ""
  }

  /** A tag whose lower-cased text starts with "<br" is a line break. */
  predicate IsBrTag(tag: string) {
    |tag| >= 3 && Lower(tag)[..3] == "<br"
  }

  /** One iteration of the character loop. */
  function Step(st: Scan, ch: char): Scan {
    if st.inEntity then
      var buf := st.entityBuf + [ch];
      if ch == ';' then st.(out := st.out + DecodeEntity(buf), inEntity := false, entityBuf := "")
      else if ByteLen(buf) > 10 then st.(out := st.out + buf, inEntity := false, entityBuf := "")
      else st.(entityBuf := buf)
    else if st.inTag then
      var buf := st.tagBuf + [ch];
      if ch == '>' then st.(out := st.out + (if IsBrTag(buf) then "\n" else ""), inTag := false, tagBuf := "")
      else st.(tagBuf := buf)
    else if ch == '<' then st.(inTag := true, tagBuf := "<")
    else if ch == '&' then st.(inEntity := true, entityBuf := "&")
    else st.(out := st.out + [ch])
  }

  function Run(st: Scan, s: string): Scan {
    if s == [] then st else Step(Run(st, s[..|s| - 1]), s[|s| - 1])
  }

  /** After the last character an unfinished entity, then an unfinished tag, is appended as it is. */
  function Finish(st: Scan): string {
    st.out + (if st.inEntity then st.entityBuf else "") + (if st.inTag then st.tagBuf else "")
  }

  function HtmlText(html: string): string {
    Finish(Run(Start, html))
  }

  /** `html_to_text`: the character loop over the two flags and the two buffers. */
  method HtmlToText(html: string) returns (out: string)
    ensures out == HtmlText(html)
  {
    out := "";
    var inTag := false;
    var tagBuf := "";
    var entityBuf := "";
    var inEntity := false;
    for i := 0 to |html|
      invariant Scan(out, inTag, tagBuf, inEntity, entityBuf) == Run(Start, html[..i])
    {
      var ch := html[i];
      assert html[..i + 1][..i] == html[..i];
      if inEntity {
        entityBuf := entityBuf + [ch];
        if ch == ';' {
          out := out + DecodeEntity(entityBuf);
          entityBuf := "";
          inEntity := false;
        } else if ByteLen(entityBuf) > 10 {
          out := out + entityBuf;
          entityBuf := "";
          inEntity := false;
        }
      } else if inTag {
        tagBuf := tagBuf + [ch];
        if ch == '>' {
          if IsBrTag(tagBuf) {
            out := out + "\n";
          }
          tagBuf := "";
          inTag := false;
        }
      } else if ch == '<' {
        inTag := true;
        tagBuf := "<";
      } else if ch == '&' {
        inEntity := true;
        entityBuf := "&";
      } else {
        out := out + [ch];
      }
    }
    if inEntity {
      out := out + entityBuf;
    }
    if inTag {
      out := out + tagBuf;
    }
    assert html[..|html|] == html;
  }

  lemma {:induction false} RunAppend(st: Scan, a: string, b: string)
    ensures Run(st, a + b) == Run(Run(st, a), b)
  {
    if b != [] {
      assert (a + b)[..|a + b| - 1] == a + b[..|b| - 1];
      RunAppend(st, a, b[..|b| - 1]);
    } else {
      assert a + b == a;
    }
  }

  /** Text without '<' or '&' is copied through. */
  lemma {:induction false} RunPlain(st: Scan, s: string)
    requires Idle(st)
    requires '<' !in s && '&' !in s
    ensures Run(st, s) == st.(out := st.out + s)
  {
    if s != [] {
      var init := s[..|s| - 1];
      assert '<' !in init && '&' !in init by {
        assert forall k :: 0 <= k < |init| ==> init[k] == s[k];
      }
      RunPlain(st, init);
      assert init + [s[|s| - 1]] == s;
    }
  }

  lemma PlainTextUnchanged(html: string)
    requires '<' !in html && '&' !in html
    ensures HtmlText(html) == html
  {
    RunPlain(Start, html);
  }

  lemma {:induction false} RunTagBody(st: Scan, body: string)
    requires Idle(st)
    requires '>' !in body
    ensures Run(st, "<" + body) == st.(inTag := true, tagBuf := "<" + body)
  {
    if body == [] {
      assert Run(st, "<") == Step(Run(st, []), '<') by { assert "<"[..0] == []; }
    } else {
      var init := body[..|body| - 1];
      assert '>' !in init by {
        assert forall k :: 0 <= k < |init| ==> init[k] == body[k];
      }
      RunTagBody(st, init);
      assert ("<" + body)[..|"<" + body| - 1] == "<" + init;
      assert "<" + init + [body[|body| - 1]] == "<" + body;
    }
  }

  /** A whole tag is dropped; a `<br` tag in any letter case leaves exactly one line break. */
  lemma TagRemoved(st: Scan, body: string)
    requires Idle(st)
    requires '>' !in body
    ensures Run(st, "<" + body + ">") == st.(out := st.out + (if IsBrTag("<" + body + ">") then "\n" else ""))
  {
    RunTagBody(st, body);
    var tag := "<" + body + ">";
    assert tag[..|tag| - 1] == "<" + body;
  }

  lemma {:induction false} RunEntityBody(st: Scan, body: string)
    requires Idle(st)
    requires ';' !in body
    requires ByteLen("&" + body) <= 10
    ensures Run(st, "&" + body) == st.(inEntity := true, entityBuf := "&" + body)
  {
    if body == [] {
      assert Run(st, "&") == Step(Run(st, []), '&') by { assert "&"[..0] == []; }
    } else {
      var init := body[..|body| - 1];
      assert ';' !in init by {
        assert forall k :: 0 <= k < |init| ==> init[k] == body[k];
      }
      assert ("&" + body)[..|"&" + body| - 1] == "&" + init;
      RunEntityBody(st, init);
      assert "&" + init + [body[|body| - 1]] == "&" + body;
    }
  }

  /** A complete entity of at most ten bytes before its ';' is replaced by its decoding. */
  lemma EntityDecoded(st: Scan, body: string)
    requires Idle(st)
    requires ';' !in body
    requires ByteLen("&" + body) <= 10
    ensures Run(st, "&" + body + ";") == st.(out := st.out + DecodeEntity("&" + body + ";"))
  {
    RunEntityBody(st, body);
    assert ("&" + body + ";")[..|"&" + body + ";"| - 1] == "&" + body;
  }

  lemma NamedEntityDecoded(st: Scan, body: string)
    requires Idle(st)
    requires |body| <= 9 && ';' !in body
    requires forall i :: 0 <= i < |body| ==> body[i] as int < 0x80
    requires NamedEntity("&" + body + ";").Some?
    ensures Run(st, "&" + body + ";") == st.(out := st.out + NamedEntity("&" + body + ";").value)
  {
    AsciiByteLen("&" + body);
    EntityDecoded(st, body);
  }

  /** The seven named entities and what they decode to. */
  lemma NamedEntityValues()
    ensures DecodeEntity("&amp;") == "&" && DecodeEntity("&lt;") == "<" && DecodeEntity("&gt;") == ">"
    ensures DecodeEntity("&quot;") == "\"" && DecodeEntity("&apos;") == "'" && DecodeEntity("&#x27;") == "'"
    ensures DecodeEntity("&nbsp;") == " "
  {
  }

  /** Once the entity buffer passes ten bytes without a ';' it is emitted verbatim. */
  lemma EntityOverflow(st: Scan, body: string, c: char)
    requires Idle(st)
    requires ';' !in body && c != ';'
    requires ByteLen("&" + body) <= 10 < ByteLen("&" + body + [c])
    ensures Run(st, "&" + body + [c]) == st.(out := st.out + "&" + body + [c])
  {
    var s := "&" + body + [c];
    var mid := Run(st, "&" + body);
    RunEntityBody(st, body);
    assert s[..|s| - 1] == "&" + body;
    assert Run(st, s) == Step(mid, c);
    assert mid.entityBuf + [c] == s;
  }

  /** An entity still open at the end of the input is appended as it is. */
  lemma UnterminatedEntityKept(st: Scan, body: string)
    requires Idle(st)
    requires ';' !in body && ByteLen("&" + body) <= 10
    ensures Finish(Run(st, "&" + body)) == st.out + "&" + body
  {
    RunEntityBody(st, body);
  }

  /** So is a tag still open at the end of the input. */
  lemma UnterminatedTagKept(st: Scan, body: string)
    requires Idle(st)
    requires '>' !in body
    ensures Finish(Run(st, "<" + body)) == st.out + "<" + body
  {
    RunTagBody(st, body);
  }

  /** The loop only ever leaves an idle state idle, and its output only grows. */
  lemma {:induction false} RunExtendsOutput(st: Scan, s: string)
    ensures |Run(st, s).out| >= |st.out| && Run(st, s).out[..|st.out|] == st.out
  {
    if s != [] {
      RunExtendsOutput(st, s[..|s| - 1]);
      var mid := Run(st, s[..|s| - 1]);
      assert Step(mid, s[|s| - 1]).out[..|mid.out|] == mid.out;
    }
  }

  /** The string "&;" drives the loop into `decode_entity("&;")`, which the original cannot slice. */
  lemma EmptyEntityPanics()
    ensures Run(Start, "&").inEntity && Run(Start, "&").entityBuf + ";" == "&;"
    ensures NamedEntity("&;").None? && !SliceInBounds("&;")
    ensures DecodeEntity("&;") == "&;"
  {
    assert "&"[..0] == [];
  }

  /** Likewise "&é;": byte 2 falls inside the two-byte 'é'. */
  lemma MultibyteEntityPanics()
    ensures Run(Start, "&é").inEntity && Run(Start, "&é").entityBuf + ";" == "&é;"
    ensures NamedEntity("&é;").None? && !SliceInBounds("&é;")
    ensures DecodeEntity("&é;") == "&é;"
  {
    var s := "&é";
    assert s[..1] == "&";
    assert "&"[..0] == [];
    assert ByteLen(s) == 3 by {
      assert ByteLen("&") == 1 by { assert "&"[..0] == []; }
    }
  }

  /** The original reads "&ax41;" as the hexadecimal reference to 'A'; the corrected decoder keeps it. */
  lemma HexWithoutHashDecoded()
    ensures DecodeEntityAsWritten("&ax41;") == "A"
    ensures DecodeEntity("&ax41;") == "&ax41;"
  {
    var e := "&ax41;";
    assert e[2..|e| - 1] == "x41";
    assert "x41"[1..] == "41";
    assert DigitsValue("4", 16) == Some(4) by { assert "4"[..0] == []; }
    assert DigitsValue("41", 16) == Some(0x41) by { assert "41"[..1] == "4"; }
    assert e[..2] != "&#" by { assert e[1] == 'a'; }
  }

  // ----- draw_lyrics scroll clamp -----

  /** The text shown in the panel: a loading note with the URL, the lyrics, or a placeholder. */
  function PanelText(loading: bool, lyrics: Option<string>, url: string): string {
    if loading then "Loading...\n\n" + url
    else if lyrics.Some? then lyrics.value
    else "No lyrics found"
  }

  /** The panel's line count: the URL and a blank line when there is a URL, then the text's lines. */
  function TotalLines(url: string, text: string): nat {
    (if url != [] then 2 else 0) + |Lines(text)|
  }

  /** The scroll offset after clamping to the last full page of a bordered panel of `height` rows. */
  function ClampedScroll(scroll: nat, total: nat, height: nat): (r: nat)
    ensures r <= scroll
    ensures r == 0 || r + SatSub(height, 2) <= total
    ensures scroll + SatSub(height, 2) <= total ==> r == scroll
    ensures r == scroll || r + SatSub(height, 2) == total || r == 0
  {
    Min(scroll, SatSub(total, SatSub(height, 2)))
  }

  lemma ClampedScrollIdempotent(scroll: nat, total: nat, height: nat)
    ensures ClampedScroll(ClampedScroll(scroll, total, height), total, height) == ClampedScroll(scroll, total, height)
  {
  }

  /** The scroll position the lyrics panel keeps between frames. */
  class LyricsPanel {
    var scroll: nat

    constructor()
      ensures scroll == 0
    {
      scroll := 0;
    }

    /** The part of `draw_lyrics` that updates `*lyrics_scroll`. */
    method Draw(height: nat, lyrics: Option<string>, url: string, loading: bool)
      modifies this
      ensures scroll == ClampedScroll(old(scroll), TotalLines(url, PanelText(loading, lyrics, url)), height)
    {
      var text := PanelText(loading, lyrics, url);
      var total := TotalLines(url, text);
      var visible := SatSub(height, 2);
      var maxScroll := SatSub(total, visible);
      scroll := Min(scroll, maxScroll);
    }
  }
}
