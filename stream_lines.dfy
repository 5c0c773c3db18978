/**
 * The text handling applied to each decoded network chunk of a streamed
 * completion: the chunk is split on '\n', lines that are empty after a
 * JavaScript `trim()` are dropped, and each remaining line is classified as
 * the end marker, a `data: ` record carrying a JSON payload, or something
 * that is ignored.
 */
module StreamLines {

  // ---------------------------------------------------------------------------
  // String.prototype.split with a one-character separator
  // ---------------------------------------------------------------------------

  /** `s.split(sep)`: the maximal separator-free pieces, at least one. */
  function Split(s: string, sep: char): (parts: seq<string>)
    ensures |parts| >= 1
    ensures forall i :: 0 <= i < |parts| ==> sep !in parts[i]
    decreases |s|
  {
    if s == [] then [""]
    else
      var rest := Split(s[1..], sep);
      if s[0] == sep then [""] + rest
      else [[s[0]] + rest[0]] + rest[1..]
  }

  /** `parts.join(sep)`. */
  function Join(parts: seq<string>, sep: char): string
    requires |parts| >= 1
    decreases |parts|
  {
    if |parts| == 1 then parts[0] else parts[0] + [sep] + Join(parts[1..], sep)
  }

  /** Splitting loses nothing: joining the pieces gives the chunk back. */
  lemma {:induction false} JoinSplit(s: string, sep: char)
    ensures Join(Split(s, sep), sep) == s
    decreases |s|
  {
    if s != [] {
      JoinSplit(s[1..], sep);
      var rest := Split(s[1..], sep);
      if s[0] == sep {
        assert Split(s, sep)[1..] == rest;
      } else {
        var parts := Split(s, sep);
        if |rest| == 1 {
          assert parts == [[s[0]] + rest[0]];
        } else {
          assert parts[1..] == rest[1..];
          assert s == [s[0]] + (rest[0] + [sep] + Join(rest[1..], sep));
        }
      }
    }
  }

  /** Splitting a separator-free prefix glued to `t` extends `t`'s first piece. */
  lemma {:induction false} SplitPrefix(p: string, t: string, sep: char)
    requires sep !in p
    ensures Split(p + t, sep) == [p + Split(t, sep)[0]] + Split(t, sep)[1..]
    decreases |p|
  {
    if p != [] {
      var st := Split(t, sep);
      SplitPrefix(p[1..], t, sep);
      assert p[0] in p;
      assert (p + t)[0] == p[0] && (p + t)[1..] == p[1..] + t;
      var rest := Split(p[1..] + t, sep);
      assert rest[0] == p[1..] + st[0] && rest[1..] == st[1..];
      assert Split(p + t, sep) == [[p[0]] + rest[0]] + rest[1..];
      assert [p[0]] + rest[0] == p + st[0];
    } else {
      var st := Split(t, sep);
      assert p + t == t && p + st[0] == st[0];
      assert st == [st[0]] + st[1..];
    }
  }

  /** A chunk without the separator is a single piece. */
  lemma SplitNoSeparator(s: string, sep: char)
    requires sep !in s
    ensures Split(s, sep) == [s]
  {
    SplitPrefix(s, "", sep);
    assert s + "" == s;
  }

  /** Joining separator-free pieces and splitting again gives the pieces back. */
  lemma {:induction false} SplitJoin(parts: seq<string>, sep: char)
    requires |parts| >= 1
    requires forall i :: 0 <= i < |parts| ==> sep !in parts[i]
    ensures Split(Join(parts, sep), sep) == parts
    decreases |parts|
  {
    if |parts| == 1 {
      SplitPrefix(parts[0], "", sep);
      assert parts[0] + "" == parts[0];
    } else {
      var tail := Join(parts[1..], sep);
      SplitJoin(parts[1..], sep);
      assert Split([sep] + tail, sep) == [""] + parts[1..] by {
        assert ([sep] + tail)[1..] == tail;
      }
      SplitPrefix(parts[0], [sep] + tail, sep);
      assert Join(parts, sep) == parts[0] + ([sep] + tail);
      assert parts[0] + "" == parts[0];
      assert parts == [parts[0]] + parts[1..];
    }
  }

  // ---------------------------------------------------------------------------
  // String.prototype.trim
  // ---------------------------------------------------------------------------

  /**
   * The characters `trim()` removes: the ECMAScript WhiteSpace set (tab,
   * vertical tab, form feed, space, no-break space, the byte order mark and
   * the space separators) and the LineTerminator set.
   */
  predicate IsJsWhitespace(c: char)
  {
    || c == '\t' || c == '\U{000B}' || c == '\U{000C}' || c == ' '
    || c == '\U{00A0}' || c == '\U{FEFF}' || c == '\U{1680}'
    || ('\U{2000}' <= c <= '\U{200A}')
    || c == '\U{202F}' || c == '\U{205F}' || c == '\U{3000}'
    || c == '\n' || c == '\r' || c == '\U{2028}' || c == '\U{2029}'
  }

  predicate AllWhitespace(s: string)
  {
    forall i :: 0 <= i < |s| ==> IsJsWhitespace(s[i])
  }

  /** Drops leading whitespace: the result is the suffix starting at the first non-blank character. */
  function TrimStart(s: string): (r: string)
    ensures |r| <= |s| && r == s[|s| - |r|..]
    ensures AllWhitespace(s[..|s| - |r|])
    ensures r == [] || !IsJsWhitespace(r[0])
    decreases |s|
  {
    if s != [] && IsJsWhitespace(s[0]) then
      var r := TrimStart(s[1..]);
      assert s[|s| - |r|..] == s[1..][|s| - 1 - |r|..];
      assert s[..|s| - |r|] == [s[0]] + s[1..][..|s| - 1 - |r|];
      r
    else s
  }

  /** Drops trailing whitespace: the result is the prefix ending at the last non-blank character. */
  function TrimEnd(s: string): (r: string)
    ensures |r| <= |s| && r == s[..|r|]
    ensures AllWhitespace(s[|r|..])
    ensures r == [] || !IsJsWhitespace(r[|r| - 1])
    decreases |s|
  {
    if s != [] && IsJsWhitespace(s[|s| - 1]) then
      var r := TrimEnd(s[..|s| - 1]);
      assert s[..|r|] == s[..|s| - 1][..|r|];
      assert s[|r|..] == s[..|s| - 1][|r|..] + [s[|s| - 1]];
      r
    else s
  }

  function Trim(s: string): string
  {
    TrimEnd(TrimStart(s))
  }

  /** `line.trim()` is empty exactly for lines made of whitespace only. */
  lemma TrimEmptyIffBlank(s: string)
    ensures Trim(s) == "" <==> AllWhitespace(s)
  {
    var t := TrimStart(s);
    if Trim(s) == "" {
      // an all-blank remainder would start with a blank, so nothing remains
      assert t[0..] == t;
      assert t == [];
      assert s[..|s| - |t|] == s;
    }
  }

  // ---------------------------------------------------------------------------
  // The lines of one chunk
  // ---------------------------------------------------------------------------

  /**
   * The test of the line filter, `line.trim() === ''`, stated without the
   * trimming (TrimEmptyIffBlank shows the two agree).
   */
  predicate IsBlank(line: string)
  {
    AllWhitespace(line)
  }

  /** `.filter((line) => line.trim() !== '')`. */
  function KeepNonBlank(lines: seq<string>): (r: seq<string>)
    ensures |r| <= |lines|
    ensures forall i :: 0 <= i < |r| ==> !IsBlank(r[i])
    decreases |lines|
  {
    if lines == [] then []
    else if IsBlank(lines[0]) then KeepNonBlank(lines[1..])
    else [lines[0]] + KeepNonBlank(lines[1..])
  }

  /** The filter keeps the order of the lines: it distributes over concatenation. */
  lemma {:induction false} KeepNonBlankAppend(a: seq<string>, b: seq<string>)
    ensures KeepNonBlank(a + b) == KeepNonBlank(a) + KeepNonBlank(b)
    decreases |a|
  {
    if a != [] {
      assert (a + b)[0] == a[0] && (a + b)[1..] == a[1..] + b;
      KeepNonBlankAppend(a[1..], b);
      if !IsBlank(a[0]) {
        assert KeepNonBlank(a + b) == [a[0]] + KeepNonBlank(a[1..] + b);
        assert KeepNonBlank(a) == [a[0]] + KeepNonBlank(a[1..]);
      }
    } else {
      assert a + b == b;
    }
  }

  /** A line survives the filter exactly when it is not blank. */
  lemma {:induction false} KeepNonBlankMember(lines: seq<string>, line: string)
    ensures line in KeepNonBlank(lines) <==> line in lines && !IsBlank(line)
    decreases |lines|
  {
    if lines != [] {
      KeepNonBlankMember(lines[1..], line);
      assert lines == [lines[0]] + lines[1..];
    }
  }

  /** The lines of a chunk that are looked at. */
  function ChunkLines(chunk: string): seq<string>
  {
    KeepNonBlank(Split(chunk, '\n'))
  }

  // ---------------------------------------------------------------------------
  // Classification of a line
  // ---------------------------------------------------------------------------

  const DataPrefix: string := "data: "
  const DoneLine: string := "data: [DONE]"

  datatype LineKind = DoneMarker | Payload(json: string) | Ignored

  /**
   * The end marker is skipped, a line starting with `data: ` carries the text
   * after the six-character prefix, and every other line is ignored.
   */
  function Classify(line: string): (k: LineKind)
    ensures k.DoneMarker? <==> line == DoneLine
    ensures k.Payload? <==> line != DoneLine && |line| >= 6 && line[..6] == DataPrefix
    ensures k.Payload? ==> line == DataPrefix + k.json
  {
    if line == DoneLine then DoneMarker
    else if |line| >= 6 && line[..6] == DataPrefix then Payload(line[6..])
    else Ignored
  }

  /** A record written as `data: <json>` is read back as its payload. */
  lemma ClassifyRecord(json: string)
    requires json != "[DONE]"
    ensures Classify(DataPrefix + json) == Payload(json)
  {
    var line := DataPrefix + json;
    assert line[..6] == DataPrefix;
    assert line[6..] == json;
  }
}
