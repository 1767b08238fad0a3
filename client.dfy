/**
 * script.js: the browser side of `/generate-blog`. The submit handler's
 * closure keeps a line buffer for the response stream, the streamed blog
 * text that has not yet been split into lines, and a FIFO queue of items
 * (heading, text run, newline) that the typing animation renders one by one.
 *
 * The closure's variables are the fields of `BlogClient`; each of its
 * methods is proved against a function of the old state. `JSON.parse` and
 * JavaScript's `String()` of a non-string chunk are parameters, the text
 * decoder is replaced by the decoded text itself, and the DOM is left out
 * apart from the heading level and text that `typeNextItem` computes.
 */
module Client {
  import opened PyValues
  import opened Text

  /** An entry of `typingQueue`. */
  datatype Item = TextItem(content: string, bold: bool) | Heading(content: string) | Newline

  // ---------------------------------------------------------------------------
  // parseInlineMarkdown: a `**` bold toggle

  /** `**` starts at index `i` of `s`. */
  predicate MarkerAt(s: string, i: int) {
    0 <= i && i + 1 < |s| && s[i] == '*' && s[i + 1] == '*'
  }

  /**
   * The text between the `**` markers, found left to right without overlap:
   * segment `j` is the text after the `j`-th marker.
   */
  function Segments(s: string): (r: seq<string>)
    ensures |r| >= 1
    decreases |s|
  {
    if s == [] then [""]
    else if MarkerAt(s, 0) then [""] + Segments(s[2..])
    else
      var t := Segments(s[1..]);
      [[s[0]] + t[0]] + t[1..]
  }

  /** The non-empty segments as text runs, bold from `bold` on and toggled at every marker. */
  function Parts(segs: seq<string>, bold: bool): (r: seq<Item>)
    ensures forall k :: 0 <= k < |r| ==> r[k].TextItem? && r[k].content != ""
    decreases |segs|
  {
    if segs == [] then []
    else
      var rest := Parts(segs[1..], !bold);
      var head := if segs[0] != "" then [TextItem(segs[0], bold)] else [];
      assert forall k :: |head| <= k < |head + rest| ==> (head + rest)[k] == rest[k - |head|];
      head + rest
  }

  /** What `parseInlineMarkdown(text)` returns. */
  function Styled(text: string): seq<Item> {
    Parts(Segments(text), false)
  }

  /** The runs still to come when `current` has been read and `s` has not. */
  function Pending(current: string, s: string, bold: bool): seq<Item> {
    var t := Segments(s);
    Parts([current + t[0]] + t[1..], bold)
  }

  /** `parseInlineMarkdown(text)`: the text runs between `**` markers, bold toggled at each marker. */
  method ParseInlineMarkdown(text: string) returns (parts: seq<Item>)
    ensures parts == Styled(text)
  {
    parts := [];
    var current := "";
    var isBold := false;
    var i := 0;
    PendingStart(text, false);
    while i < |text|
      invariant 0 <= i <= |text|
      invariant parts + Pending(current, text[i..], isBold) == Styled(text)
      decreases |text| - i
    {
      if text[i] == '*' && i + 1 < |text| && text[i + 1] == '*' {
        MarkerStep(parts, current, text[i..], isBold, Styled(text));
        assert text[i..][2..] == text[i + 2..];
        if current != "" {
          parts := parts + [TextItem(current, isBold)];
          current := "";
        }
        isBold := !isBold;
        i := i + 2;
      } else {
        CharStep(parts, current, text[i..], isBold, Styled(text));
        assert text[i..][1..] == text[i + 1..];
        current := current + [text[i]];
        i := i + 1;
      }
    }
    PendingEnd(current, isBold);
    if current != "" {
      parts := parts + [TextItem(current, isBold)];
    }
  }

  /** At a marker the pending run, if any, is emitted and the style flips. */
  lemma MarkerStep(parts: seq<Item>, current: string, s: string, bold: bool, styled: seq<Item>)
    requires parts + Pending(current, s, bold) == styled && MarkerAt(s, 0)
    ensures (parts + (if current != "" then [TextItem(current, bold)] else [])) + Pending("", s[2..], !bold) == styled
  {
    PendingMarker(current, s, bold);
    AppendAssoc(parts, if current != "" then [TextItem(current, bold)] else [], Pending("", s[2..], !bold));
  }

  /** Any other character joins the pending run. */
  lemma CharStep(parts: seq<Item>, current: string, s: string, bold: bool, styled: seq<Item>)
    requires parts + Pending(current, s, bold) == styled && s != [] && !MarkerAt(s, 0)
    ensures parts + Pending(current + [s[0]], s[1..], bold) == styled
  {
    PendingChar(current, s, bold);
  }

  /** At the end of the text only the pending run is left. */
  lemma PendingEnd(current: string, bold: bool)
    ensures Pending(current, [], bold) == if current != "" then [TextItem(current, bold)] else []
  {
    assert current + "" == current && [""][1..] == [];
    assert Pending(current, [], bold) == Parts([current], bold);
  }

  lemma PendingStart(s: string, bold: bool)
    ensures Pending("", s, bold) == Parts(Segments(s), bold)
  {
    var t := Segments(s);
    assert "" + t[0] == t[0];
    assert [t[0]] + t[1..] == t;
  }

  lemma PendingMarker(current: string, s: string, bold: bool)
    requires MarkerAt(s, 0)
    ensures Pending(current, s, bold) == (if current != "" then [TextItem(current, bold)] else []) + Pending("", s[2..], !bold)
  {
    var t := Segments(s[2..]);
    assert Segments(s) == [""] + t;
    assert ([""] + t)[0] == "" && ([""] + t)[1..] == t;
    assert current + "" == current;
    assert ([current] + t)[1..] == t;
    PendingStart(s[2..], !bold);
  }

  lemma PendingChar(current: string, s: string, bold: bool)
    requires s != [] && !MarkerAt(s, 0)
    ensures Pending(current, s, bold) == Pending(current + [s[0]], s[1..], bold)
  {
    var t := Segments(s[1..]);
    assert Segments(s) == [[s[0]] + t[0]] + t[1..];
    assert current + ([s[0]] + t[0]) == (current + [s[0]]) + t[0];
  }

  /** Joining the segments with `**` gives the text back: only whole markers are dropped. */
  lemma {:induction false} SegmentsJoin(s: string)
    ensures Join("**", Segments(s)) == s
    decreases |s|
  {
    if s != [] {
      if MarkerAt(s, 0) {
        SegmentsJoin(s[2..]);
        var t := Segments(s[2..]);
        assert ([""] + t)[1..] == t;
        assert s == "**" + s[2..];
      } else {
        SegmentsJoin(s[1..]);
        var t := Segments(s[1..]);
        JoinHead(s[0], t);
        assert s == [s[0]] + s[1..];
      }
    }
  }

  lemma JoinHead(c: char, t: seq<string>)
    requires |t| >= 1
    ensures Join("**", [[c] + t[0]] + t[1..]) == [c] + Join("**", t)
  {
    var r := [[c] + t[0]] + t[1..];
    if |t| > 1 {
      assert r[1..] == t[1..];
    }
  }

  /** The first segment is where the text starts. */
  lemma {:induction false} FirstSegmentPrefix(s: string)
    ensures |Segments(s)[0]| <= |s| && Segments(s)[0] == s[..|Segments(s)[0]|]
    decreases |s|
  {
    if s != [] && !MarkerAt(s, 0) {
      FirstSegmentPrefix(s[1..]);
    }
  }

  /** No segment contains `**`, and every segment but the last is followed by its marker without a `*` of its own before it. */
  lemma {:induction false} SegmentsHaveNoMarker(s: string)
    ensures forall k, j :: 0 <= k < |Segments(s)| ==> !MarkerAt(Segments(s)[k], j)
    ensures forall k :: 0 <= k < |Segments(s)| - 1 && Segments(s)[k] != "" ==> Segments(s)[k][|Segments(s)[k]| - 1] != '*'
    decreases |s|
  {
    if s != [] {
      if MarkerAt(s, 0) {
        SegmentsHaveNoMarker(s[2..]);
        var t := Segments(s[2..]);
        assert forall k :: 1 <= k < |[""] + t| ==> ([""] + t)[k] == t[k - 1];
      } else {
        SegmentsHaveNoMarker(s[1..]);
        FirstSegmentPrefix(s[1..]);
        var t := Segments(s[1..]);
        var r := [[s[0]] + t[0]] + t[1..];
        assert forall k :: 1 <= k < |r| ==> r[k] == t[k];
        var h := r[0];
        forall j ensures !MarkerAt(h, j) {
          if j >= 1 {
            assert !MarkerAt(t[0], j - 1);
          }
        }
        if |r| > 1 && t[0] == "" {
          FirstMarkerEndsSegment(s[1..]);
          assert h == [s[0]];
        }
      }
    }
  }

  /** An empty first segment followed by more segments means the text starts with a marker. */
  lemma FirstMarkerEndsSegment(s: string)
    ensures |Segments(s)| > 1 && Segments(s)[0] == "" ==> MarkerAt(s, 0)
  {
  }

  /** Concatenating the runs gives the text of all segments, that is the text with its markers removed. */
  lemma {:induction false} PartsText(segs: seq<string>, bold: bool)
    ensures Concat(Contents(Parts(segs, bold))) == Concat(segs)
    decreases |segs|
  {
    if segs != [] {
      var rest := Parts(segs[1..], !bold);
      PartsText(segs[1..], !bold);
      ConcatCons(segs[0], segs[1..]);
      assert [segs[0]] + segs[1..] == segs;
      if segs[0] != "" {
        assert Parts(segs, bold) == [TextItem(segs[0], bold)] + rest;
        ContentsAppend([TextItem(segs[0], bold)], rest);
        assert Contents([TextItem(segs[0], bold)]) == [segs[0]];
        ConcatCons(segs[0], Contents(rest));
      } else {
        assert Parts(segs, bold) == rest;
      }
    }
  }

  /** Each run is bold exactly when an odd number of markers precede it, counting from `bold`. */
  lemma {:induction false} PartsParity(segs: seq<string>, bold: bool)
    ensures forall p :: p in Parts(segs, bold) ==>
      exists j :: 0 <= j < |segs| && segs[j] != "" && p == TextItem(segs[j], bold != (j % 2 == 1))
    decreases |segs|
  {
    if segs != [] {
      PartsParity(segs[1..], !bold);
      forall p | p in Parts(segs, bold)
        ensures exists j :: 0 <= j < |segs| && segs[j] != "" && p == TextItem(segs[j], bold != (j % 2 == 1))
      {
        if segs[0] != "" && p == TextItem(segs[0], bold) {
          assert segs[0] != "" && p == TextItem(segs[0], bold != (0 % 2 == 1));
        } else {
          assert p in Parts(segs[1..], !bold);
          var j :| 0 <= j < |segs[1..]| && segs[1..][j] != "" && p == TextItem(segs[1..][j], !bold != (j % 2 == 1));
          assert segs[j + 1] != "" && p == TextItem(segs[j + 1], bold != ((j + 1) % 2 == 1));
        }
      }
    }
  }

  /** Every segment that is not empty becomes a run: nothing between markers is lost. */
  lemma {:induction false} PartsComplete(segs: seq<string>, bold: bool)
    ensures forall j :: 0 <= j < |segs| && segs[j] != "" ==> TextItem(segs[j], bold != (j % 2 == 1)) in Parts(segs, bold)
    decreases |segs|
  {
    if segs != [] {
      PartsComplete(segs[1..], !bold);
      forall j | 0 <= j < |segs| && segs[j] != "" ensures TextItem(segs[j], bold != (j % 2 == 1)) in Parts(segs, bold) {
        if j > 0 {
          assert segs[1..][j - 1] == segs[j];
          assert TextItem(segs[j], !bold != ((j - 1) % 2 == 1)) in Parts(segs[1..], !bold);
        }
      }
    }
  }

  function Contents(items: seq<Item>): seq<string>
    requires forall k :: 0 <= k < |items| ==> !items[k].Newline?
  {
    seq(|items|, k requires 0 <= k < |items| => items[k].content)
  }

  lemma ContentsAppend(a: seq<Item>, b: seq<Item>)
    requires forall k :: 0 <= k < |a| ==> !a[k].Newline?
    requires forall k :: 0 <= k < |b| ==> !b[k].Newline?
    ensures Contents(a + b) == Contents(a) + Contents(b)
  {
  }

  lemma ConcatCons(x: string, ss: seq<string>)
    ensures Concat([x] + ss) == x + Concat(ss)
  {
    ConcatAppend([x], ss);
    assert Concat([x]) == x by { assert [x][..0] == []; }
  }

  /** The characters of every segment come from the text. */
  lemma {:induction false} SegmentChars(s: string)
    ensures forall k, c :: 0 <= k < |Segments(s)| && c in Segments(s)[k] ==> c in s
    decreases |s|
  {
    if s != [] {
      if MarkerAt(s, 0) {
        SegmentChars(s[2..]);
        var t := Segments(s[2..]);
        assert forall k :: 1 <= k < |[""] + t| ==> ([""] + t)[k] == t[k - 1];
        assert forall c :: c in s[2..] ==> c in s;
      } else {
        SegmentChars(s[1..]);
        var t := Segments(s[1..]);
        var r := [[s[0]] + t[0]] + t[1..];
        assert forall k :: 1 <= k < |r| ==> r[k] == t[k];
        assert forall c :: c in s[1..] ==> c in s;
        assert forall c :: c in r[0] ==> c == s[0] || c in t[0];
      }
    }
  }

  /** The runs of a line without a newline hold no newline. */
  lemma StyledNoNewline(text: string)
    requires '\n' !in text
    ensures forall k :: 0 <= k < |Styled(text)| ==> '\n' !in Styled(text)[k].content
  {
    SegmentChars(text);
    PartsParity(Segments(text), false);
    forall k | 0 <= k < |Styled(text)| ensures '\n' !in Styled(text)[k].content {
      assert Styled(text)[k] in Styled(text);
    }
  }

  // ---------------------------------------------------------------------------
  // typeNextItem: the heading element

  /** The number of `#` the text starts with (`match(/^#+/)`, or 0 when it does not match). */
  function HeadingLevel(s: string): (n: nat)
    ensures n <= |s| && (forall i :: 0 <= i < n ==> s[i] == '#') && (n == |s| || s[n] != '#')
    decreases |s|
  {
    if s != [] && s[0] == '#' then 1 + HeadingLevel(s[1..]) else 0
  }

  /** `replace(/^#+\s*\/, '')`: the text without its leading `#` run and the whitespace after it. */
  function HeadingText(s: string): string {
    var n := HeadingLevel(s);
    if n == 0 then s else TrimStart(s[n..], IsJsSpace)
  }

  /**
   * A heading's text is a suffix of the line; between the `#` run and the
   * text there is only whitespace, and the text does not start with
   * whitespace. Without a `#` run the text is the whole line.
   */
  lemma HeadingParts(s: string)
    ensures |HeadingText(s)| + HeadingLevel(s) <= |s| && HeadingText(s) == s[|s| - |HeadingText(s)|..]
    ensures AllSpace(s[HeadingLevel(s)..|s| - |HeadingText(s)|], IsJsSpace)
    ensures HeadingLevel(s) > 0 && HeadingText(s) != [] ==> !IsJsSpace(HeadingText(s)[0])
    ensures HeadingLevel(s) == 0 ==> HeadingText(s) == s
  {
    var n := HeadingLevel(s);
    if n > 0 {
      var u := s[n..];
      TrimStartSuffix(u, IsJsSpace);
      var t := TrimStart(u, IsJsSpace);
      assert HeadingText(s) == t;
      SuffixOfDrop(s, n, |t|);
    }
  }

  /** Slices of `s[n..]` are slices of `s`. */
  lemma SuffixOfDrop(s: string, n: nat, m: nat)
    requires n + m <= |s|
    ensures s[n..][|s| - n - m..] == s[|s| - m..] && s[n..][..|s| - n - m] == s[n..|s| - m]
  {
  }

  // ---------------------------------------------------------------------------
  // processAccumulatedContent: lines to queue items

  /** `line.trim().startsWith('#')`. */
  predicate IsHeadingLine(line: string) {
    JsTrim(line) != "" && JsTrim(line)[0] == '#'
  }

  /** The queue and the paragraph buffer `combinedLine` while the lines are read. */
  datatype Scan = Scan(queue: seq<Item>, combined: string)

  /** The paragraph buffer flushed as its text runs and a newline, when it holds more than whitespace. */
  function Flush(queue: seq<Item>, combined: string): seq<Item> {
    if JsTrim(combined) != "" then queue + Styled(combined) + [Newline] else queue
  }

  /** One line: a heading flushes the paragraph and is queued between newlines; any other line joins the paragraph. */
  function ScanLine(sc: Scan, line: string): Scan {
    if IsHeadingLine(line) then
      var q1 := Flush(sc.queue, sc.combined);
      var c1 := if JsTrim(sc.combined) != "" then "" else sc.combined;
      var q2 := if q1 != [] && q1[|q1| - 1] != Newline then q1 + [Newline] else q1;
      Scan(q2 + [Heading(JsTrim(line)), Newline], c1)
    else Scan(sc.queue, sc.combined + (if sc.combined != "" then " " else "") + line)
  }

  function ScanLines(sc: Scan, lines: seq<string>): Scan
    decreases |lines|
  {
    if lines == [] then sc else ScanLine(ScanLines(sc, lines[..|lines| - 1]), lines[|lines| - 1])
  }

  /** The items `content` adds to the queue `queue`. */
  function Enqueue(queue: seq<Item>, content: string): seq<Item> {
    var sc := ScanLines(Scan(queue, ""), SplitLines(content));
    Flush(sc.queue, sc.combined)
  }

  /** Every heading is followed by a newline item and, unless it is first, preceded by one. */
  predicate Framed(q: seq<Item>) {
    forall i :: 0 <= i < |q| && q[i].Heading? ==> i + 1 < |q| && q[i + 1] == Newline && (i > 0 ==> q[i - 1] == Newline)
  }

  /** A text run is non-empty, a heading starts with `#`, and neither spans lines. */
  predicate ItemOk(it: Item) {
    match it
    case TextItem(c, _) => c != "" && '\n' !in c
    case Heading(c) => c != "" && c[0] == '#' && '\n' !in c
    case Newline => true
  }

  predicate QueueOk(q: seq<Item>) {
    Framed(q) && forall i :: 0 <= i < |q| ==> ItemOk(q[i])
  }

  lemma FlushOk(q: seq<Item>, combined: string)
    requires QueueOk(q) && '\n' !in combined
    ensures QueueOk(Flush(q, combined)) && q <= Flush(q, combined)
  {
    if JsTrim(combined) != "" {
      var s := Styled(combined);
      StyledNoNewline(combined);
      var r := q + s + [Newline];
      forall i | 0 <= i < |r| ensures ItemOk(r[i]) {
        if |q| <= i < |q| + |s| { assert r[i] == s[i - |q|]; }
      }
      forall i | 0 <= i < |r| && r[i].Heading?
        ensures i + 1 < |r| && r[i + 1] == Newline && (i > 0 ==> r[i - 1] == Newline)
      {
        assert i < |q|;
        assert q[i].Heading?;
      }
    }
  }

  lemma TrimNoNewline(line: string)
    requires '\n' !in line
    ensures '\n' !in JsTrim(line)
  {
    TrimIsInfix(line, IsJsSpace);
  }

  lemma ScanLineOk(sc: Scan, line: string)
    requires QueueOk(sc.queue) && '\n' !in sc.combined && '\n' !in line
    ensures QueueOk(ScanLine(sc, line).queue) && '\n' !in ScanLine(sc, line).combined
    ensures sc.queue <= ScanLine(sc, line).queue
  {
    if IsHeadingLine(line) {
      FlushOk(sc.queue, sc.combined);
      TrimNoNewline(line);
      var q1 := Flush(sc.queue, sc.combined);
      EndLineOk(q1);
      var q2 := if q1 != [] && q1[|q1| - 1] != Newline then q1 + [Newline] else q1;
      HeadingOk(q2, JsTrim(line));
    } else {
      var c := sc.combined + (if sc.combined != "" then " " else "") + line;
      assert forall ch :: ch in c ==> ch in sc.combined || ch == ' ' || ch in line;
    }
  }

  /** Ending the last line with a newline item, unless it already ends in one, keeps the queue well formed. */
  lemma EndLineOk(q: seq<Item>)
    requires QueueOk(q)
    ensures var q' := if q != [] && q[|q| - 1] != Newline then q + [Newline] else q;
      QueueOk(q') && q <= q' && (q' == [] || q'[|q'| - 1] == Newline)
  {
    if q != [] && q[|q| - 1] != Newline {
      var q' := q + [Newline];
      forall i | 0 <= i < |q'| && q'[i].Heading?
        ensures i + 1 < |q'| && q'[i + 1] == Newline && (i > 0 ==> q'[i - 1] == Newline)
      {
        assert i < |q|;
      }
    }
  }

  /** A heading queued at the start of a line and followed by a newline item keeps the queue well formed. */
  lemma HeadingOk(q: seq<Item>, h: string)
    requires QueueOk(q) && (q == [] || q[|q| - 1] == Newline)
    requires h != "" && h[0] == '#' && '\n' !in h
    ensures QueueOk(q + [Heading(h), Newline])
  {
    var r := q + [Heading(h), Newline];
    forall i | 0 <= i < |r| && r[i].Heading?
      ensures i + 1 < |r| && r[i + 1] == Newline && (i > 0 ==> r[i - 1] == Newline)
    {
      if i < |q| { assert q[i].Heading?; }
    }
    assert forall i :: 0 <= i < |r| ==> ItemOk(r[i]);
  }

  lemma {:induction false} ScanLinesOk(sc: Scan, lines: seq<string>)
    requires QueueOk(sc.queue) && '\n' !in sc.combined
    requires forall k :: 0 <= k < |lines| ==> '\n' !in lines[k]
    ensures QueueOk(ScanLines(sc, lines).queue) && '\n' !in ScanLines(sc, lines).combined
    ensures sc.queue <= ScanLines(sc, lines).queue
    decreases |lines|
  {
    if lines != [] {
      ScanLinesOk(sc, lines[..|lines| - 1]);
      ScanLineOk(ScanLines(sc, lines[..|lines| - 1]), lines[|lines| - 1]);
    }
  }

  /** Queueing new content keeps every heading framed by newlines and only appends to the queue. */
  lemma EnqueueOk(q: seq<Item>, content: string)
    requires QueueOk(q)
    ensures QueueOk(Enqueue(q, content)) && q <= Enqueue(q, content)
  {
    var lines := SplitLines(content);
    ScanLinesOk(Scan(q, ""), lines);
    var sc := ScanLines(Scan(q, ""), lines);
    FlushOk(sc.queue, sc.combined);
  }

  /** Lines that are not headings form one paragraph: joined with single spaces, leading empty lines dropped. */
  lemma {:induction false} ParagraphLines(q: seq<Item>, lines: seq<string>)
    requires forall k :: 0 <= k < |lines| ==> !IsHeadingLine(lines[k])
    ensures ScanLines(Scan(q, ""), lines) == Scan(q, Join(" ", DropEmpty(lines)))
    decreases |lines|
  {
    if lines != [] {
      var init := lines[..|lines| - 1];
      var last := lines[|lines| - 1];
      assert lines == init + [last];
      ParagraphLines(q, init);
      DropEmptySnoc(init, last);
      DropEmptyFirst(init);
      var d := DropEmpty(init);
      if d != [] {
        JoinSnoc(" ", d, last);
        JoinNonEmpty(d);
      }
    }
  }

  /** The lines from the first non-empty one on. */
  function DropEmpty(lines: seq<string>): seq<string>
    decreases |lines|
  {
    if lines == [] then [] else if lines[0] == "" then DropEmpty(lines[1..]) else lines
  }

  lemma {:induction false} DropEmptySnoc(lines: seq<string>, x: string)
    ensures DropEmpty(lines + [x]) == if DropEmpty(lines) == [] then (if x == "" then [] else [x]) else DropEmpty(lines) + [x]
    decreases |lines|
  {
    if lines != [] {
      assert (lines + [x])[1..] == lines[1..] + [x];
      if lines[0] == "" {
        DropEmptySnoc(lines[1..], x);
      }
    } else {
      assert lines + [x] == [x];
      assert [x][1..] == [];
    }
  }

  lemma {:induction false} JoinSnoc(sep: string, ws: seq<string>, x: string)
    requires ws != []
    ensures Join(sep, ws + [x]) == Join(sep, ws) + sep + x
    decreases |ws|
  {
    if |ws| == 1 {
      assert (ws + [x])[1..] == [x];
    } else {
      JoinSnoc(sep, ws[1..], x);
      assert (ws + [x])[1..] == ws[1..] + [x];
    }
  }

  /** A join of lines that starts with a non-empty line is non-empty. */
  lemma JoinNonEmpty(d: seq<string>)
    requires d != [] && d[0] != ""
    ensures Join(" ", d) != ""
  {
  }

  lemma {:induction false} DropEmptyFirst(lines: seq<string>)
    ensures DropEmpty(lines) == [] || DropEmpty(lines)[0] != ""
    decreases |lines|
  {
    if lines != [] && lines[0] == "" {
      DropEmptyFirst(lines[1..]);
    }
  }

  // ---------------------------------------------------------------------------
  // The closure's state and its transitions

  /** The values of the closure's variables (and of the two UI fields the stream handler sets). */
  datatype ClientState = ClientState(
    buffer: string,
    accumulated: string,
    queue: seq<Item>,
    isTyping: bool,
    processedChunks: nat,
    progress: Json,
    copyVisible: bool,
    failed: bool)

  /** `typeNextItem()` on the queue: stop typing when it is empty, otherwise take its first item. */
  function TypedNext(st: ClientState): ClientState {
    if st.queue == [] then st.(isTyping := false) else st.(isTyping := true, queue := st.queue[1..])
  }

  /** The lines of `accumulatedContent` before its last newline, rejoined; all of it when the stream is complete. */
  function Completed(accumulated: string, isComplete: bool): string {
    if isComplete then accumulated
    else var lines := SplitLines(accumulated); Join("\n", lines[..|lines| - 1])
  }

  /** What `accumulatedContent` keeps: the text after its last newline; nothing once the stream is complete. */
  function Rest(accumulated: string, isComplete: bool): string {
    if isComplete then "" else var lines := SplitLines(accumulated); lines[|lines| - 1]
  }

  /** The queue gains the items of `content`, the chunk is counted, and typing starts if it was idle. */
  function Consumed(st: ClientState, content: string): ClientState {
    var st1 := st.(queue := Enqueue(st.queue, content), processedChunks := st.processedChunks + 1);
    if !st.isTyping then TypedNext(st1) else st1
  }

  /** `processAccumulatedContent(isComplete)`. */
  function Processed(st: ClientState, isComplete: bool): ClientState {
    var content := Completed(st.accumulated, isComplete);
    var rest := Rest(st.accumulated, isComplete);
    if content == "" then st.(accumulated := rest) else Consumed(st, content).(accumulated := rest)
  }

  /** JavaScript truthiness of a property value (`None` is `undefined`). */
  predicate JsTruthy(v: Option<Json>) {
    match v
    case None => false
    case Some(j) =>
      match j
      case Null => false
      case Bool(b) => b
      case Int(i) => i != 0
      case Float(r) => r != 0.0
      case Str(s) => s != ""
      case Arr(_) => true
      case Obj(_) => true
  }

  /** `data.key` on a parsed value that is not `null`: an object's entry, or `undefined`. */
  function Prop(data: Json, key: string): Option<Json> {
    if data.Obj? then Lookup(data.fields, key) else None
  }

  /** `accumulatedContent += value`: a string as itself, anything else as `String(value)`. */
  function JsString(j: Json, show: Json -> string): string {
    if j.Str? then j.s else show(j)
  }

  /** `progress === 100`. */
  predicate IsHundred(v: Option<Json>) {
    v == Some(Int(100)) || v == Some(Float(100.0))
  }

  /** The `.catch` handler: the promise chain stops, and the bar is filled. */
  function Failed(st: ClientState): ClientState {
    st.(failed := true, progress := Int(100))
  }

  /** One line of the stream, as the `forEach` callback in `read()` handles it. */
  function Handled(st: ClientState, line: string, parse: string -> Option<Json>, show: Json -> string): ClientState {
    if |line| < 6 || line[..6] != "data: " then st
    else match parse(line[6..])
      case None => Failed(st)
      case Some(data) => if data == Null then Failed(st) else Received(st, data, show)
  }

  /** A parsed update that is not `null`: its chunk is queued, its progress shown, and a progress of 100 reveals the copy button. */
  function Received(st: ClientState, data: Json, show: Json -> string): ClientState {
    var chunk := Prop(data, "chunk");
    var st1 := if JsTruthy(chunk) then Processed(st.(accumulated := st.accumulated + JsString(chunk.value, show)), false) else st;
    Shown(st1, Prop(data, "progress"))
  }

  /** A progress value, when present, goes to the bar; exactly 100 also reveals the copy button. */
  function Shown(st: ClientState, progress: Option<Json>): ClientState {
    var st2 := if progress.Some? then st.(progress := progress.value) else st;
    if IsHundred(progress) then st2.(copyVisible := true) else st2
  }

  /** The lines in order, until one of them throws. */
  function HandledAll(st: ClientState, lines: seq<string>, parse: string -> Option<Json>, show: Json -> string): ClientState
    decreases |lines|
  {
    if lines == [] then st
    else
      var before := HandledAll(st, lines[..|lines| - 1], parse, show);
      if before.failed then before else Handled(before, lines[|lines| - 1], parse, show)
  }

  /** The part of `Valid` that each transition keeps. */
  predicate StateOk(st: ClientState) {
    QueueOk(st.queue) && '\n' !in st.buffer && '\n' !in st.accumulated
  }

  lemma ProcessedOk(st: ClientState, isComplete: bool)
    requires QueueOk(st.queue)
    ensures QueueOk(Processed(st, isComplete).queue) && '\n' !in Processed(st, isComplete).accumulated
  {
    var content := Completed(st.accumulated, isComplete);
    if content != "" {
      EnqueueOk(st.queue, content);
      var q := Enqueue(st.queue, content);
      if q != [] && !st.isTyping {
        assert QueueOk(q[1..]) by {
          forall i | 0 <= i < |q[1..]| && q[1..][i].Heading?
            ensures i + 1 < |q[1..]| && q[1..][i + 1] == Newline && (i > 0 ==> q[1..][i - 1] == Newline)
          {
            assert q[i + 1].Heading?;
          }
        }
      }
    }
  }

  /**
   * Without the end of the stream, only whole lines are queued: what is left
   * in `accumulatedContent` is the text after its last newline, and text
   * without a newline queues nothing. At the end everything is queued and
   * nothing is left.
   */
  lemma ProcessedKeepsTail(st: ClientState, isComplete: bool)
    ensures isComplete ==> Processed(st, isComplete).accumulated == ""
    ensures !isComplete && '\n' !in st.accumulated ==> Processed(st, isComplete) == st
    ensures !isComplete && '\n' in st.accumulated ==>
      st.accumulated == Completed(st.accumulated, false) + "\n" + Processed(st, isComplete).accumulated
    ensures '\n' !in Processed(st, isComplete).accumulated
  {
    RestFacts(st.accumulated, isComplete);
    ProcessedRest(st, isComplete);
  }

  lemma ProcessedRest(st: ClientState, isComplete: bool)
    ensures Processed(st, isComplete).accumulated == Rest(st.accumulated, isComplete)
    ensures Completed(st.accumulated, isComplete) == "" ==> Processed(st, isComplete) == st.(accumulated := Rest(st.accumulated, isComplete))
  {
  }

  /** The split of `accumulatedContent` into the part processed now and the part kept. */
  lemma RestFacts(accumulated: string, isComplete: bool)
    ensures isComplete ==> Rest(accumulated, isComplete) == ""
    ensures !isComplete && '\n' !in accumulated ==> Completed(accumulated, false) == "" && Rest(accumulated, false) == accumulated
    ensures !isComplete && '\n' in accumulated ==> accumulated == Completed(accumulated, false) + "\n" + Rest(accumulated, false)
    ensures '\n' !in Rest(accumulated, isComplete)
  {
    var lines := SplitLines(accumulated);
    SplitLinesLast(accumulated);
    if !isComplete && '\n' !in accumulated {
      assert lines == [accumulated] && lines[..0] == [];
    }
  }

  lemma HandledOk(st: ClientState, line: string, parse: string -> Option<Json>, show: Json -> string)
    requires StateOk(st)
    ensures StateOk(Handled(st, line, parse, show))
    ensures Handled(st, line, parse, show).buffer == st.buffer
  {
    if |line| >= 6 && line[..6] == "data: " && parse(line[6..]).Some? && parse(line[6..]).value != Null {
      ReceivedOk(st, parse(line[6..]).value, show);
    }
  }

  lemma ReceivedOk(st: ClientState, data: Json, show: Json -> string)
    requires StateOk(st)
    ensures StateOk(Received(st, data, show)) && Received(st, data, show).buffer == st.buffer
  {
    var chunk := Prop(data, "chunk");
    if JsTruthy(chunk) {
      var st0 := st.(accumulated := st.accumulated + JsString(chunk.value, show));
      ProcessedOk(st0, false);
      ProcessedBuffer(st0, false);
    }
  }

  lemma ProcessedValid(st: ClientState, isComplete: bool)
    requires StateOk(st)
    ensures StateOk(Processed(st, isComplete))
  {
    ProcessedOk(st, isComplete);
    ProcessedBuffer(st, isComplete);
  }

  lemma ProcessedBuffer(st: ClientState, isComplete: bool)
    ensures Processed(st, isComplete).buffer == st.buffer
  {
  }

  lemma {:induction false} HandledAllOk(st: ClientState, lines: seq<string>, parse: string -> Option<Json>, show: Json -> string)
    requires StateOk(st)
    ensures StateOk(HandledAll(st, lines, parse, show))
    ensures HandledAll(st, lines, parse, show).buffer == st.buffer
    decreases |lines|
  {
    if lines != [] {
      HandledAllOk(st, lines[..|lines| - 1], parse, show);
      HandledOk(HandledAll(st, lines[..|lines| - 1], parse, show), lines[|lines| - 1], parse, show);
    }
  }

  /** A line that does not start with `data: ` changes nothing; a `data: ` line that parses to a final event shows the copy button. */
  lemma HandledLines(st: ClientState, line: string, parse: string -> Option<Json>, show: Json -> string)
    ensures (|line| < 6 || line[..6] != "data: ") ==> Handled(st, line, parse, show) == st
    ensures (|line| >= 6 && line[..6] == "data: " && parse(line[6..]).Some? && parse(line[6..]).value.Obj? &&
             IsHundred(Prop(parse(line[6..]).value, "progress"))) ==>
      Handled(st, line, parse, show).copyVisible && Handled(st, line, parse, show).progress == Prop(parse(line[6..]).value, "progress").value
    ensures |line| >= 6 && line[..6] == "data: " && parse(line[6..]).None? ==> Handled(st, line, parse, show).failed
  {
  }

  // ---------------------------------------------------------------------------
  // The class

  class BlogClient {
    var buffer: string
    var accumulated: string
    var queue: seq<Item>
    var isTyping: bool
    var processedChunks: nat
    /** The progress bar's value; it starts at 0. */
    var progress: Json
    var copyVisible: bool
    /** The promise chain has rejected: the `.catch` handler ran and no more reads follow. */
    var failed: bool

    function State(): ClientState
      reads this
    {
      ClientState(buffer, accumulated, queue, isTyping, processedChunks, progress, copyVisible, failed)
    }

    predicate Valid()
      reads this
    {
      StateOk(State())
    }

    /** The submit handler's reset and the closure's initial values. */
    constructor()
      ensures Valid() && State() == ClientState("", "", [], false, 0, Int(0), false, false)
    {
      buffer := "";
      accumulated := "";
      queue := [];
      isTyping := false;
      processedChunks := 0;
      progress := Int(0);
      copyVisible := false;
      failed := false;
    }

    /** `typeNextItem()`: the item it renders, if any; the animation frame that calls it again is the caller's. */
    method TypeNextItem() returns (item: Option<Item>)
      modifies this
      ensures State() == TypedNext(old(State()))
      ensures item == (if old(queue) == [] then None else Some(old(queue)[0]))
    {
      if queue == [] {
        isTyping := false;
        return None;
      }
      isTyping := true;
      item := Some(queue[0]);
      queue := queue[1..];
    }

    /** `processAccumulatedContent(isComplete)`. */
    method ProcessAccumulated(isComplete: bool)
      modifies this
      ensures State() == Processed(old(State()), isComplete)
    {
      var content := Completed(accumulated, isComplete);
      var rest := Rest(accumulated, isComplete);
      if content != "" {
        Consume(content);
      }
      accumulated := rest;
    }

    /** Queue the items of `content`, count the chunk, and start typing if idle. */
    method Consume(content: string)
      modifies this
      ensures State() == Consumed(old(State()), content)
    {
      EnqueueContent(content);
      processedChunks := processedChunks + 1;
      assert State() == old(State()).(queue := Enqueue(old(queue), content), processedChunks := old(processedChunks) + 1);
      if !isTyping {
        var _ := TypeNextItem();
      }
    }

    /** The body of `processAccumulatedContent` that turns `content` into queue items. */
    method EnqueueContent(content: string)
      modifies this
      ensures State() == old(State()).(queue := Enqueue(old(queue), content))
    {
      var combined := QueueLines(SplitLines(content));
      if JsTrim(combined) != "" {
        var parts := ParseInlineMarkdown(combined);
        queue := queue + parts + [Newline];
      }
    }

    /** `lines.forEach(...)` in `processAccumulatedContent`: the paragraph left open at the end is returned. */
    method QueueLines(lines: seq<string>) returns (combined: string)
      modifies this
      ensures Scan(queue, combined) == ScanLines(Scan(old(queue), ""), lines)
      ensures State() == old(State()).(queue := queue)
    {
      combined := "";
      for k := 0 to |lines|
        invariant Scan(queue, combined) == ScanLines(Scan(old(queue), ""), lines[..k])
        invariant State() == old(State()).(queue := queue)
      {
        assert lines[..k + 1][..k] == lines[..k];
        combined := QueueLine(combined, lines[k]);
      }
      assert lines[..|lines|] == lines;
    }

    /** The `lines.forEach` callback of `processAccumulatedContent`, with `combinedLine` passed in and out. */
    method QueueLine(combined: string, line: string) returns (combined': string)
      modifies this
      ensures Scan(queue, combined') == ScanLine(Scan(old(queue), combined), line)
      ensures State() == old(State()).(queue := queue)
    {
      combined' := combined;
      if JsTrim(line) != "" && JsTrim(line)[0] == '#' {
        if JsTrim(combined') != "" {
          var parts := ParseInlineMarkdown(combined');
          queue := queue + parts + [Newline];
          combined' := "";
        }
        if |queue| > 0 && queue[|queue| - 1] != Newline {
          queue := queue + [Newline];
        }
        queue := queue + [Heading(JsTrim(line)), Newline];
      } else {
        combined' := combined' + (if combined' != "" then " " else "") + line;
      }
    }

    /** The `forEach` callback of `read()` for one line. */
    method HandleLine(line: string, parse: string -> Option<Json>, show: Json -> string)
      modifies this
      ensures State() == Handled(old(State()), line, parse, show)
    {
      if |line| >= 6 && line[..6] == "data: " {
        var data := parse(line[6..]);
        if data.None? || data.value == Null {
          failed := true;
          progress := Int(100);
        } else {
          Receive(data.value, show);
        }
      }
    }

    /** The `.then` body for an update that parsed to something other than `null`. */
    method Receive(data: Json, show: Json -> string)
      modifies this
      ensures State() == Received(old(State()), data, show)
    {
      var chunk := Prop(data, "chunk");
      if JsTruthy(chunk) {
        accumulated := accumulated + JsString(chunk.value, show);
        ProcessAccumulated(false);
      }
      ShowProgress(Prop(data, "progress"));
    }

    /** `updateProgress(data.progress)` and the copy button of a final update. */
    method ShowProgress(p: Option<Json>)
      modifies this
      ensures State() == Shown(old(State()), p)
    {
      if p.Some? {
        progress := p.value;
      }
      if IsHundred(p) {
        copyVisible := true;
      }
    }

    /**
     * One `reader.read()` that delivered `text`: the complete lines are
     * handled in order and the unterminated tail stays in `buffer`.
     */
    method Read(text: string, parse: string -> Option<Json>, show: Json -> string) returns (lines: seq<string>)
      requires Valid() && !failed
      modifies this
      ensures Valid()
      ensures Terminated(lines) + buffer == old(buffer) + text && '\n' !in buffer
      ensures forall k :: 0 <= k < |lines| ==> '\n' !in lines[k]
      ensures State() == HandledAll(old(State()).(buffer := buffer), lines, parse, show)
    {
      var all := SplitLines(buffer + text);
      JoinTerminated(all);
      lines := all[..|all| - 1];
      buffer := all[|all| - 1];
      ghost var before := State();
      HandleLines(lines, parse, show);
      HandledAllOk(before, lines, parse, show);
    }

    /** `lines.forEach(...)` in `read()`: the lines in order, until one throws. */
    method HandleLines(lines: seq<string>, parse: string -> Option<Json>, show: Json -> string)
      modifies this
      ensures State() == HandledAll(old(State()), lines, parse, show)
    {
      for k := 0 to |lines|
        invariant State() == HandledAll(old(State()), lines[..k], parse, show)
      {
        assert lines[..k + 1][..k] == lines[..k];
        if !failed {
          HandleLine(lines[k], parse, show);
        }
      }
      assert lines[..|lines|] == lines;
    }

    /** `reader.read()` reporting the end of the stream: everything left is queued. */
    method Finish()
      requires Valid() && !failed
      modifies this
      ensures State() == Processed(old(State()), true)
      ensures accumulated == "" && Valid()
    {
      ProcessAccumulated(true);
      ProcessedKeepsTail(old(State()), true);
      ProcessedOk(old(State()), true);
      ProcessedBuffer(old(State()), true);
    }
  }

  /** Every transition of the client keeps its queue framed and its buffers free of newlines. */
  lemma TransitionsKeepValid(st: ClientState, text: string, parse: string -> Option<Json>, show: Json -> string)
    requires StateOk(st)
    ensures StateOk(TypedNext(st)) && StateOk(Processed(st, true)) && StateOk(Processed(st, false))
    ensures var all := SplitLines(st.buffer + text);
      StateOk(HandledAll(st.(buffer := all[|all| - 1]), all[..|all| - 1], parse, show))
  {
    TypedNextOk(st);
    ProcessedValid(st, true);
    ProcessedValid(st, false);
    ReadOk(st, SplitLines(st.buffer + text), parse, show);
  }

  /** Typing the next item drops the head of a framed queue, which leaves it framed. */
  lemma TypedNextOk(st: ClientState)
    requires StateOk(st)
    ensures StateOk(TypedNext(st))
  {
    if st.queue != [] {
      var q := st.queue;
      forall i | 0 <= i < |q[1..]| && q[1..][i].Heading?
        ensures i + 1 < |q[1..]| && q[1..][i + 1] == Newline && (i > 0 ==> q[1..][i - 1] == Newline)
      {
        assert q[i + 1].Heading?;
      }
    }
  }

  /** Handling the complete lines of a read and keeping the unfinished last one as the buffer keeps the state valid. */
  lemma ReadOk(st: ClientState, all: seq<string>, parse: string -> Option<Json>, show: Json -> string)
    requires StateOk(st) && all != [] && '\n' !in all[|all| - 1]
    ensures StateOk(HandledAll(st.(buffer := all[|all| - 1]), all[..|all| - 1], parse, show))
  {
    HandledAllOk(st.(buffer := all[|all| - 1]), all[..|all| - 1], parse, show);
  }
}
