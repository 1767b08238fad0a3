/**
 * archived/processor.py: turning extracted (author, part) pairs into
 * role-tagged prompt lines, and cutting a list into fixed-size segments.
 */
module Processor {
  import opened PyValues
  import opened Text
  import opened Fetcher

  /** One entry of `clean_and_format_messages`' result: `{"role": …, "content": …}`. */
  datatype Formatted = Formatted(role: string, content: string)

  const UserTag: string := "\n[User]: "
  const ResponseTag: string := "\n\n[ChatGPT Response]: "

  /** The entry for one pair whose part is a string. */
  function Format(author: Json, text: string): (f: Formatted)
    ensures f.role == "User" <==> author == Str("user")
    ensures f.role == "ChatGPT" <==> author != Str("user")
    ensures author == Str("user") ==> f.content == UserTag + PyStrip(text)
    ensures author != Str("user") ==> f.content == ResponseTag + PyStrip(text)
  {
    if author == Str("user") then Formatted("User", UserTag + PyStrip(text))
    else Formatted("ChatGPT", ResponseTag + PyStrip(text))
  }

  predicate AllText(messages: seq<Message>) {
    forall k :: 0 <= k < |messages| ==> messages[k].part.Str?
  }

  /** The position of the first pair whose part is not a string. */
  function FirstNonText(messages: seq<Message>): (k: nat)
    requires !AllText(messages)
    ensures k < |messages| && !messages[k].part.Str?
    ensures forall i :: 0 <= i < k ==> messages[i].part.Str?
  {
    if !messages[0].part.Str? then 0
    else
      var k := 1 + FirstNonText(messages[1..]);
      assert forall i :: 1 <= i < k ==> messages[i] == messages[1..][i - 1];
      k
  }

  /** The entries of pairs whose parts are all strings. */
  function FormatSeq(messages: seq<Message>): (r: seq<Formatted>)
    requires AllText(messages)
  {
    seq(|messages|, k requires 0 <= k < |messages| => Format(messages[k].author, messages[k].part.s))
  }

  lemma FormatSeqAppend(messages: seq<Message>, m: Message)
    requires AllText(messages) && m.part.Str?
    ensures AllText(messages + [m])
    ensures FormatSeq(messages + [m]) == FormatSeq(messages) + [Format(m.author, m.part.s)]
  {
    var ms := messages + [m];
    assert forall k :: 0 <= k < |messages| ==> ms[k] == messages[k];
  }

  /**
   * What `clean_and_format_messages` returns or raises: only strings have
   * `strip`, so the first pair whose part is not one makes the call raise.
   */
  function FormatAll(messages: seq<Message>): Result<seq<Formatted>> {
    if AllText(messages) then Ok(FormatSeq(messages))
    else Err(NoAttribute(messages[FirstNonText(messages)].part, "strip"))
  }

  /** `clean_and_format_messages`: one entry per pair, in order. */
  method CleanAndFormatMessages(messages: seq<Message>) returns (r: Result<seq<Formatted>>)
    ensures r == FormatAll(messages)
  {
    var cleaned: seq<Formatted> := [];
    for i := 0 to |messages|
      invariant AllText(messages[..i]) && cleaned == FormatSeq(messages[..i])
    {
      var m := messages[i];
      if !m.part.Str? {
        assert forall k :: 0 <= k < i ==> messages[..i][k] == messages[k];
        FirstNonTextAt(messages, i);
        return Err(NoAttribute(m.part, "strip"));
      }
      FormatSeqAppend(messages[..i], m);
      assert messages[..i + 1] == messages[..i] + [m];
      cleaned := cleaned + [Format(m.author, m.part.s)];
    }
    assert messages[..|messages|] == messages;
    return Ok(cleaned);
  }

  /** The entries keep the pairs' number and order; a pair whose part is not a string makes the call fail. */
  lemma FormatAllFacts(messages: seq<Message>)
    ensures FormatAll(messages).Ok? <==> AllText(messages)
    ensures FormatAll(messages).Ok? ==> |FormatAll(messages).value| == |messages|
    ensures FormatAll(messages).Ok? ==>
      forall k :: 0 <= k < |messages| ==> FormatAll(messages).value[k] == Format(messages[k].author, messages[k].part.s)
    ensures FormatAll(messages).Err? ==>
      exists k :: 0 <= k < |messages| && !messages[k].part.Str? && FormatAll(messages).error == NoAttribute(messages[k].part, "strip") &&
                  forall i :: 0 <= i < k ==> messages[i].part.Str?
  {
    if !AllText(messages) {
      var k := FirstNonText(messages);
      assert !messages[k].part.Str?;
    }
  }

  lemma {:induction false} FirstNonTextAt(messages: seq<Message>, i: nat)
    requires i < |messages| && !messages[i].part.Str?
    requires forall k :: 0 <= k < i ==> messages[k].part.Str?
    ensures !AllText(messages) && FirstNonText(messages) == i
  {
    var f := FirstNonText(messages);
    assert !(f < i);
    assert !(i < f);
  }

  // ---------------------------------------------------------------------------
  // segment_messages

  /** `sum(segments, [])`: the segments one after the other. */
  function Flatten<T>(segments: seq<seq<T>>): seq<T>
    decreases |segments|
  {
    if segments == [] then [] else segments[0] + Flatten(segments[1..])
  }

  /** Python's `range(0, n, 0)` raises before any segment is cut. */
  const ZeroStep: PyError := PyError(ValueError, "range() arg 3 must not be zero")

  /** The slices `messages[i:i + size]` for `i` in `range(0, len(messages), size)`, with `size > 0`. */
  function Segments<T>(messages: seq<T>, size: int): seq<seq<T>>
    requires size > 0
    decreases |messages|
  {
    if messages == [] then []
    else if |messages| <= size then [messages]
    else [messages[..size]] + Segments(messages[size..], size)
  }

  /** All segments but the last have exactly `size` items, the last between 1 and `size`. */
  predicate WellCut<T>(segments: seq<seq<T>>, size: int) {
    (forall k :: 0 <= k < |segments| ==> 0 < |segments[k]| <= size)
    && (forall k :: 0 <= k < |segments| - 1 ==> |segments[k]| == size)
  }

  /** Concatenating the segments gives the messages back; they are cut to size; there are ceil(n / size) of them. */
  lemma {:induction false} SegmentsFacts<T>(messages: seq<T>, size: int)
    requires size > 0
    ensures Flatten(Segments(messages, size)) == messages
    ensures WellCut(Segments(messages, size), size)
    ensures messages == [] <==> Segments(messages, size) == []
    ensures (|Segments(messages, size)| - 1) * size < |messages| <= |Segments(messages, size)| * size
    decreases |messages|
  {
    if |messages| > size {
      var rest := messages[size..];
      SegmentsFacts(rest, size);
      var r := Segments(messages, size);
      var tail := Segments(rest, size);
      assert r == [messages[..size]] + tail;
      assert r[1..] == tail;
      assert messages == messages[..size] + rest;
      assert forall k :: 1 <= k < |r| ==> r[k] == tail[k - 1];
      assert |r| * size == |tail| * size + size;
      assert (|r| - 1) * size == (|tail| - 1) * size + size;
    } else if messages != [] {
      assert Segments(messages, size)[1..] == [];
      assert messages + [] == messages;
    }
  }

  /**
   * `segment_messages`: the slices `messages[i:i + size]` for `i` in
   * `range(0, len(messages), size)`; a zero step raises, a negative step
   * gives an empty range.
   */
  method SegmentMessages<T>(messages: seq<T>, size: int) returns (r: Result<seq<seq<T>>>)
    ensures size == 0 <==> r.Err?
    ensures size == 0 ==> r.error == ZeroStep
    ensures size < 0 ==> r == Ok([])
    ensures size > 0 ==> r == Ok(Segments(messages, size))
  {
    if size == 0 {
      return Err(ZeroStep);
    }
    var segments: seq<seq<T>> := [];
    if size < 0 {
      return Ok(segments);
    }
    var i := 0;
    while i < |messages|
      invariant i <= |messages| ==> segments + Segments(messages[i..], size) == Segments(messages, size)
      invariant i > |messages| ==> segments == Segments(messages, size)
      decreases |messages| - i
    {
      var segment := messages[i..if i + size <= |messages| then i + size else |messages|];
      var rest := messages[i..];
      if i + size < |messages| {
        assert rest[..size] == segment;
        assert rest[size..] == messages[i + size..];
        assert Segments(rest, size) == [segment] + Segments(messages[i + size..], size);
      } else {
        assert rest == segment;
        assert Segments(rest, size) == [segment];
      }
      assert segments + Segments(rest, size) == segments + [segment] + Segments(messages[i..][|segment|..], size);
      segments := segments + [segment];
      i := i + size;
    }
    if i == |messages| {
      assert segments + [] == segments;
    }
    return Ok(segments);
  }
}
