/**
 * app.py: `generate_blog_with_progress`, the generator behind the
 * `/generate-blog` endpoint. It reports each stage as a server-sent event
 * `data: <json>` followed by a blank line, forwards every generated piece
 * in a progress-80 event, and always ends with exactly one progress-100
 * event: success, one of three error statuses, or the text of an exception.
 *
 * The HTTP fetch, the HTML script discovery, `json.loads`, the semantic
 * splitter and the language-model calls are the fields of `Services`.
 */
module Progress {
  import opened PyValues
  import opened Text
  import opened JsonText
  import opened Fetcher
  import opened Processor
  import Sections
  import Cleaning

  /** The `"chunk"` entry of an event: absent, `None`, or a generated piece. */
  datatype ChunkField = NoChunk | NullChunk | Piece(text: string)

  datatype Event = Event(progress: nat, status: string, chunk: ChunkField)

  /** The outside world, as the functions the generator calls see it. */
  datatype Services = Services(
    fetch: string -> Option<string>,
    scriptsOf: string -> seq<Option<string>>,
    parse: string -> Option<Json>,
    split: string -> Result<seq<string>>,
    stream: string -> Sections.StreamResult,
    summarize: string -> Option<string>)

  const ErrorPrefix: string := "Error:"
  const Success: string := "Blog generated successfully!"

  /** The stage events in the order the generator reaches them. */
  const Stages: seq<Event> := [
    Event(0, "Initializing...", NoChunk),
    Event(10, "Fetching content...", NoChunk),
    Event(30, "Extracting data...", NoChunk),
    Event(50, "Processing messages...", NoChunk),
    Event(70, "Generating blog...", NoChunk)]

  const FetchFailed: Event := Event(100, ErrorPrefix + " Failed to fetch HTML content from the provided URL.", NoChunk)
  const ExtractFailed: Event := Event(100, ErrorPrefix + " Failed to extract JSON data from HTML content.", NoChunk)
  const NoMessages: Event := Event(100, ErrorPrefix + " No valid messages to process.", NoChunk)
  const Done: Event := Event(100, Success, NullChunk)

  /** The event of the `except` clause. */
  function Crash(e: PyError): Event {
    Event(100, ErrorPrefix + " An error occurred while generating the blog: " + e.message, NoChunk)
  }

  /** The progress-80 event that forwards one generated piece. */
  function Forward(piece: string): Event {
    Event(80, "Generating...", Piece(piece))
  }

  /** How far a run got: the stage events sent, the pieces forwarded, and the final event. */
  datatype Outcome = Outcome(reached: nat, pieces: seq<string>, last: Event)

  /** `" ".join(msg['content'] for msg in cleaned_messages)`. */
  function InputText(cleaned: seq<Formatted>): string {
    Join(" ", seq(|cleaned|, k requires 0 <= k < |cleaned| => cleaned[k].content))
  }

  /** The branches of the generator once the page has been parsed into truthy JSON. */
  function AfterParse(data: Json, sv: Services): Outcome {
    match ExtractedMessages(data)
    case Err(e) => Outcome(4, [], Crash(e))
    case Ok(raw) => AfterExtract(raw, sv)
  }

  /** The branches once the message pairs have been read from the JSON. */
  function AfterExtract(raw: seq<Message>, sv: Services): Outcome {
    match FormatAll(raw)
    case Err(e) => Outcome(4, [], Crash(e))
    case Ok(cleaned) =>
      if cleaned == [] then Outcome(4, [], NoMessages) else Generated(cleaned, sv)
  }

  /** The generation stage: the pieces `generate_blog_from_text` yields, then success or the exception it raised. */
  function Generated(cleaned: seq<Formatted>, sv: Services): Outcome {
    var out := Sections.GenerateBlogFromText(InputText(cleaned), sv.split, sv.stream, sv.summarize);
    Outcome(5, out.chunks, if out.raised.Some? then Crash(out.raised.value) else Done)
  }

  /** The branches of the generator for the page at `url`. */
  function Run(url: string, sv: Services): Outcome {
    var html := sv.fetch(url);
    if html.None? || html.value == "" then Outcome(2, [], FetchFailed)
    else
      var data := FirstParse(sv.scriptsOf(html.value), sv.parse);
      if data.None? || !Truthy(data.value) then Outcome(3, [], ExtractFailed)
      else AfterParse(data.value, sv)
  }

  /** The events of an outcome, in the order they are sent. */
  function EventsOf(o: Outcome): seq<Event>
    requires o.reached <= |Stages|
  {
    Stages[..o.reached] + Forwards(o.pieces) + [o.last]
  }

  /** The status of an event that ends a run: the success event, or an error. */
  predicate Verdict(e: Event) {
    e == Done || (ErrorPrefix <= e.status && e.chunk == NoChunk)
  }

  /**
   * Every run reaches at least the fetch stage, forwards pieces only once
   * generation started, and ends in a progress-100 verdict.
   */
  predicate WellFormed(o: Outcome) {
    2 <= o.reached <= |Stages| && (o.pieces != [] ==> o.reached == |Stages|) && o.last.progress == 100 && Verdict(o.last)
  }

  lemma ErrorVerdict(rest: string)
    ensures ErrorPrefix <= ErrorPrefix + rest
  {
    assert (ErrorPrefix + rest)[..|ErrorPrefix|] == ErrorPrefix;
  }

  lemma CrashVerdict(e: PyError)
    ensures Crash(e).progress == 100 && Verdict(Crash(e))
  {
    ErrorVerdict(" An error occurred while generating the blog: " + e.message);
    assert Crash(e).status == ErrorPrefix + (" An error occurred while generating the blog: " + e.message);
  }

  lemma FixedVerdicts()
    ensures Verdict(FetchFailed) && Verdict(ExtractFailed) && Verdict(NoMessages) && Verdict(Done)
  {
    ErrorVerdict(" Failed to fetch HTML content from the provided URL.");
    ErrorVerdict(" Failed to extract JSON data from HTML content.");
    ErrorVerdict(" No valid messages to process.");
  }

  lemma AfterParseWellFormed(data: Json, sv: Services)
    ensures WellFormed(AfterParse(data, sv))
  {
    match ExtractedMessages(data)
    case Err(e) =>
      CrashVerdict(e);
      assert AfterParse(data, sv) == Outcome(4, [], Crash(e));
    case Ok(raw) =>
      AfterExtractWellFormed(raw, sv);
      assert AfterParse(data, sv) == AfterExtract(raw, sv);
  }

  lemma AfterExtractWellFormed(raw: seq<Message>, sv: Services)
    ensures WellFormed(AfterExtract(raw, sv))
  {
    match FormatAll(raw)
    case Err(e) =>
      CrashVerdict(e);
      assert AfterExtract(raw, sv) == Outcome(4, [], Crash(e));
    case Ok(cleaned) =>
      if cleaned == [] {
        FixedVerdicts();
        assert AfterExtract(raw, sv) == Outcome(4, [], NoMessages);
      } else {
        GeneratedWellFormed(cleaned, sv);
        assert AfterExtract(raw, sv) == Generated(cleaned, sv);
      }
  }

  lemma GeneratedWellFormed(cleaned: seq<Formatted>, sv: Services)
    ensures WellFormed(Generated(cleaned, sv))
  {
    var out := Sections.GenerateBlogFromText(InputText(cleaned), sv.split, sv.stream, sv.summarize);
    if out.raised.Some? {
      CrashVerdict(out.raised.value);
    } else {
      FixedVerdicts();
    }
  }

  lemma RunWellFormed(url: string, sv: Services)
    ensures WellFormed(Run(url, sv))
  {
    var html := sv.fetch(url);
    if html.None? || html.value == "" {
      FixedVerdicts();
      assert Run(url, sv) == Outcome(2, [], FetchFailed);
    } else {
      var data := FirstParse(sv.scriptsOf(html.value), sv.parse);
      if data.None? || !Truthy(data.value) {
        FixedVerdicts();
        assert Run(url, sv) == Outcome(3, [], ExtractFailed);
      } else {
        AfterParseWellFormed(data.value, sv);
        assert Run(url, sv) == AfterParse(data.value, sv);
      }
    }
  }

  function Events(url: string, sv: Services): seq<Event> {
    RunWellFormed(url, sv);
    EventsOf(Run(url, sv))
  }

  // ---------------------------------------------------------------------------
  // The wire format

  /** `json.dumps` of the event's dict: keys in insertion order, `", "` and `": "` separators. */
  function Encode(e: Event): string {
    "{\"progress\": " + Decimal(e.progress) + ", \"status\": " + Quote(e.status)
    + (match e.chunk
       case NoChunk => ""
       case NullChunk => ", \"chunk\": null"
       case Piece(s) => ", \"chunk\": " + Quote(s))
    + "}"
  }

  /** One server-sent event: a single `data:` line and the blank line that ends the event. */
  function Frame(e: Event): string {
    "data: " + Encode(e) + "\n\n"
  }

  function Frames(events: seq<Event>): seq<string> {
    seq(|events|, k requires 0 <= k < |events| => Frame(events[k]))
  }

  predicate PrintableText(s: string) {
    forall i :: 0 <= i < |s| ==> Printable(s[i])
  }

  lemma PrintableAppend(a: string, b: string)
    requires PrintableText(a) && PrintableText(b)
    ensures PrintableText(a + b)
  {
    forall i | 0 <= i < |a + b| ensures Printable((a + b)[i]) {
      if i >= |a| { assert (a + b)[i] == b[i - |a|]; }
    }
  }

  /** The encoding is printable ASCII, so a frame is exactly one `data: ` line followed by an empty line. */
  lemma FrameIsOneEvent(e: Event)
    ensures |Frame(e)| >= 8 && Frame(e)[..6] == "data: " && Frame(e)[|Frame(e)| - 2..] == "\n\n"
    ensures forall i :: 0 <= i < |Frame(e)| - 2 ==> Frame(e)[i] != '\n'
  {
    EncodePrintable(e);
    DataLine(Encode(e));
  }

  lemma DataLine(text: string)
    requires PrintableText(text)
    ensures var f := "data: " + text + "\n\n";
      |f| >= 8 && f[..6] == "data: " && f[|f| - 2..] == "\n\n" && forall i :: 0 <= i < |f| - 2 ==> f[i] != '\n'
  {
    var f := "data: " + text + "\n\n";
    forall i | 0 <= i < |f| - 2 ensures f[i] != '\n' {
      if i >= 6 { assert f[i] == text[i - 6]; }
    }
  }

  lemma EncodePrintable(e: Event)
    ensures PrintableText(Encode(e))
  {
    KeysPrintable();
    var tail := match e.chunk
       case NoChunk => ""
       case NullChunk => ", \"chunk\": null"
       case Piece(s) => ", \"chunk\": " + Quote(s);
    if e.chunk.Piece? {
      PrintableAppend(", \"chunk\": ", Quote(e.chunk.text));
    }
    PrintableJoin("{\"progress\": ", Decimal(e.progress), ", \"status\": ", Quote(e.status), tail, "}");
  }

  /** The fixed text of the encoding is printable. */
  lemma KeysPrintable()
    ensures PrintableText("{\"progress\": ") && PrintableText(", \"status\": ") && PrintableText("}")
    ensures PrintableText(", \"chunk\": null") && PrintableText(", \"chunk\": ") && PrintableText("")
  {
  }

  lemma PrintableJoin(a: string, b: string, c: string, d: string, e: string, f: string)
    requires PrintableText(a) && PrintableText(b) && PrintableText(c)
    requires PrintableText(d) && PrintableText(e) && PrintableText(f)
    ensures PrintableText(a + b + c + d + e + f)
  {
    PrintableAppend(a, b);
    PrintableAppend(a + b, c);
    PrintableAppend(a + b + c, d);
    PrintableAppend(a + b + c + d, e);
    PrintableAppend(a + b + c + d + e, f);
  }

  /**
   * Reading back a piece's string literal gives the piece unchanged, so the
   * client receives exactly the text the model produced.
   */
  lemma PieceSurvives(piece: string)
    ensures Unescape(Quote(piece)[1..|Quote(piece)| - 1]) == Some(piece)
  {
    var q := Quote(piece);
    assert q[1..|q| - 1] == Escape(piece);
    UnescapeEscape(piece);
  }

  // ---------------------------------------------------------------------------
  // The generator

  /**
   * `generate_blog_with_progress(chat_url)`: the text it streams to the
   * client, frame by frame: each event the run reaches, written as it is
   * yielded.
   */
  method GenerateBlogWithProgress(url: string, sv: Services) returns (frames: seq<string>)
    ensures frames == Frames(Events(url, sv))
  {
    var events := RunEvents(url, sv);
    frames := Send(events);
  }

  /** Each event written as the `data:` line of one server-sent event. */
  method Send(events: seq<Event>) returns (frames: seq<string>)
    ensures frames == Frames(events)
  {
    frames := [];
    for k := 0 to |events|
      invariant frames == Frames(events[..k])
    {
      assert events[..k + 1] == events[..k] + [events[k]];
      FramesAppend(events[..k], events[k]);
      frames := frames + ["data: " + Encode(events[k]) + "\n\n"];
    }
    assert events[..|events|] == events;
  }

  /** The events of the generator's branches, in the order it yields them. */
  method RunEvents(url: string, sv: Services) returns (events: seq<Event>)
    ensures events == Events(url, sv)
  {
    events := [Stages[0], Stages[1]];
    var html := sv.fetch(url);
    if html.None? || html.value == "" {
      events := events + [FetchFailed];
      return;
    }
    events := events + [Stages[2]];
    var data := Fetcher.ExtractJsonFromScript(sv.scriptsOf(html.value), sv.parse);
    if data.None? || !Truthy(data.value) {
      events := events + [ExtractFailed];
      return;
    }
    events := events + [Stages[3]];
    assert events == Stages[..4];
    var rest := EventsAfterParse(data.value, sv);
    events := events + rest;
  }

  /** The events from the generation stage on, once the page has been parsed into truthy JSON. */
  method EventsAfterParse(data: Json, sv: Services) returns (events: seq<Event>)
    ensures Stages[..4] + events == EventsOf(AfterParse(data, sv))
  {
    var raw := Fetcher.ExtractMessages(data);
    if raw.Err? {
      events := [Crash(raw.error)];
      EventsAtParse(events[0]);
      return;
    }
    events := EventsAfterExtract(raw.value, sv);
  }

  /** The events once the message pairs have been read: a cleaning error, no messages, or the generation stage. */
  method EventsAfterExtract(raw: seq<Message>, sv: Services) returns (events: seq<Event>)
    ensures Stages[..4] + events == EventsOf(AfterExtract(raw, sv))
  {
    var cleaned := CleanAndFormatMessages(raw);
    if cleaned.Err? {
      events := [Crash(cleaned.error)];
      EventsAtParse(events[0]);
      return;
    }
    if cleaned.value == [] {
      events := [NoMessages];
      EventsAtParse(events[0]);
      return;
    }
    events := GenerationEvents(cleaned.value, sv);
    EventsAtGeneration(Generated(cleaned.value, sv));
  }

  /** A run that stops after the parsing stage sends the first four stages and its verdict. */
  lemma EventsAtParse(last: Event)
    ensures EventsOf(Outcome(4, [], last)) == Stages[..4] + [last]
  {
  }

  /** A run that reaches generation sends the first four stages, then the generation stage, its pieces and its verdict. */
  lemma EventsAtGeneration(o: Outcome)
    requires o.reached == 5
    ensures EventsOf(o) == Stages[..4] + ([Stages[4]] + Forwards(o.pieces) + [o.last])
  {
    assert Stages[..5] == Stages[..4] + [Stages[4]];
  }

  /** The generation stage: its stage event, one event per generated piece, and the verdict. */
  method GenerationEvents(cleaned: seq<Formatted>, sv: Services) returns (events: seq<Event>)
    ensures events == [Stages[4]] + Forwards(Generated(cleaned, sv).pieces) + [Generated(cleaned, sv).last]
  {
    var pieces, raised := Sections.GenerateBlog(InputText(cleaned), sv.split, sv.stream, sv.summarize);
    var forwarded := ForwardEvents(pieces);
    events := [Stages[4]] + forwarded + [if raised.Some? then Crash(raised.value) else Done];
  }

  /** The inner `for chunk in ...: yield` loop: one progress-80 event per piece. */
  method ForwardEvents(pieces: seq<string>) returns (events: seq<Event>)
    ensures events == Forwards(pieces)
  {
    events := [];
    for k := 0 to |pieces|
      invariant events == Forwards(pieces[..k])
    {
      assert Forwards(pieces[..k + 1]) == Forwards(pieces[..k]) + [Forward(pieces[k])];
      events := events + [Forward(pieces[k])];
    }
    assert pieces[..|pieces|] == pieces;
  }

  /** The progress-80 events of the pieces, in order. */
  function Forwards(pieces: seq<string>): (r: seq<Event>)
    ensures |r| == |pieces| && forall k :: 0 <= k < |pieces| ==> r[k] == Forward(pieces[k])
  {
    seq(|pieces|, k requires 0 <= k < |pieces| => Forward(pieces[k]))
  }

  lemma FramesAppend(events: seq<Event>, e: Event)
    ensures Frames(events + [e]) == Frames(events) + [Frame(e)]
  {
  }

  // ---------------------------------------------------------------------------
  // Properties of the event sequence

  /** The first event reports progress 0 and the second 10, whatever happens next. */
  lemma OutcomeStarts(o: Outcome)
    requires WellFormed(o)
    ensures |EventsOf(o)| >= 3 && EventsOf(o)[0] == Stages[0] && EventsOf(o)[1] == Stages[1]
  {
  }

  /** Progress never decreases along the event sequence. */
  lemma OutcomeMonotone(o: Outcome)
    requires WellFormed(o)
    ensures forall i, j :: 0 <= i <= j < |EventsOf(o)| ==> EventsOf(o)[i].progress <= EventsOf(o)[j].progress
  {
    var es := EventsOf(o);
    var n := o.reached;
    forall i, j | 0 <= i <= j < |es| ensures es[i].progress <= es[j].progress {
      if j < n {
        assert es[i] == Stages[i] && es[j] == Stages[j];
      } else if i < n {
        assert es[i] == Stages[i];
      }
    }
  }

  /** Exactly one event reports progress 100, it is the last, and it is the verdict. */
  lemma OutcomeEnds(o: Outcome)
    requires WellFormed(o)
    ensures EventsOf(o)[|EventsOf(o)| - 1] == o.last && Verdict(o.last) && o.last.progress == 100
    ensures forall i :: 0 <= i < |EventsOf(o)| - 1 ==> EventsOf(o)[i].progress < 100
  {
    var es := EventsOf(o);
    forall i | 0 <= i < |es| - 1 ensures es[i].progress < 100 {
      if i < o.reached {
        assert es[i] == Stages[i];
      }
    }
  }

  /** The pieces in the progress-80 events, in order. */
  function ForwardedPieces(events: seq<Event>): seq<string>
    decreases |events|
  {
    if events == [] then []
    else (if events[0].chunk.Piece? then [events[0].chunk.text] else []) + ForwardedPieces(events[1..])
  }

  lemma {:induction false} ForwardedAppend(a: seq<Event>, b: seq<Event>)
    ensures ForwardedPieces(a + b) == ForwardedPieces(a) + ForwardedPieces(b)
    decreases |a|
  {
    if a == [] {
      assert a + b == b;
    } else {
      ForwardedAppend(a[1..], b);
      assert (a + b)[0] == a[0] && (a + b)[1..] == a[1..] + b;
      var head := if a[0].chunk.Piece? then [a[0].chunk.text] else [];
      AppendAssoc(head, ForwardedPieces(a[1..]), ForwardedPieces(b));
    }
  }

  lemma {:induction false} ForwardedOfForwards(pieces: seq<string>)
    ensures ForwardedPieces(Forwards(pieces)) == pieces
    decreases |pieces|
  {
    if pieces != [] {
      var fs := Forwards(pieces);
      ForwardedOfForwards(pieces[1..]);
      assert fs[1..] == Forwards(pieces[1..]);
      assert fs[0].chunk == Piece(pieces[0]);
      assert [pieces[0]] + pieces[1..] == pieces;
    }
  }

  lemma {:induction false} NoPiecesInStages(n: nat)
    requires n <= |Stages|
    ensures ForwardedPieces(Stages[..n]) == []
    decreases n
  {
    if n > 0 {
      NoPiecesInStages(n - 1);
      assert Stages[..n] == Stages[..n - 1] + [Stages[n - 1]];
      ForwardedAppend(Stages[..n - 1], [Stages[n - 1]]);
    }
  }

  /** The progress-80 events carry exactly the outcome's pieces, in order. */
  lemma OutcomeForwards(o: Outcome)
    requires WellFormed(o)
    ensures ForwardedPieces(EventsOf(o)) == o.pieces
  {
    var fs := Forwards(o.pieces);
    NoPiecesInStages(o.reached);
    ForwardedAppend(Stages[..o.reached] + fs, [o.last]);
    ForwardedAppend(Stages[..o.reached], fs);
    ForwardedOfForwards(o.pieces);
    assert EventsOf(o) == Stages[..o.reached] + fs + [o.last];
    assert ForwardedPieces([o.last]) == [] by {
      assert [o.last][1..] == [];
    }
  }

  /** The stream of any run starts at 0 and 10, never goes back, and ends in exactly one progress-100 verdict. */
  lemma EventsShape(url: string, sv: Services)
    ensures |Events(url, sv)| >= 3 && Events(url, sv)[0] == Stages[0] && Events(url, sv)[1] == Stages[1]
    ensures forall i, j :: 0 <= i <= j < |Events(url, sv)| ==> Events(url, sv)[i].progress <= Events(url, sv)[j].progress
    ensures Verdict(Events(url, sv)[|Events(url, sv)| - 1]) && Events(url, sv)[|Events(url, sv)| - 1].progress == 100
    ensures forall i :: 0 <= i < |Events(url, sv)| - 1 ==> Events(url, sv)[i].progress < 100
  {
    var o := Run(url, sv);
    RunWellFormed(url, sv);
    OutcomeStarts(o);
    OutcomeMonotone(o);
    OutcomeEnds(o);
  }

  /** A fetch that fails or returns an empty page gives exactly the events 0, 10 and the fetch error. */
  lemma FetchFailure(url: string, sv: Services)
    requires sv.fetch(url).None? || sv.fetch(url).value == ""
    ensures Events(url, sv) == [Stages[0], Stages[1], FetchFailed]
  {
  }

  /**
   * Once the messages are cleaned into a non-empty list, the run reaches the
   * generation stage and forwards the pieces the section generator produces
   * from the message contents joined by single spaces; the run then ends in
   * success exactly when the generator raised nothing.
   */
  lemma GenerationReached(url: string, sv: Services, data: Json, raw: seq<Message>, cleaned: seq<Formatted>)
    requires sv.fetch(url).Some? && sv.fetch(url).value != ""
    requires FirstParse(sv.scriptsOf(sv.fetch(url).value), sv.parse) == Some(data) && Truthy(data)
    requires ExtractedMessages(data) == Ok(raw) && FormatAll(raw) == Ok(cleaned) && cleaned != []
    ensures Run(url, sv).reached == |Stages|
    ensures Run(url, sv).pieces == Sections.GenerateBlogFromText(InputText(cleaned), sv.split, sv.stream, sv.summarize).chunks
    ensures Run(url, sv).last == Done <==> Sections.GenerateBlogFromText(InputText(cleaned), sv.split, sv.stream, sv.summarize).raised.None?
  {
    assert Run(url, sv) == AfterParse(data, sv);
    assert AfterParse(data, sv) == AfterExtract(raw, sv);
    assert AfterExtract(raw, sv) == Generated(cleaned, sv);
  }

  /** The pieces reach the client unchanged and in order, and there are none unless generation was reached. */
  lemma PiecesForwarded(url: string, sv: Services)
    ensures ForwardedPieces(Events(url, sv)) == Run(url, sv).pieces
    ensures Run(url, sv).pieces != [] ==> Run(url, sv).reached == |Stages|
  {
    RunWellFormed(url, sv);
    OutcomeForwards(Run(url, sv));
  }
}
