/**
 * scraper.py: the `ChatGPTScraper` object, which keeps the page, its JSON,
 * the conversation title and the extracted pairs in fields that its methods
 * set one after the other. The HTTP response, the HTML parser and
 * `json.loads` are parameters; `show` is Python's `str()` of a part that is
 * not a string.
 */
module Scraper {
  import opened PyValues
  import opened Text
  import opened Fetcher

  const DefaultTitle: string := "Empty Title"

  /** `str(j)`: a string as itself, any other value as `show` renders it. */
  function PyStr(j: Json, show: Json -> string): string {
    if j.Str? then j.s else show(j)
  }

  /** The transcript line of one pair: `expert-1` for the user, `expert-2` for every other role. */
  function Line(m: Message, show: Json -> string): (r: string)
    ensures m.author == Str("user") ==> r == "expert-1: " + PyStr(m.part, show) + "\n\n"
    ensures m.author != Str("user") ==> r == "expert-2: " + PyStr(m.part, show) + "\n\n"
  {
    (if m.author == Str("user") then "expert-1" else "expert-2") + ": " + PyStr(m.part, show) + "\n\n"
  }

  /** The lines of all pairs, in order. */
  function Transcript(messages: seq<Message>, show: Json -> string): string
    decreases |messages|
  {
    if messages == [] then "" else Transcript(messages[..|messages| - 1], show) + Line(messages[|messages| - 1], show)
  }

  /** `json_data.get("props", {})…get("data", {}).get("title", "Empty Title")`. */
  function TitleOf(data: Json): Result<Json> {
    GetFrom(Walk(Ok(data), Path), "title", Str(DefaultTitle))
  }

  /** Once the path to the conversation resolves, so does the title, which sits beside it. */
  lemma TitleResolves(data: Json)
    ensures ConversationOf(data).Ok? ==> TitleOf(data).Ok?
  {
    var w := Walk(Ok(data), Path);
    assert ConversationOf(data) == GetFrom(w, "linear_conversation", Arr([]));
  }

  /** A path that does not resolve is the error `extract_messages` raises. */
  lemma ConversationFirst(data: Json)
    requires ConversationOf(data).Err?
    ensures ExtractedMessages(data) == Err(ConversationOf(data).error)
  {
  }

  /** `messages` is falsy: never assigned (`None`) or empty. */
  predicate NoMessages(messages: Option<seq<Message>>) {
    messages.None? || messages.value == []
  }

  class ChatGPTScraper {
    var url: string
    /** `None` when never fetched or when the request failed. */
    var htmlContent: Option<string>
    /** `None` in the source is `Null` here, as `json.loads("null")` gives the same value. */
    var jsonData: Json
    var title: Json
    var messages: Option<seq<Message>>

    constructor(url: string)
      ensures this.url == url && htmlContent == None && jsonData == Null && title == Null && messages == None
    {
      this.url := url;
      htmlContent := None;
      jsonData := Null;
      title := Null;
      messages := None;
    }

    /** `fetch_html_content`: the response text, or `None` when the request raised. */
    method FetchHtmlContent(response: Option<string>)
      modifies this
      ensures htmlContent == response
      ensures url == old(url) && jsonData == old(jsonData) && title == old(title) && messages == old(messages)
    {
      htmlContent := response;
    }

    /**
     * `extract_json_from_script`: without page text nothing changes; otherwise
     * `json_data` becomes the first parse of a script, or `None`.
     */
    method ExtractJsonFromScript(scriptsOf: string -> seq<Option<string>>, parse: string -> Option<Json>)
      modifies this
      ensures old(htmlContent).None? || old(htmlContent).value == "" ==> jsonData == old(jsonData)
      ensures old(htmlContent).Some? && old(htmlContent).value != "" ==>
        jsonData == (match FirstParse(scriptsOf(old(htmlContent).value), parse) case Some(j) => j case None => Null)
      ensures url == old(url) && htmlContent == old(htmlContent) && title == old(title) && messages == old(messages)
    {
      if htmlContent.None? || htmlContent.value == "" {
        return;
      }
      var found := Fetcher.ExtractJsonFromScript(scriptsOf(htmlContent.value), parse);
      jsonData := if found.Some? then found.value else Null;
    }

    /**
     * `extract_messages`: without truthy JSON nothing changes. Otherwise the
     * title is set (defaulting to "Empty Title") once the path to the
     * conversation resolves, and `messages` once every entry has been read;
     * an entry that cannot be read raises after the title is set.
     */
    method ExtractMessages() returns (err: Option<PyError>)
      modifies this
      ensures !Truthy(old(jsonData)) ==> err == None && title == old(title) && messages == old(messages)
      ensures Truthy(old(jsonData)) && ConversationOf(old(jsonData)).Err? ==>
        err == Some(ConversationOf(old(jsonData)).error) && title == old(title) && messages == old(messages)
      ensures Truthy(old(jsonData)) && ConversationOf(old(jsonData)).Ok? ==>
        title == TitleOf(old(jsonData)).value
      ensures Truthy(old(jsonData)) && ConversationOf(old(jsonData)).Ok? && ExtractedMessages(old(jsonData)).Err? ==>
        err == Some(ExtractedMessages(old(jsonData)).error) && messages == old(messages)
      ensures Truthy(old(jsonData)) && ExtractedMessages(old(jsonData)).Ok? ==>
        err == None && messages == Some(ExtractedMessages(old(jsonData)).value)
      ensures url == old(url) && htmlContent == old(htmlContent) && jsonData == old(jsonData)
    {
      err := None;
      if Truthy(jsonData) {
        var conversation := ConversationOf(jsonData);
        if conversation.Err? {
          ConversationFirst(jsonData);
          err := Some(conversation.error);
        } else {
          TitleResolves(jsonData);
          title := TitleOf(jsonData).value;
          var extracted := Fetcher.ExtractMessages(jsonData);
          if extracted.Err? {
            err := Some(extracted.error);
          } else {
            messages := Some(extracted.value);
          }
        }
      }
    }

    /**
     * `get_full_conversation`: run the three steps, then write one
     * `expert-N: text` paragraph per pair; `""` when there are no pairs.
     * An exception of `extract_messages` escapes, after the fields it set.
     */
    method GetFullConversation(response: Option<string>, scriptsOf: string -> seq<Option<string>>,
                               parse: string -> Option<Json>, show: Json -> string) returns (r: Result<string>)
      modifies this
      ensures jsonData == JsonAfter(response, old(jsonData), scriptsOf, parse)
      ensures title == TitleAfter(jsonData, old(title))
      ensures messages == MessagesAfter(jsonData, old(messages))
      ensures r == match ErrorOf(jsonData) case Some(e) => Err(e) case None => Ok(FullConversation(messages, show))
      ensures htmlContent == response && url == old(url)
    {
      FetchHtmlContent(response);
      ExtractJsonFromScript(scriptsOf, parse);
      if Truthy(jsonData) && ConversationOf(jsonData).Err? {
        ConversationFirst(jsonData);
      }
      var err := ExtractMessages();
      if err.Some? {
        return Err(err.value);
      }
      if NoMessages(messages) {
        return Ok("");
      }
      var full := WriteTranscript(messages.value, show);
      return Ok(full);
    }
  }

  /** `json_data` after `extract_json_from_script` on the fetched page `html`, starting from `data`. */
  function JsonAfter(html: Option<string>, data: Json, scriptsOf: string -> seq<Option<string>>, parse: string -> Option<Json>): Json {
    if html.None? || html.value == "" then data
    else match FirstParse(scriptsOf(html.value), parse) case Some(j) => j case None => Null
  }

  /** `title` after `extract_messages` on `data`: set once the path to the conversation resolves. */
  function TitleAfter(data: Json, title: Json): Json {
    if Truthy(data) && ConversationOf(data).Ok? && TitleOf(data).Ok? then TitleOf(data).value else title
  }

  /** `messages` after `extract_messages` on `data`: set only when every entry was read. */
  function MessagesAfter(data: Json, messages: Option<seq<Message>>): Option<seq<Message>> {
    if Truthy(data) && ExtractedMessages(data).Ok? then Some(ExtractedMessages(data).value) else messages
  }

  /** The exception `extract_messages` raises on `data`, if any. */
  function ErrorOf(data: Json): Option<PyError> {
    if Truthy(data) && ExtractedMessages(data).Err? then Some(ExtractedMessages(data).error) else None
  }

  /** What `get_full_conversation` returns for the pairs it finds: `""` when there are none. */
  function FullConversation(messages: Option<seq<Message>>, show: Json -> string): string {
    if NoMessages(messages) then "" else Transcript(messages.value, show)
  }

  /**
   * A run on a page whose JSON yields pairs returns their transcript, whatever
   * the scraper held before; a run whose JSON is falsy returns the transcript
   * of the pairs an earlier run left behind.
   */
  lemma FullConversationOf(data: Json, messages: Option<seq<Message>>, show: Json -> string)
    ensures Truthy(data) && ExtractedMessages(data).Ok? ==>
      ErrorOf(data) == None &&
      FullConversation(MessagesAfter(data, messages), show) == Transcript(ExtractedMessages(data).value, show)
    ensures !Truthy(data) ==>
      ErrorOf(data) == None && MessagesAfter(data, messages) == messages
  {
  }

  /** The loop of `get_full_conversation`: one `expert-N: text` paragraph per pair, appended in order. */
  method WriteTranscript(pairs: seq<Message>, show: Json -> string) returns (full: string)
    ensures full == Transcript(pairs, show)
  {
    full := "";
    for i := 0 to |pairs|
      invariant full == Transcript(pairs[..i], show)
    {
      assert pairs[..i + 1][..i] == pairs[..i];
      full := full + Line(pairs[i], show);
    }
    assert pairs[..|pairs|] == pairs;
  }

  /** Transcripts of consecutive pair lists concatenate: one paragraph per pair, in order. */
  lemma {:induction false} TranscriptAppend(a: seq<Message>, b: seq<Message>, show: Json -> string)
    ensures Transcript(a + b, show) == Transcript(a, show) + Transcript(b, show)
    decreases |b|
  {
    if b == [] {
      assert a + b == a;
    } else {
      var last := b[|b| - 1];
      assert (a + b)[..|a + b| - 1] == a + b[..|b| - 1];
      assert (a + b)[|a + b| - 1] == last;
      TranscriptAppend(a, b[..|b| - 1], show);
      AppendAssoc(Transcript(a, show), Transcript(b[..|b| - 1], show), Line(last, show));
    }
  }

  /** Every paragraph of the transcript ends in a blank line, so a non-empty transcript ends in "\n\n". */
  lemma TranscriptEnds(messages: seq<Message>, show: Json -> string)
    requires messages != []
    ensures |Transcript(messages, show)| >= 2
    ensures Transcript(messages, show)[|Transcript(messages, show)| - 2..] == "\n\n"
  {
    var t := Transcript(messages, show);
    var l := Line(messages[|messages| - 1], show);
    assert t == Transcript(messages[..|messages| - 1], show) + l;
    assert t[|t| - 2..] == l[|l| - 2..];
  }
}
