/**
 * fetcher.py: finding the page's JSON among its `<script>` elements and
 * walking it down to the conversation's (author, part) pairs. The HTML
 * parser is replaced by the list of the scripts' `.string` values (`None`
 * for a script without a single text child) and `json.loads` by a partial
 * function `parse`.
 */
module Fetcher {
  import opened PyValues

  /** The placeholder text ChatGPT shows for removed custom instructions; it is never extracted. */
  const Sentinel: string := "Original custom instructions no longer available"

  /** The dictionaries walked before `linear_conversation`, each defaulting to `{}`. */
  const Path: seq<string> := ["props", "pageProps", "serverResponse", "data"]

  /** One extracted pair: the author's role and one part of the message. */
  datatype Message = Message(author: Json, part: Json)

  // ---------------------------------------------------------------------------
  // extract_json_from_script

  /** Script `i` has non-empty text that parses. */
  predicate Parses(scripts: seq<Option<string>>, parse: string -> Option<Json>, i: int)
    requires 0 <= i < |scripts|
  {
    scripts[i].Some? && scripts[i].value != "" && parse(scripts[i].value).Some?
  }

  /** The parse of the first script with non-empty text that parses. */
  function FirstParse(scripts: seq<Option<string>>, parse: string -> Option<Json>): Option<Json>
    decreases |scripts|
  {
    if scripts == [] then None
    else if scripts[0].Some? && scripts[0].value != "" && parse(scripts[0].value).Some? then parse(scripts[0].value)
    else FirstParse(scripts[1..], parse)
  }

  /** `FirstParse` finds a parse exactly when some script parses, and then it is the first one's. */
  lemma {:induction false} FirstParseSpec(scripts: seq<Option<string>>, parse: string -> Option<Json>)
    ensures FirstParse(scripts, parse).None? <==> forall i :: 0 <= i < |scripts| ==> !Parses(scripts, parse, i)
    ensures FirstParse(scripts, parse).Some? ==>
      exists i :: 0 <= i < |scripts| && Parses(scripts, parse, i) && FirstParse(scripts, parse) == parse(scripts[i].value) &&
                  forall k :: 0 <= k < i ==> !Parses(scripts, parse, k)
    decreases |scripts|
  {
    if scripts != [] {
      var rest := scripts[1..];
      FirstParseSpec(rest, parse);
      assert forall i :: 1 <= i < |scripts| ==> (Parses(scripts, parse, i) <==> Parses(rest, parse, i - 1));
      if !Parses(scripts, parse, 0) && FirstParse(rest, parse).Some? {
        var i :| 0 <= i < |rest| && Parses(rest, parse, i) && FirstParse(rest, parse) == parse(rest[i].value) &&
                  forall k :: 0 <= k < i ==> !Parses(rest, parse, k);
        assert Parses(scripts, parse, i + 1);
      }
    }
  }

  /** `extract_json_from_script`: an early-return search over the scripts. */
  method ExtractJsonFromScript(scripts: seq<Option<string>>, parse: string -> Option<Json>) returns (r: Option<Json>)
    ensures r == FirstParse(scripts, parse)
  {
    for i := 0 to |scripts|
      invariant FirstParse(scripts[i..], parse) == FirstParse(scripts, parse)
    {
      assert scripts[i..][1..] == scripts[i + 1..];
      var content := scripts[i];
      if content.Some? && content.value != "" {
        var parsed := parse(content.value);
        if parsed.Some? {
          return parsed;
        }
      }
    }
    return None;
  }

  // ---------------------------------------------------------------------------
  // extract_messages

  /** Successive `.get(key, {})` calls, the first error ending the chain. */
  function Walk(r: Result<Json>, keys: seq<string>): Result<Json>
    decreases |keys|
  {
    if keys == [] then r else Walk(GetFrom(r, keys[0], Obj([])), keys[1..])
  }

  /** `json_data.get("props", {})…get("linear_conversation", [])`. */
  function ConversationOf(data: Json): Result<Json> {
    GetFrom(Walk(Ok(data), Path), "linear_conversation", Arr([]))
  }

  /** A part is kept when it is truthy and is not the placeholder text. */
  predicate Keep(part: Json) {
    Truthy(part) && part != Str(Sentinel)
  }

  /** The role and the parts of one conversation entry, in the order the source evaluates them. */
  function EntryOf(entry: Json): Result<(Json, seq<Json>)> {
    var message := Get(entry, "message", Obj([]));
    var author := GetFrom(GetFrom(message, "author", Obj([])), "role", Str("unknown"));
    var content := GetFrom(message, "content", Obj([]));
    var parts := GetFrom(content, "parts", Arr([]));
    if author.Err? then Err(author.error)
    else if content.Err? then Err(content.error)
    else if parts.Err? then Err(parts.error)
    else match Iterate(parts.value)
      case Err(e) => Err(e)
      case Ok(ps) => Ok((author.value, ps))
  }

  /** Every entry decoded, or the error of the first that cannot be. */
  function Entries(conv: seq<Json>): Result<seq<(Json, seq<Json>)>>
    decreases |conv|
  {
    if conv == [] then Ok([])
    else match Entries(conv[..|conv| - 1])
      case Err(e) => Err(e)
      case Ok(init) =>
        match EntryOf(conv[|conv| - 1])
        case Err(e) => Err(e)
        case Ok(entry) => Ok(init + [entry])
  }

  /** The kept parts of one entry, each paired with the entry's author, in order. */
  function Kept(author: Json, parts: seq<Json>): (r: seq<Message>)
    ensures |r| <= |parts|
    ensures forall k :: 0 <= k < |r| ==> r[k].author == author && Keep(r[k].part) && r[k].part in parts
    ensures forall p :: p in parts && Keep(p) ==> Message(author, p) in r
    decreases |parts|
  {
    if parts == [] then []
    else
      var init := Kept(author, parts[..|parts| - 1]);
      var last := parts[|parts| - 1];
      assert forall p :: p in parts ==> p in parts[..|parts| - 1] || p == last;
      if Keep(last) then init + [Message(author, last)] else init
  }

  /** The kept pairs of all entries, entry after entry. */
  function Collected(entries: seq<(Json, seq<Json>)>): seq<Message>
    decreases |entries|
  {
    if entries == [] then []
    else Collected(entries[..|entries| - 1]) + Kept(entries[|entries| - 1].0, entries[|entries| - 1].1)
  }

  /** The number of parts over all entries. */
  function TotalParts(entries: seq<(Json, seq<Json>)>): nat
    decreases |entries|
  {
    if entries == [] then 0 else TotalParts(entries[..|entries| - 1]) + |entries[|entries| - 1].1|
  }

  /** What `extract_messages(json_data)` returns or raises. */
  function ExtractedMessages(data: Json): Result<seq<Message>> {
    match ConversationOf(data)
    case Err(e) => Err(e)
    case Ok(conv) =>
      match Iterate(conv)
      case Err(e) => Err(e)
      case Ok(items) =>
        match Entries(items)
        case Err(e) => Err(e)
        case Ok(entries) => Ok(Collected(entries))
  }

  /** `extract_messages`: a loop over the entries with an inner loop over their parts. */
  method ExtractMessages(data: Json) returns (r: Result<seq<Message>>)
    ensures r == ExtractedMessages(data)
  {
    var conv := ConversationOf(data);
    if conv.Err? {
      return Err(conv.error);
    }
    var items := Iterate(conv.value);
    if items.Err? {
      return Err(items.error);
    }
    r := CollectEntries(items.value);
  }

  /** The outer loop of `extract_messages`: decode each entry and append its kept parts. */
  method CollectEntries(conversation: seq<Json>) returns (r: Result<seq<Message>>)
    ensures r == (match Entries(conversation) case Err(e) => Err(e) case Ok(entries) => Ok(Collected(entries)))
  {
    var messages: seq<Message> := [];
    ghost var entries: seq<(Json, seq<Json>)> := [];
    for i := 0 to |conversation|
      invariant Entries(conversation[..i]) == Ok(entries)
      invariant messages == Collected(entries)
    {
      var entry := EntryOf(conversation[i]);
      if entry.Err? {
        EntriesStep(conversation, i, entries);
        EntriesPrefixError(conversation, i + 1);
        return Err(entry.error);
      }
      EntriesStep(conversation, i, entries);
      messages := AppendKept(messages, entry.value.0, entry.value.1);
      CollectedStep(entries, entry.value);
      entries := entries + [entry.value];
    }
    assert conversation[..|conversation|] == conversation;
    return Ok(messages);
  }

  /** The inner loop of `extract_messages`: append the entry's kept parts. */
  method AppendKept(messages: seq<Message>, author: Json, parts: seq<Json>) returns (r: seq<Message>)
    ensures r == messages + Kept(author, parts)
  {
    r := messages;
    for j := 0 to |parts|
      invariant r == messages + Kept(author, parts[..j])
    {
      assert parts[..j + 1][..j] == parts[..j];
      if Keep(parts[j]) {
        r := r + [Message(author, parts[j])];
      }
    }
    assert parts[..|parts|] == parts;
  }

  /** Decoding one more entry: its failure ends the list, its success extends it. */
  lemma EntriesStep(conv: seq<Json>, i: nat, entries: seq<(Json, seq<Json>)>)
    requires i < |conv| && Entries(conv[..i]) == Ok(entries)
    ensures Entries(conv[..i + 1]) == match EntryOf(conv[i]) case Err(e) => Err(e) case Ok(entry) => Ok(entries + [entry])
  {
    assert conv[..i + 1][..i] == conv[..i] && conv[..i + 1][i] == conv[i];
  }

  lemma CollectedStep(entries: seq<(Json, seq<Json>)>, entry: (Json, seq<Json>))
    ensures Collected(entries + [entry]) == Collected(entries) + Kept(entry.0, entry.1)
  {
    assert (entries + [entry])[..|entries|] == entries;
  }

  /** An entry that cannot be decoded makes the whole list fail, whatever follows it. */
  lemma {:induction false} EntriesPrefixError(conv: seq<Json>, n: nat)
    requires n <= |conv| && Entries(conv[..n]).Err?
    ensures Entries(conv) == Entries(conv[..n])
    decreases |conv| - n
  {
    if n < |conv| {
      assert conv[..n + 1][..n] == conv[..n];
      EntriesPrefixError(conv, n + 1);
    } else {
      assert conv[..n] == conv;
    }
  }

  /** Every extracted part is truthy and is not the placeholder text. */
  lemma {:induction false} CollectedKept(entries: seq<(Json, seq<Json>)>)
    ensures forall k :: 0 <= k < |Collected(entries)| ==> Keep(Collected(entries)[k].part)
    ensures |Collected(entries)| <= TotalParts(entries)
    decreases |entries|
  {
    if entries != [] {
      var init := entries[..|entries| - 1];
      CollectedKept(init);
      var a := Collected(init);
      var b := Kept(entries[|entries| - 1].0, entries[|entries| - 1].1);
      assert forall k :: |a| <= k < |a| + |b| ==> (a + b)[k] == b[k - |a|];
    }
  }

  /** `extract_messages` never returns a falsy part or the placeholder, and no more pairs than parts. */
  lemma MessagesAreKept(data: Json)
    requires ExtractedMessages(data).Ok?
    ensures forall k :: 0 <= k < |ExtractedMessages(data).value| ==> Keep(ExtractedMessages(data).value[k].part)
    ensures exists entries :: Entries(Iterate(ConversationOf(data).value).value) == Ok(entries) &&
                              |ExtractedMessages(data).value| <= TotalParts(entries)
  {
    var entries := Entries(Iterate(ConversationOf(data).value).value).value;
    CollectedKept(entries);
  }

  /** Collecting entry by entry: the pairs of earlier entries come first. */
  lemma {:induction false} CollectedAppend(a: seq<(Json, seq<Json>)>, b: seq<(Json, seq<Json>)>)
    ensures Collected(a + b) == Collected(a) + Collected(b)
    decreases |b|
  {
    if b == [] {
      assert a + b == a;
    } else {
      var init, last := b[..|b| - 1], b[|b| - 1];
      assert (a + b)[..|a + b| - 1] == a + init && (a + b)[|a + b| - 1] == last;
      CollectedAppend(a, init);
      assert Collected(a + b) == (Collected(a) + Collected(init)) + Kept(last.0, last.1);
      assert Collected(b) == Collected(init) + Kept(last.0, last.1);
    }
  }

  /** Within one entry the parts keep their order: keeping two lists one after the other. */
  lemma {:induction false} KeptAppend(author: Json, p: seq<Json>, q: seq<Json>)
    ensures Kept(author, p + q) == Kept(author, p) + Kept(author, q)
    decreases |q|
  {
    if q == [] {
      assert p + q == p;
    } else {
      assert (p + q)[..|p + q| - 1] == p + q[..|q| - 1];
      KeptAppend(author, p, q[..|q| - 1]);
    }
  }

  /** Walking from a `{}` keeps giving `{}`. */
  lemma {:induction false} WalkEmpty(keys: seq<string>)
    ensures Walk(Ok(Obj([])), keys) == Ok(Obj([]))
    decreases |keys|
  {
    if keys != [] {
      WalkEmpty(keys[1..]);
    }
  }

  lemma {:induction false} WalkAppend(r: Result<Json>, a: seq<string>, b: seq<string>)
    ensures Walk(r, a + b) == Walk(Walk(r, a), b)
    decreases |a|
  {
    if a == [] {
      assert a + b == b;
    } else {
      assert (a + b)[1..] == a[1..] + b;
      WalkAppend(GetFrom(r, a[0], Obj([])), a[1..], b);
    }
  }

  /**
   * A key missing anywhere on the path `props`, `pageProps`, `serverResponse`,
   * `data`, `linear_conversation` gives no messages and no error.
   */
  lemma MissingKeyNoMessages(data: Json, n: nat, fields: seq<(string, Json)>)
    requires n <= |Path|
    requires Walk(Ok(data), Path[..n]) == Ok(Obj(fields))
    requires Lookup(fields, (Path + ["linear_conversation"])[n]).None?
    ensures ExtractedMessages(data) == Ok([])
  {
    WalkAppend(Ok(data), Path[..n], Path[n..]);
    assert Path[..n] + Path[n..] == Path;
    if n < |Path| {
      assert Path[n..] == [Path[n]] + Path[n + 1..];
      WalkEmpty(Path[n + 1..]);
    }
    assert ConversationOf(data) == Ok(Arr([]));
  }

  /** A message without an author, or an author without a role, is attributed to `"unknown"`. */
  lemma UnknownAuthor(entry: Json, message: Json)
    requires Get(entry, "message", Obj([])) == Ok(message) && message.Obj?
    requires Lookup(message.fields, "author").None?
      || (Lookup(message.fields, "author").Some? && Lookup(message.fields, "author").value.Obj?
          && Lookup(Lookup(message.fields, "author").value.fields, "role").None?)
    requires EntryOf(entry).Ok?
    ensures EntryOf(entry).value.0 == Str("unknown")
  {
  }
}
