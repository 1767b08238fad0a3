/**
 * `generate_blog_sections_from_chunks` and `generate_blog_from_text` of
 * blog_generator.py: a loop over the chunks that builds a positional prompt,
 * forwards the model's streamed pieces, grows the blog text with a newline
 * before each piece that does not start a line, and replaces the running
 * summary after each fully streamed section.
 *
 * The language-model calls are parameters. `stream(prompt)` gives the pieces
 * the chain yields and whether it finished without raising (pieces yielded
 * before an exception are still forwarded). `summarize(text)` is
 * `summarize_section`, which returns `None` when its own model call raises.
 */
module Sections {
  import opened PyValues
  import opened Text
  import opened Cleaning
  import opened Chunking

  datatype StreamResult = StreamResult(pieces: seq<string>, completed: bool)

  /**
   * The fixed text of the prompts. The lemmas below hold whatever the
   * wording; `SourceWording` is the text blog_generator.py sends.
   */
  datatype Wording = Wording(moreToCome: string, onlyPart: string, last: string, middle: string,
                             summaryHead: string, windowHead: string, chatHead: string)

  const SourceWording: Wording := Wording(
    "[First part of chat with more to come]:\n\n[Chat Message by User]: ",
    "[First and only part of the chat]:\n\n[Chat Message by User]: ",
    "[Last section of the blog]:\n\n",
    "[Middle section of the blog]:\n\n",
    "\n[Summary of blog content written till now]: \n",
    "\n\n[Last 200 words to maintain narrative]: ",
    "\n\n[Chat messages]: \n")

  /** What `"\n\n".join` raises at the first entry that is `None` instead of a string. */
  function JoinTypeError(index: nat): PyError {
    PyError(TypeError, "sequence item " + Decimal(index) + ": expected str instance, NoneType found")
  }

  predicate AllPresent(summaries: seq<Option<string>>) {
    forall k :: 0 <= k < |summaries| ==> summaries[k].Some?
  }

  /** The strings held by entries that are all present. */
  function Values(summaries: seq<Option<string>>): (r: seq<string>)
    requires AllPresent(summaries)
    ensures |r| == |summaries| && forall k :: 0 <= k < |r| ==> Some(r[k]) == summaries[k]
  {
    if summaries == [] then [] else [summaries[0].value] + Values(summaries[1..])
  }

  /**
   * `"\n\n".join(summaries)` from position `from` on: `Join` over the entries'
   * strings, or the TypeError of the first entry that is `None`; entry numbers
   * in the error count from 0.
   */
  function JoinFrom(summaries: seq<Option<string>>, from: nat): (r: Result<string>)
    requires from <= |summaries|
    ensures r.Ok? <==> forall k :: from <= k < |summaries| ==> summaries[k].Some?
    ensures r.Ok? ==> AllPresent(summaries[from..]) && r.value == Join("\n\n", Values(summaries[from..]))
    ensures r.Err? ==> exists k :: from <= k < |summaries| && summaries[k].None? && r.error == JoinTypeError(k)
                                   && (forall j :: from <= j < k ==> summaries[j].Some?)
    decreases |summaries| - from
  {
    if from == |summaries| then Ok("")
    else if summaries[from].None? then Err(JoinTypeError(from))
    else if from == |summaries| - 1 then
      assert summaries[from..] == [summaries[from]];
      Ok(summaries[from].value)
    else match JoinFrom(summaries, from + 1)
      case Err(e) => Err(e)
      case Ok(rest) =>
        assert summaries[from..][1..] == summaries[from + 1..];
        Ok(summaries[from].value + "\n\n" + rest)
  }

  function JoinSummaries(summaries: seq<Option<string>>): Result<string> {
    JoinFrom(summaries, 0)
  }

  /** The tag that opens the prompt of chunk `i` of `n`. */
  function Tag(w: Wording, i: nat, n: nat): string {
    if i == 0 then (if n > 1 then w.moreToCome else w.onlyPart)
    else if i == n - 1 then w.last
    else w.middle
  }

  /**
   * The prompt of chunk `i` of `n`: the first chunk alone, every later one
   * after the joined summaries and the last 200 words of the blog so far.
   * Joining a `None` summary raises; the source does this outside its `try`.
   */
  function Prompt(w: Wording, i: nat, n: nat, chunk: string, summaries: seq<Option<string>>, blog: string): Result<string> {
    if i == 0 then Ok(Concat([Tag(w, i, n), chunk]))
    else
      match JoinSummaries(summaries)
      case Err(e) => Err(e)
      case Ok(joined) => Ok(Concat([Tag(w, i, n), w.summaryHead, joined, w.windowHead, ExtractLast200Words(blog), w.chatHead, chunk]))
  }

  /**
   * Every prompt opens with its tag and ends with its chunk; a later
   * chunk's prompt carries the joined summaries and the last 200 words of
   * the blog, and fails exactly when a summary is `None`.
   */
  lemma PromptFacts(w: Wording, i: nat, n: nat, chunk: string, summaries: seq<Option<string>>, blog: string)
    ensures i == 0 ==> Prompt(w, i, n, chunk, summaries, blog) == Ok(Concat([Tag(w, i, n), chunk]))
    ensures i > 0 ==> (Prompt(w, i, n, chunk, summaries, blog).Ok? <==> AllPresent(summaries))
    ensures i > 0 && AllPresent(summaries) ==>
      Prompt(w, i, n, chunk, summaries, blog).value ==
        Concat([Tag(w, i, n), w.summaryHead, JoinSummaries(summaries).value, w.windowHead, ExtractLast200Words(blog), w.chatHead, chunk])
    ensures Prompt(w, i, n, chunk, summaries, blog).Ok? ==> PromptShape(Prompt(w, i, n, chunk, summaries, blog).value, Tag(w, i, n), chunk)
  {
    var r := Prompt(w, i, n, chunk, summaries, blog);
    if r.Ok? {
      if i == 0 {
        ConcatEnds([Tag(w, i, n), chunk]);
      } else {
        ConcatEnds([Tag(w, i, n), w.summaryHead, JoinSummaries(summaries).value, w.windowHead, ExtractLast200Words(blog), w.chatHead, chunk]);
      }
    }
  }

  /** The concatenation of several parts starts with the first and ends with the last. */
  lemma {:induction false} ConcatEnds(parts: seq<string>)
    requires parts != []
    ensures PromptShape(Concat(parts), parts[0], parts[|parts| - 1])
    decreases |parts|
  {
    var init := parts[..|parts| - 1];
    var c := Concat(parts);
    assert c == Concat(init) + parts[|parts| - 1];
    if init == [] {
      assert c == parts[0];
    } else {
      ConcatEnds(init);
      assert init[0] == parts[0];
      assert Concat(init) <= c;
    }
    assert c[|c| - |parts[|parts| - 1]|..] == parts[|parts| - 1];
  }

  /** `p` starts with `tag` and ends with `chunk`. */
  predicate PromptShape(p: string, tag: string, chunk: string) {
    tag <= p && |chunk| <= |p| && p[|p| - |chunk|..] == chunk
  }

  /** The first chunk is tagged "more to come" exactly when there are others; the last of several is tagged "last"; the rest "middle". */
  lemma TagPositions(w: Wording, i: nat, n: nat)
    requires i < n
    ensures i == 0 && n > 1 ==> Tag(w, i, n) == w.moreToCome
    ensures i == 0 && n == 1 ==> Tag(w, i, n) == w.onlyPart
    ensures 0 < i == n - 1 ==> Tag(w, i, n) == w.last
    ensures 0 < i < n - 1 ==> Tag(w, i, n) == w.middle
    ensures Tag(w, i, n) in {w.moreToCome, w.onlyPart, w.last, w.middle}
  {
  }

  /** The only way a prompt fails: a later chunk while a summary is `None`. */
  lemma PromptFails(w: Wording, i: nat, n: nat, chunk: string, summaries: seq<Option<string>>, blog: string)
    ensures Prompt(w, i, n, chunk, summaries, blog).Err? <==> i > 0 && exists k :: 0 <= k < |summaries| && summaries[k].None?
    ensures Prompt(w, i, n, chunk, summaries, blog).Err? && summaries == [None] ==>
      Prompt(w, i, n, chunk, summaries, blog).error == JoinTypeError(0)
  {
    PromptFacts(w, i, n, chunk, summaries, blog);
  }

  // ---------------------------------------------------------------------------
  // The accumulated blog text

  /** A newline is due before the next piece when the text is non-empty and does not end in one. */
  function Separator(blog: string): string {
    if blog != "" && blog[|blog| - 1] != '\n' then "\n" else ""
  }

  /** `blog` is empty or ends a line. */
  predicate AtLineStart(blog: string) {
    blog == "" || blog[|blog| - 1] == '\n'
  }

  /** The blog text after the given pieces were appended, one by one, each after its separator. */
  function Accumulate(blog: string, pieces: seq<string>): string
    decreases |pieces|
  {
    if pieces == [] then blog
    else
      var before := Accumulate(blog, pieces[..|pieces| - 1]);
      before + Separator(before) + pieces[|pieces| - 1]
  }

  predicate NotNewline(c: char) { c != '\n' }

  /** Each piece starts a line of the blog: what precedes it is empty or ends in a newline. */
  lemma PieceStartsLine(blog: string, pieces: seq<string>, p: string)
    ensures var before := Accumulate(blog, pieces);
      Accumulate(blog, pieces + [p]) == before + Separator(before) + p && AtLineStart(before + Separator(before))
  {
    assert (pieces + [p])[..|pieces|] == pieces;
  }

  /**
   * Appending pieces only ever adds the pieces and newline characters: the
   * old text stays a prefix, and with newlines removed the result is the old
   * text followed by the pieces.
   */
  lemma AccumulateAddsOnlyNewlines(blog: string, pieces: seq<string>)
    ensures blog <= Accumulate(blog, pieces)
    ensures Filter(Accumulate(blog, pieces), NotNewline) == Filter(blog + Concat(pieces), NotNewline)
    ensures |blog| + |Concat(pieces)| <= |Accumulate(blog, pieces)| <= |blog| + |Concat(pieces)| + |pieces|
  {
    AccumulateGrows(blog, pieces);
    AccumulateFilter(blog, pieces);
  }

  /** The old text stays a prefix; at most one newline is added per piece. */
  lemma {:induction false} AccumulateGrows(blog: string, pieces: seq<string>)
    ensures blog <= Accumulate(blog, pieces)
    ensures |blog| + |Concat(pieces)| <= |Accumulate(blog, pieces)| <= |blog| + |Concat(pieces)| + |pieces|
    decreases |pieces|
  {
    if pieces != [] {
      var init := pieces[..|pieces| - 1];
      var p := pieces[|pieces| - 1];
      AccumulateGrows(blog, init);
      var before := Accumulate(blog, init);
      assert Accumulate(blog, pieces) == before + Separator(before) + p;
      assert Concat(pieces) == Concat(init) + p;
    }
  }

  /** With newlines removed, the accumulated text is the old text followed by the pieces. */
  lemma {:induction false} AccumulateFilter(blog: string, pieces: seq<string>)
    ensures Filter(Accumulate(blog, pieces), NotNewline) == Filter(blog + Concat(pieces), NotNewline)
    decreases |pieces|
  {
    if pieces == [] {
      assert blog + Concat(pieces) == blog;
    } else {
      var init := pieces[..|pieces| - 1];
      var p := pieces[|pieces| - 1];
      AccumulateFilter(blog, init);
      var before := Accumulate(blog, init);
      SeparatorFiltered(before);
      assert Accumulate(blog, pieces) == before + Separator(before) + p;
      AfterConcat(blog, pieces);
      FilterStep(before, Separator(before), p, blog + Concat(init));
    }
  }

  lemma AfterConcat(blog: string, pieces: seq<string>)
    requires pieces != []
    ensures blog + Concat(pieces) == (blog + Concat(pieces[..|pieces| - 1])) + pieces[|pieces| - 1]
  {
    var init, p := pieces[..|pieces| - 1], pieces[|pieces| - 1];
    calc {
      blog + Concat(pieces);
      blog + (Concat(init) + p);
      (blog + Concat(init)) + p;
    }
  }

  lemma FilterStep(before: string, sep: string, p: string, text: string)
    requires Filter(before, NotNewline) == Filter(text, NotNewline)
    requires Filter(sep, NotNewline) == []
    ensures Filter(before + sep + p, NotNewline) == Filter(text + p, NotNewline)
  {
    FilterAppend(before + sep, p, NotNewline);
    FilterAppend(before, sep, NotNewline);
    FilterAppend(text, p, NotNewline);
  }

  lemma SeparatorFiltered(blog: string)
    ensures Filter(Separator(blog), NotNewline) == []
  {
    if Separator(blog) != [] {
      assert Separator(blog) == ['\n'];
    }
  }

  // ---------------------------------------------------------------------------
  // The loop as a fold over the chunks

  /** `blog_content`, `summaries`, the pieces yielded so far, and the exception that ended the loop, if any. */
  datatype GenState = GenState(blog: string, summaries: seq<Option<string>>, yielded: seq<string>, raised: Option<PyError>)

  /**
   * How an iteration builds its prompt from the chunk position, the chunk
   * count, the chunk, the summaries and the blog so far. The fold below is
   * stated for any builder; `SourcePrompt` is the one the source uses.
   */
  type PromptBuilder = (nat, nat, string, seq<Option<string>>, string) -> Result<string>

  const SourcePrompt: PromptBuilder := (i: nat, n: nat, chunk: string, summaries: seq<Option<string>>, blog: string) =>
    Prompt(SourceWording, i, n, chunk, summaries, blog)

  /** The builder fails exactly as `Prompt` does: for a later chunk while a summary is `None`, with the join's error. */
  ghost predicate FailsLikeJoin(prompt: PromptBuilder) {
    forall i: nat, n: nat, chunk: string, summaries: seq<Option<string>>, blog: string ::
      (prompt(i, n, chunk, summaries, blog).Err? <==> i > 0 && exists k :: 0 <= k < |summaries| && summaries[k].None?)
      && (prompt(i, n, chunk, summaries, blog).Err? && summaries == [None] ==>
            prompt(i, n, chunk, summaries, blog).error == JoinTypeError(0))
  }

  /** The prompts of blog_generator.py fail only where joining the summaries does. */
  lemma SourcePromptFails()
    ensures FailsLikeJoin(SourcePrompt)
  {
    forall i: nat, n: nat, chunk: string, summaries: seq<Option<string>>, blog: string
      ensures (SourcePrompt(i, n, chunk, summaries, blog).Err? <==> i > 0 && exists k :: 0 <= k < |summaries| && summaries[k].None?)
      ensures (SourcePrompt(i, n, chunk, summaries, blog).Err? && summaries == [None] ==>
                 SourcePrompt(i, n, chunk, summaries, blog).error == JoinTypeError(0))
    {
      PromptFails(SourceWording, i, n, chunk, summaries, blog);
    }
  }

  /** One iteration for chunk `i` of `n`. */
  function Step(prompt: PromptBuilder, st: GenState, i: nat, n: nat, chunk: string,
                stream: string -> StreamResult, summarize: string -> Option<string>): GenState
  {
    match prompt(i, n, chunk, st.summaries, st.blog)
    case Err(e) => st.(raised := Some(e))
    case Ok(p) =>
      var out := stream(p);
      var blog := Accumulate(st.blog, out.pieces);
      GenState(blog, if out.completed then [summarize(blog)] else st.summaries, st.yielded + out.pieces, None)
  }

  /** The state after the first `k` chunks; an exception stops the loop. */
  function Run(prompt: PromptBuilder, docs: seq<string>, k: nat, stream: string -> StreamResult, summarize: string -> Option<string>): GenState
    requires k <= |docs|
    decreases k
  {
    if k == 0 then GenState("", [], [], None)
    else
      var st := Run(prompt, docs, k - 1, stream, summarize);
      if st.raised.Some? then st else Step(prompt, st, k - 1, |docs|, docs[k - 1], stream, summarize)
  }

  /**
   * `generate_blog_sections_from_chunks(docs)`: returns the pieces it
   * yields, its final blog text, and the exception it ends with, if any.
   */
  method GenerateBlogSections(docs: seq<string>, stream: string -> StreamResult, summarize: string -> Option<string>)
    returns (yielded: seq<string>, blog: string, raised: Option<PyError>)
    ensures yielded == Run(SourcePrompt, docs, |docs|, stream, summarize).yielded
    ensures blog == Run(SourcePrompt, docs, |docs|, stream, summarize).blog
    ensures raised == Run(SourcePrompt, docs, |docs|, stream, summarize).raised
  {
    yielded, blog, raised := SectionsWith(SourcePrompt, docs, stream, summarize);
  }

  /** The loop of `generate_blog_sections_from_chunks`, with the prompts `prompt` builds. */
  method SectionsWith(prompt: PromptBuilder, docs: seq<string>, stream: string -> StreamResult, summarize: string -> Option<string>)
    returns (yielded: seq<string>, blog: string, raised: Option<PyError>)
    ensures GenState(blog, Run(prompt, docs, |docs|, stream, summarize).summaries, yielded, raised) == Run(prompt, docs, |docs|, stream, summarize)
  {
    var st := GenState("", [], [], None);
    var i := 0;
    while i < |docs| && st.raised.None?
      invariant 0 <= i <= |docs|
      invariant st.raised.None? ==> Run(prompt, docs, i, stream, summarize) == st
      invariant st.raised.Some? ==> Run(prompt, docs, |docs|, stream, summarize) == st
    {
      RunStep(prompt, docs, i, stream, summarize, st);
      st := Section(prompt, st, i, |docs|, docs[i], stream, summarize);
      if st.raised.Some? {
        RunStops(prompt, docs, i + 1, stream, summarize);
      }
      i := i + 1;
    }
    yielded, blog, raised := st.yielded, st.blog, st.raised;
  }

  /**
   * One pass of the loop body for chunk `i` of `n`: build the prompt (which
   * may raise), stream the section into the blog, and replace the summary
   * when the stream completed.
   */
  method Section(prompt: PromptBuilder, st: GenState, i: nat, n: nat, chunk: string,
                 stream: string -> StreamResult, summarize: string -> Option<string>) returns (next: GenState)
    ensures next == Step(prompt, st, i, n, chunk, stream, summarize)
  {
    var p := prompt(i, n, chunk, st.summaries, st.blog);
    if p.Err? {
      return st.(raised := Some(p.error));
    }
    var out := stream(p.value);
    var yielded, blog := StreamInto(st.yielded, st.blog, out.pieces);
    var summaries := st.summaries;
    if out.completed {
      summaries := [summarize(blog)];
    }
    return GenState(blog, summaries, yielded, None);
  }

  /** The state after chunk `i` is one step from the state before it. */
  lemma RunStep(prompt: PromptBuilder, docs: seq<string>, i: nat, stream: string -> StreamResult, summarize: string -> Option<string>, st: GenState)
    requires i < |docs| && Run(prompt, docs, i, stream, summarize) == st && st.raised.None?
    ensures Run(prompt, docs, i + 1, stream, summarize) == Step(prompt, st, i, |docs|, docs[i], stream, summarize)
  {
  }

  /** The inner loop: forward each piece and append it to the blog after its separator. */
  method StreamInto(yielded: seq<string>, blog: string, pieces: seq<string>) returns (yielded': seq<string>, blog': string)
    ensures yielded' == yielded + pieces
    ensures blog' == Accumulate(blog, pieces)
  {
    yielded', blog' := yielded, blog;
    for j := 0 to |pieces|
      invariant blog' == Accumulate(blog, pieces[..j])
      invariant yielded' == yielded + pieces[..j]
    {
      assert pieces[..j + 1][..j] == pieces[..j];
      if blog' != "" && blog'[|blog'| - 1] != '\n' {
        blog' := blog' + "\n";
      }
      yielded' := yielded' + [pieces[j]];
      blog' := blog' + pieces[j];
    }
    assert pieces[..|pieces|] == pieces;
  }

  /** Once an exception is raised, later chunks change nothing. */
  lemma {:induction false} RunStops(prompt: PromptBuilder, docs: seq<string>, k: nat, stream: string -> StreamResult, summarize: string -> Option<string>)
    requires 0 < k <= |docs| && Run(prompt, docs, k, stream, summarize).raised.Some?
    ensures Run(prompt, docs, |docs|, stream, summarize) == Run(prompt, docs, k, stream, summarize)
    decreases |docs| - k
  {
    if k < |docs| {
      RunStops(prompt, docs, k + 1, stream, summarize);
    }
  }

  /** The summaries list is replaced, never appended to: it never holds more than one entry. */
  lemma {:induction false} AtMostOneSummary(prompt: PromptBuilder, docs: seq<string>, k: nat, stream: string -> StreamResult, summarize: string -> Option<string>)
    requires k <= |docs|
    ensures |Run(prompt, docs, k, stream, summarize).summaries| <= 1
    decreases k
  {
    if k > 0 {
      AtMostOneSummary(prompt, docs, k - 1, stream, summarize);
    }
  }

  /** With newline characters removed, the blog is the concatenation of the yielded pieces. */
  ghost predicate HoldsYielded(st: GenState) {
    Filter(st.blog, NotNewline) == Filter(Concat(st.yielded), NotNewline)
  }

  /** The blog holds exactly the yielded pieces, in order, plus inserted newline characters. */
  lemma BlogIsYielded(prompt: PromptBuilder, docs: seq<string>, k: nat, stream: string -> StreamResult, summarize: string -> Option<string>)
    requires k <= |docs|
    ensures Filter(Run(prompt, docs, k, stream, summarize).blog, NotNewline) == Filter(Concat(Run(prompt, docs, k, stream, summarize).yielded), NotNewline)
  {
    RunHoldsYielded(prompt, docs, k, stream, summarize);
  }

  lemma {:induction false} RunHoldsYielded(prompt: PromptBuilder, docs: seq<string>, k: nat, stream: string -> StreamResult, summarize: string -> Option<string>)
    requires k <= |docs|
    ensures HoldsYielded(Run(prompt, docs, k, stream, summarize))
    decreases k
  {
    if k > 0 {
      RunHoldsYielded(prompt, docs, k - 1, stream, summarize);
      var st := Run(prompt, docs, k - 1, stream, summarize);
      if st.raised.None? {
        StepKeepsText(prompt, st, k - 1, |docs|, docs[k - 1], stream, summarize);
      }
    }
  }

  /** One step keeps the blog holding exactly the yielded text. */
  lemma StepKeepsText(prompt: PromptBuilder, st: GenState, i: nat, n: nat, chunk: string,
                      stream: string -> StreamResult, summarize: string -> Option<string>)
    requires HoldsYielded(st)
    ensures HoldsYielded(Step(prompt, st, i, n, chunk, stream, summarize))
  {
    var p := prompt(i, n, chunk, st.summaries, st.blog);
    if p.Ok? {
      StreamedText(st.blog, st.yielded, stream(p.value).pieces);
    }
  }

  /** Streaming pieces into a blog that holds the yielded text keeps it holding the yielded text. */
  lemma StreamedText(blog: string, yielded: seq<string>, pieces: seq<string>)
    requires Filter(blog, NotNewline) == Filter(Concat(yielded), NotNewline)
    ensures Filter(Accumulate(blog, pieces), NotNewline) == Filter(Concat(yielded + pieces), NotNewline)
  {
    AccumulateAddsOnlyNewlines(blog, pieces);
    FilterAppend(blog, Concat(pieces), NotNewline);
    FilterAppend(Concat(yielded), Concat(pieces), NotNewline);
    ConcatAppend(yielded, pieces);
  }

  /**
   * The loop ends with an exception exactly when a later chunk meets a
   * `None` summary, i.e. after a section whose summary call failed; the
   * exception is then the `TypeError` of joining it.
   */
  lemma {:induction false} RunRaises(prompt: PromptBuilder, docs: seq<string>, k: nat, stream: string -> StreamResult, summarize: string -> Option<string>)
    requires FailsLikeJoin(prompt)
    requires k <= |docs|
    ensures Run(prompt, docs, k, stream, summarize).raised.Some? ==>
      Run(prompt, docs, k, stream, summarize).summaries == [None] && Run(prompt, docs, k, stream, summarize).raised == Some(JoinTypeError(0))
    decreases k
  {
    if k > 0 {
      RunRaises(prompt, docs, k - 1, stream, summarize);
      AtMostOneSummary(prompt, docs, k - 1, stream, summarize);
      var st := Run(prompt, docs, k - 1, stream, summarize);
      if st.raised.None? && prompt(k - 1, |docs|, docs[k - 1], st.summaries, st.blog).Err? {
        var s := st.summaries;
        var j :| 0 <= j < |s| && s[j].None?;
        assert s == [None];
      }
    }
  }

  /** After a section whose summary failed, the next chunk's prompt raises. */
  lemma FailedSummaryRaises(prompt: PromptBuilder, docs: seq<string>, k: nat, stream: string -> StreamResult, summarize: string -> Option<string>)
    requires FailsLikeJoin(prompt)
    requires 0 < k < |docs|
    requires Run(prompt, docs, k, stream, summarize).raised.None? && Run(prompt, docs, k, stream, summarize).summaries == [None]
    ensures Run(prompt, docs, k + 1, stream, summarize).raised == Some(JoinTypeError(0))
  {
    var st := Run(prompt, docs, k, stream, summarize);
    assert st.summaries[0].None?;
  }

  // ---------------------------------------------------------------------------
  // generate_blog_from_text

  /** What the generator of `generate_blog_from_text` yields, and the exception it ends with, if any. */
  datatype BlogStream = BlogStream(chunks: seq<string>, raised: Option<PyError>)

  /**
   * `generate_blog_from_text(input_text)`: clean the text, split it with the
   * semantic chunker (`split`, which may raise), and stream the sections.
   */
  function GenerateBlogFromText(input: string, split: string -> Result<seq<string>>,
                                stream: string -> StreamResult, summarize: string -> Option<string>): (r: BlogStream)
    ensures split(CleanText(input)).Err? ==> r == BlogStream([], Some(split(CleanText(input)).error))
    ensures split(CleanText(input)).Ok? ==>
      r.chunks == Run(SourcePrompt, split(CleanText(input)).value, |split(CleanText(input)).value|, stream, summarize).yielded
    ensures split(CleanText(input)).Ok? ==>
      r.raised == Run(SourcePrompt, split(CleanText(input)).value, |split(CleanText(input)).value|, stream, summarize).raised
  {
    match split(CleanText(input))
    case Err(e) => BlogStream([], Some(e))
    case Ok(docs) =>
      var st := Run(SourcePrompt, docs, |docs|, stream, summarize);
      BlogStream(st.yielded, st.raised)
  }

  /** `generate_blog_from_text(input_text)` run to its end: the pieces it yields and the exception it ends with. */
  method GenerateBlog(input: string, split: string -> Result<seq<string>>,
                      stream: string -> StreamResult, summarize: string -> Option<string>) returns (chunks: seq<string>, raised: Option<PyError>)
    ensures BlogStream(chunks, raised) == GenerateBlogFromText(input, split, stream, summarize)
  {
    var docs := split(CleanText(input));
    if docs.Err? {
      return [], Some(docs.error);
    }
    var blog;
    chunks, blog, raised := GenerateBlogSections(docs.value, stream, summarize);
  }
}
