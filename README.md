# blog-from-gpt, modelled in Dafny

blog-from-gpt turns a shared ChatGPT conversation into a blog post. The back
end fetches the share page. It finds the page's JSON among its `<script>`
elements and walks it down to the conversation's (author, part) pairs. It
formats those pairs into role-tagged text and cleans that text. A semantic
splitter cuts the text into chunks, and the back end asks a language model
for one blog section per chunk, streaming every generated piece to the
browser as server-sent events together with a progress figure. The browser
splits the stream into lines, decodes each `data:` event, and turns the
streamed Markdown into a queue of headings, bold/plain text runs and
newlines that a typing animation renders one by one. An older pipeline
(`archived/`) segments the messages and asks for one section per segment
without streaming; a stand-alone `ChatGPTScraper` class does the extraction
step with state kept in its fields.

The project models each of these parts in its own module:

| module | file | source |
|---|---|---|
| `Text` | text.dfy | Python `strip`/`split`/`join`, JavaScript `trim`/`split('\n')` |
| `PyValues` | pyvalues.dfy | `json.loads` values, truthiness, `dict.get`, iteration, exceptions |
| `Cleaning` | cleaning.dfy | `clean_text` |
| `Chunking` | chunking.dfy | `adjust_chunk_sizes`, `extract_last_200_words` |
| `Clustering` | clustering.dfy | `cluster_text_chunks` |
| `Sections` | sections.dfy | `generate_blog_sections_from_chunks`, `generate_blog_from_text` |
| `Fetcher` | fetcher.dfy | fetcher.py |
| `Processor` | processor.dfy | archived/processor.py |
| `ArchivedGenerator` | archived_generator.dfy | archived/blog_generator.py |
| `Scraper` | scraper.dfy | scraper.py (`ChatGPTScraper`, a class with its fields) |
| `JsonText` | jsontext.dfy | `json.dumps` string literals and their reading back |
| `Progress` | progress.dfy | app.py `generate_blog_with_progress` |
| `Client` | client.dfy | script.js (the submit handler's closure, a class) |

Loops in the source are methods with loop invariants, each proved equal to
a specification function; the properties the code promises are lemmas about
those functions. Everything outside the program's own logic is a parameter:
the HTTP request, the HTML parser's list of script texts, `json.loads` and
`JSON.parse`, the semantic splitter, the k-means search, the language-model
calls, and Python's `str()` / JavaScript's `String()` of a non-string value.

Some behaviours of the code are easy to miss:

- `clean_text` is not idempotent: it collapses spaces before deleting control
  characters, so a deleted control character can leave a double space behind
  (`Cleaning.CleanTextNotIdempotent`).
- The cluster count is `min(n // 3, 10)` with no floor of one, so fewer than
  three embeddings give zero clusters (`Clustering.ClusterCount`).
- A failed summary is not replaced by the previous one. `summarize_section`
  returns `None`, the summaries list becomes `[None]`, and the next chunk's
  `"\n\n".join` raises a `TypeError` outside the `try`, which ends the
  generator (`Sections.RunRaises`, `Sections.FailedSummaryRaises`).
- app.py imports `clean_and_format_messages` from a top-level `processor`
  module; the only such module in the repository is archived/processor.py,
  and that is what is modelled.

## Model

| member | source | states |
|---|---|---|
| Cleaning.CleanTextFacts | blog_generator.py:24-32 | the cleaned text holds no control character and no hyphen, is never longer than the input, introduces no character, and keeps every non-whitespace non-hyphen character in order |
| Cleaning.CollapseSpacesShape | blog_generator.py:28 | after the first rewrite no two spaces are adjacent, the text is not longer, and it is empty only for empty input |
| Cleaning.CollapseSpacesKeeps | blog_generator.py:28 | collapsing runs of spaces deletes only spaces |
| Cleaning.DropControlFacts | blog_generator.py:29 | the second rewrite removes every character U+0000..U+001F and keeps everything else in order |
| Cleaning.NewlineStepIsDead | blog_generator.py:30 | the newline replacement never changes anything, since no newline survives the second rewrite |
| Cleaning.StripHyphensFacts | blog_generator.py:31 | the last rewrite deletes only whitespace and hyphens, and changes nothing in a text without a hyphen |
| Cleaning.HyphenRemoved | blog_generator.py:31 | a hyphen is deleted together with the whitespace runs directly before and after it, while the text before it, spaces included, is kept |
| Cleaning.PrefixKept | blog_generator.py:31 | text without a hyphen that does not end in whitespace is kept unchanged in front of whatever follows |
| Cleaning.HyphenAtStart | blog_generator.py:31 | a match at the start removes the whitespace, the hyphen and the whitespace after it |
| Cleaning.HyphenMatch | blog_generator.py:31 | one match of `\s*-\s*` consumes no kept character |
| Cleaning.CleanTextNotIdempotent | blog_generator.py:24-32 | a concrete input for which cleaning twice differs from cleaning once |
| Cleaning.NoHyphenUnchanged | blog_generator.py:30-31 | a text without control characters or hyphens passes the last two rewrites unchanged |
| Chunking.AdjustChunkSizes | blog_generator.py:34-47 | the loop returns the stripped emitted buffers followed by the stripped remainder; no input gives no chunks, otherwise between one and one more than the number of documents |
| Chunking.TailSlice | blog_generator.py:42 | `s[-overlap:]` is a suffix of the overlap's length, and the whole string for an overlap of zero |
| Chunking.FeedAllCount | blog_generator.py:38-43 | at most one buffer is emitted per document, and after one document something is emitted or pending |
| Chunking.EmittedLong | blog_generator.py:40-41 | every buffer emitted inside the loop had reached the desired size |
| Chunking.CarriesArePrefixes | blog_generator.py:42 | every buffer starts with the overlap tail of the buffer emitted before it |
| Chunking.NothingDropped | blog_generator.py:38-43 | apart from the repeated overlaps, the buffers hold exactly the documents each followed by a space |
| Chunking.ChunkIsLongBuffer | blog_generator.py:40-41 | each chunk produced in the loop is a stripped buffer of at least the desired size |
| Chunking.ChunkOverlap | blog_generator.py:42 | the buffer after an emitted one starts with the emitted buffer's overlap tail |
| Chunking.LastWords | blog_generator.py:109-115 | the window holds exactly the last min(200, n) words of the text, in order |
| Clustering.ClusterCount | blog_generator.py:79-80 | the count is at most 10 and a third of the points, is maximal with that property, and is zero exactly when there are fewer than three points |
| Clustering.Sort | blog_generator.py:90 | the result is sorted and a permutation of the input |
| Clustering.InsertFacts | blog_generator.py:90 | inserting into a sorted list keeps it sorted, adds exactly the value, and puts the smaller of the value and the old head first |
| Clustering.InsertSorted | blog_generator.py:90 | inserting into a sorted list keeps it sorted and one longer |
| Clustering.InsertPerm | blog_generator.py:90 | insertion adds exactly the inserted value to the multiset |
| Clustering.SortedUnique | blog_generator.py:90 | two sorted permutations of the same values are equal |
| Clustering.SortIdempotent | blog_generator.py:90 | sorting twice is sorting once |
| Clustering.ClusterTextChunks | blog_generator.py:71-91 | no embeddings raise `ValueError`; a search error propagates; otherwise the result is the search's indices, sorted |
| Sections.JoinFrom | blog_generator.py:154 | joining succeeds exactly when every entry is a string, and then gives `Text.Join` with `"\n\n"` over the strings; otherwise it raises the `TypeError` naming the first `None` entry |
| Sections.PromptFacts | blog_generator.py:146-160 | the first prompt is its tag and the chunk; a later prompt succeeds exactly when every summary is present, and then holds the joined summaries, the last 200 words of the blog and the chunk after its tag |
| Sections.TagPositions | blog_generator.py:146-160 | the first chunk is tagged "more to come" or "only part", the last of several "last section", the rest "middle section" |
| Sections.PromptFails | blog_generator.py:151-160 | a prompt fails exactly for a later chunk while some summary is `None` |
| Sections.PieceStartsLine | blog_generator.py:164-168 | each piece is appended after a newline unless the blog is empty or already ends a line |
| Sections.AccumulateAddsOnlyNewlines | blog_generator.py:164-168 | streaming only appends the pieces and inserted newlines; the old blog stays a prefix |
| Sections.AccumulateGrows | blog_generator.py:164-168 | the old blog stays a prefix, and streaming adds the pieces plus at most one newline per piece |
| Sections.AccumulateFilter | blog_generator.py:164-168 | with newlines removed, the streamed blog is the old blog followed by the pieces |
| Sections.GenerateBlogSections | blog_generator.py:117-178 | the loop yields, accumulates and raises exactly what the step-by-step specification does |
| Sections.SectionsWith | blog_generator.py:143-176 | for any prompt builder, the loop stops at the first escaping exception and its blog, yields and exception are those of the fold over the chunks |
| Sections.Section | blog_generator.py:146-173 | one iteration either records its prompt's exception, or streams the pieces and then replaces the summaries with the summary of the blog when the stream completed |
| Sections.RunStep | blog_generator.py:143-176 | the fold over one more chunk is one more iteration, as long as nothing escaped |
| Sections.SourcePromptFails | blog_generator.py:146-160 | the source's prompts fail exactly for a later chunk while a summary is `None`, and with the join's `TypeError` for `[None]` |
| Sections.StreamInto | blog_generator.py:164-168 | the inner loop forwards every piece in order and grows the blog by them |
| Sections.RunStops | blog_generator.py:143-176 | once an exception escapes, later chunks change nothing |
| Sections.AtMostOneSummary | blog_generator.py:172-173 | the summaries list is replaced, never appended to, so it holds at most one entry |
| Sections.BlogIsYielded | blog_generator.py:164-168 | without its newlines, the blog is exactly the concatenation of the yielded pieces |
| Sections.RunHoldsYielded | blog_generator.py:143-176 | after every chunk, the blog without newlines is the yielded pieces without newlines |
| Sections.StepKeepsText | blog_generator.py:146-176 | one iteration keeps the blog, without newlines, equal to what was yielded |
| Sections.StreamedText | blog_generator.py:164-168 | streaming more pieces keeps the blog, without newlines, equal to what was yielded |
| Sections.RunRaises | blog_generator.py:151-176 | the loop raises only the `TypeError` of joining a `[None]` summary list |
| Sections.FailedSummaryRaises | blog_generator.py:151-173 | after a section whose summary failed, the next chunk raises |
| Sections.GenerateBlogFromText | blog_generator.py:180-187 | a splitter error is the generator's exception with nothing yielded; otherwise it yields what the section loop yields on the cleaned, split text and ends with the loop's exception |
| Sections.GenerateBlog | blog_generator.py:180-187 | running the generator to its end gives the pieces and exception of `GenerateBlogFromText` |
| Fetcher.FirstParseSpec | fetcher.py:25-41 | a parse is found exactly when some script has text that parses, and then it is the first such script's |
| Fetcher.ExtractJsonFromScript | fetcher.py:25-41 | the early-return loop returns the first script's parse |
| Fetcher.ExtractMessages | fetcher.py:43-60 | the nested loops compute the extracted pairs or the first error |
| Fetcher.CollectEntries | fetcher.py:50-58 | the outer loop returns the kept pairs of all entries, or the error of the first entry that cannot be read |
| Fetcher.EntriesStep | fetcher.py:50-54 | reading one more entry either fails with its error or extends the list by it |
| Fetcher.AppendKept | fetcher.py:56-58 | the inner loop appends the entry's kept parts in order |
| Fetcher.Kept | fetcher.py:56-58 | every kept pair carries the entry's author and a truthy part other than the placeholder, and every such part of the entry is kept |
| Fetcher.EntriesPrefixError | fetcher.py:50-54 | an entry that cannot be read makes the whole call raise its error |
| Fetcher.CollectedKept | fetcher.py:56-58 | no extracted part is falsy or the placeholder, and there are no more pairs than parts |
| Fetcher.MessagesAreKept | fetcher.py:43-60 | what `extract_messages` returns holds only kept parts, at most one per part |
| Fetcher.CollectedAppend | fetcher.py:50-58 | the pairs of earlier entries come first |
| Fetcher.KeptAppend | fetcher.py:56-58 | within an entry the parts keep their order |
| Fetcher.WalkEmpty | fetcher.py:48 | walking down from `{}` stays at `{}` |
| Fetcher.MissingKeyNoMessages | fetcher.py:48 | a key missing anywhere on the path to `linear_conversation` gives no messages and no error |
| Fetcher.UnknownAuthor | fetcher.py:52 | a message without author or role is attributed to `"unknown"` |
| Processor.Format | archived/processor.py:9-12 | the role is "User" exactly for author `"user"`, else "ChatGPT"; the content is the matching tag followed by the stripped text |
| Processor.CleanAndFormatMessages | archived/processor.py:3-13 | the loop returns the formatted entries, or the `AttributeError` of the first part that is not a string |
| Processor.FormatAllFacts | archived/processor.py:3-13 | formatting succeeds exactly when every part is a string, keeps number and order, and otherwise fails at the first non-string part |
| Processor.FirstNonText | archived/processor.py:8-11 | the position found is the first part that is not a string |
| Processor.SegmentsFacts | archived/processor.py:15-24 | the segments concatenate to the messages, all but the last have the full size, and there are ceil(n / size) of them |
| Processor.SegmentMessages | archived/processor.py:15-24 | a zero size raises `ValueError`, a negative size gives no segments, a positive size gives the segments |
| ArchivedGenerator.GenerateBlogSections | archived/blog_generator.py:19-68 | the loop returns the blog the specification builds segment by segment |
| ArchivedGenerator.WriteSections | archived/blog_generator.py:25-65 | for any prompt wording, the loop returns the blog of the fold over the segments |
| ArchivedGenerator.NextKeepsParagraphs | archived/blog_generator.py:53-65 | one segment keeps the blog equal to the sections so far, each followed by a blank line |
| ArchivedGenerator.NextKeepsStripped | archived/blog_generator.py:53-65 | one segment adds at most one section, and a stripped one |
| ArchivedGenerator.BlogIsSections | archived/blog_generator.py:53-68 | the blog is the successful sections, each followed by a blank line, in segment order |
| ArchivedGenerator.SectionsShape | archived/blog_generator.py:53-65 | there is at most one section per segment and every section is stripped |
| ArchivedGenerator.BlogGrows | archived/blog_generator.py:53-65 | the blog only grows; a segment leaves it unchanged exactly when its call raised, otherwise it appends the stripped answer and a blank line |
| ArchivedGenerator.PromptEmbedsBlog | archived/blog_generator.py:28-52 | the first prompt does not depend on the blog; every later prompt embeds the whole current blog before the segment |
| Scraper.Line | scraper.py:113-116 | a pair is written as `expert-1` for the user and `expert-2` for any other role, followed by a blank line |
| Scraper.ChatGPTScraper.constructor | scraper.py:12-20 | a new scraper holds its URL and nothing else |
| Scraper.ChatGPTScraper.FetchHtmlContent | scraper.py:29-39 | the page text is the response, or nothing when the request failed; no other field changes |
| Scraper.ChatGPTScraper.ExtractJsonFromScript | scraper.py:41-61 | without page text nothing changes; otherwise the JSON is the first script's parse, or `None` |
| Scraper.ChatGPTScraper.ExtractMessages | scraper.py:63-98 | falsy JSON changes nothing; the title is set once the path resolves; the pairs are set once every entry is read; a bad entry raises after the title is set |
| Scraper.TitleResolves | scraper.py:73-86 | when the path to `linear_conversation` resolves, so does the path to `title` |
| Scraper.ConversationFirst | scraper.py:73-79 | a path that does not resolve makes extraction raise that error |
| Scraper.ChatGPTScraper.GetFullConversation | scraper.py:100-117 | the JSON, title and pairs are those the three steps leave, from the response and the old fields; an exception of `extract_messages` is the result; otherwise `""` without pairs and their transcript with them |
| Scraper.FullConversationOf | scraper.py:63-117 | JSON that yields pairs gives their transcript whatever the scraper held before; falsy JSON raises nothing and leaves the earlier pairs in place |
| Scraper.WriteTranscript | scraper.py:112-117 | the loop writes the transcript of the pairs |
| Scraper.TranscriptAppend | scraper.py:112-116 | the transcript of consecutive pair lists is their transcripts concatenated |
| Scraper.TranscriptEnds | scraper.py:114-116 | a non-empty transcript ends in a blank line |
| JsonText.EscapeChar | app.py:44-48 | a written character is printable ASCII and starts with a backslash exactly when it needed escaping |
| JsonText.Escape | app.py:44-48 | the body of a string literal is printable ASCII |
| JsonText.Quote | app.py:44-48 | a string literal is printable ASCII between double quotes |
| JsonText.ParseHex4Inverse | app.py:44-48 | reading back four written hexadecimal digits gives the number |
| JsonText.UnescapeChar | app.py:44-48 | one escaped character is read back as itself, whatever follows |
| JsonText.UnescapeEscape | app.py:44-48 | reading back the written body of a string gives the string |
| Progress.GenerateBlogWithProgress | app.py:23-63 | the generator's output is one frame per event of the run, in order |
| Progress.Send | app.py:25-63 | each event becomes `data: `, its JSON and a blank line |
| Progress.RunEvents | app.py:23-63 | the branches yield the stage events, the forwarded pieces and the final verdict |
| Progress.EventsAfterParse | app.py:34-63 | from the messages stage on, the events are those of the specification |
| Progress.EventsAfterExtract | app.py:36-63 | a cleaning error, no messages or the generation stage, as specified |
| Progress.EventsAtParse | app.py:25-36 | a run stopped at the messages stage sends the first four stage events, then its verdict |
| Progress.EventsAtGeneration | app.py:25-54 | a run that reaches generation sends the first four stage events, the generation stage, one event per piece and its verdict |
| Progress.GenerationEvents | app.py:40-54 | the generation stage event, one progress-80 event per piece, then success or the exception's event |
| Progress.ForwardEvents | app.py:43-48 | one progress-80 event per piece, in order |
| Progress.Forwards | app.py:43-48 | the forwarding events carry the pieces one by one |
| Progress.CrashVerdict | app.py:61-63 | the exception's event reports 100 and an `Error:` status |
| Progress.FixedVerdicts | app.py:50-60 | success and the three error events are verdicts |
| Progress.AfterParseWellFormed | app.py:34-63 | every run past the JSON stage ends in exactly one verdict at progress 100 |
| Progress.AfterExtractWellFormed | app.py:36-63 | every run past the extraction ends in one verdict at progress 100 |
| Progress.GeneratedWellFormed | app.py:40-63 | every run that generates ends in one verdict at progress 100 |
| Progress.RunWellFormed | app.py:23-63 | every run reaches the fetch stage, forwards pieces only during generation, and ends in a verdict at 100 |
| Progress.FrameIsOneEvent | app.py:25-63 | a frame is a single `data: ` line followed by an empty line |
| Progress.EncodePrintable | app.py:25-63 | the JSON of every event is printable ASCII, so it holds no line break |
| Progress.PieceSurvives | app.py:44-48 | the chunk's literal reads back as exactly the generated piece |
| Progress.FramesAppend | app.py:25-63 | frames of events written one after the other |
| Progress.OutcomeStarts | app.py:25-27 | the first two events report progress 0 and 10 |
| Progress.OutcomeMonotone | app.py:25-63 | progress never decreases along the stream |
| Progress.OutcomeEnds | app.py:50-63 | exactly one event reports 100, the last, and it is the verdict |
| Progress.OutcomeForwards | app.py:43-48 | the progress-80 events carry exactly the generated pieces, in order |
| Progress.ForwardedOfForwards | app.py:43-48 | the pieces read off the forwarding events are the pieces |
| Progress.NoPiecesInStages | app.py:25-40 | the stage events carry no piece |
| Progress.EventsShape | app.py:23-63 | for every URL the stream starts at 0 and 10, never goes back, and ends in exactly one verdict at 100 |
| Progress.FetchFailure | app.py:28-30 | a failed or empty fetch gives the events 0, 10 and the fetch error |
| Progress.GenerationReached | app.py:34-54 | once the messages are cleaned into a non-empty list the run forwards the pieces generated from the joined contents, and succeeds exactly when generation raised nothing |
| Progress.PiecesForwarded | app.py:41-48 | the client receives the generated pieces unchanged and in order |
| Client.ParseInlineMarkdown | script.js:114-137 | the loop returns the text runs between `**` markers, bold toggled at each |
| Client.Segments | script.js:119-130 | there is at least one segment |
| Client.Parts | script.js:121-134 | every run is a non-empty text item |
| Client.SegmentsJoin | script.js:119-130 | joining the segments with `**` gives the text back |
| Client.SegmentsHaveNoMarker | script.js:119-130 | no segment contains `**`, and a segment before a marker does not end in `*` |
| Client.PartsText | script.js:114-137 | the runs concatenate to the text with its markers removed |
| Client.PartsParity | script.js:121-133 | each run is bold exactly when an odd number of markers precede it |
| Client.PartsComplete | script.js:121-133 | every non-empty segment becomes a run |
| Client.SegmentChars | script.js:119-130 | every character of a segment comes from the text |
| Client.StyledNoNewline | script.js:114-137 | the runs of a line hold no newline |
| Client.HeadingLevel | script.js:158 | the level is the length of the leading `#` run |
| Client.HeadingParts | script.js:158-160 | a heading's text is a suffix of the line, separated from the `#` run by whitespace only |
| Client.FlushOk | script.js:84-88 | flushing the paragraph keeps the queue well framed and only appends |
| Client.ScanLineOk | script.js:81-99 | one line keeps every heading framed by newline items and only appends |
| Client.EndLineOk | script.js:90-92 | closing the line with a newline item unless it already ends in one keeps the queue framed and only appends |
| Client.HeadingOk | script.js:94-95 | a heading queued at the start of a line and followed by a newline item keeps the queue framed |
| Client.ScanLinesOk | script.js:81-100 | the lines keep the queue well framed and only append |
| Client.EnqueueOk | script.js:78-105 | queueing new content keeps every heading framed by newline items and only appends |
| Client.ParagraphLines | script.js:96-99 | lines that are not headings form one paragraph, joined with single spaces |
| Client.ProcessedOk | script.js:76-112 | processing keeps the queue well framed and leaves no newline in the accumulated text |
| Client.ProcessedKeepsTail | script.js:76-112 | only whole lines are queued before the end; the text after the last newline is kept; at the end nothing is kept |
| Client.RestFacts | script.js:77-111 | the accumulated text is split at its last newline into the part processed and the part kept |
| Client.HandledOk | script.js:49-69 | handling a line keeps the state well formed and the line buffer unchanged |
| Client.ReceivedOk | script.js:54-68 | a parsed update keeps the state well formed |
| Client.HandledAllOk | script.js:49-70 | handling the lines keeps the state well formed |
| Client.HandledLines | script.js:49-69 | a line without `data: ` changes nothing; a final event shows the copy button; an unparsable one stops the chain |
| Client.TransitionsKeepValid | script.js:37-112 | every transition keeps the queue framed and the buffers free of newlines |
| Client.TypedNextOk | script.js:139-146 | typing the next item keeps the state well formed |
| Client.ReadOk | script.js:45-70 | handling the complete lines and keeping the unterminated tail as the buffer keeps the state well formed |
| Client.ProcessedValid | script.js:76-112 | processing the accumulated text keeps the state well formed |
| Client.BlogClient.constructor | script.js:12-35 | the reset state: empty buffers and queue, progress 0, not typing |
| Client.BlogClient.TypeNextItem | script.js:139-146 | an empty queue stops typing; otherwise the first item is taken off and rendered |
| Client.BlogClient.ProcessAccumulated | script.js:76-112 | the state becomes the processed state |
| Client.BlogClient.Consume | script.js:78-110 | the queue gains the content's items, the chunk is counted, and typing starts if idle |
| Client.BlogClient.EnqueueContent | script.js:79-105 | only the queue changes, gaining the content's items |
| Client.BlogClient.QueueLines | script.js:81-100 | the lines are scanned into the queue in order, and the paragraph left open is returned |
| Client.BlogClient.QueueLine | script.js:81-99 | one line is scanned into the queue and paragraph buffer |
| Client.BlogClient.HandleLine | script.js:49-69 | one line is handled as specified |
| Client.BlogClient.Receive | script.js:54-68 | a parsed update is processed as specified |
| Client.BlogClient.ShowProgress | script.js:59-68 | a present progress value goes to the bar, and exactly 100 reveals the copy button; nothing else changes |
| Client.BlogClient.Read | script.js:37-74 | complete lines are handled in order, the unterminated tail stays in the buffer, and the state stays well formed |
| Client.BlogClient.HandleLines | script.js:49-70 | the lines are handled in order until one throws |
| Client.BlogClient.Finish | script.js:39-42 | the end of the stream queues everything left and empties the accumulated text |
| Text.SplitLines | script.js:46 | `split('\n')` is never empty, its pieces hold no newline, and joining them restores the text |
| Text.WordsOfJoin | blog_generator.py:113-114 | splitting words joined with single spaces gives the words back |
| Text.DecimalValue | app.py:25 | the decimal numeral of a progress value reads back as the value |

## Left out

- The semantic splitter (`split_text_into_chunks`), the embeddings (`get_embeddings`), k-means training and the nearest-neighbour search: these are library calls on floating point, so they are parameters.
- The language-model calls (`chain.stream`, `chain.invoke` in `summarize_section`, `openai.chat.completions.create`): these are parameters, because their output is not determined by the program. `summarize_section` is the parameter `summarize`, which gives `None` when its call raises.
- The HTTP requests, BeautifulSoup's script discovery, `json.loads`, `JSON.parse`, the `TextDecoder`, and Python's `str()` and JavaScript's `String()` of non-string values: these are parameters or, for the decoder, already-decoded text.
- Flask routing (`index`, `serve_static`, `generate_blog`), logging, `print`, `tqdm` progress bars and the `log_error` helper: these are I/O only.
- Progress.GenerateBlogWithProgress: the generator is lazy, but the model computes the run's events and then writes them. The order and content of the frames are modelled; interleaving with the consumer is not.
- Client.BlogClient.TypeNextItem: the DOM work is not modelled. That covers creating paragraphs, spans and `h<level>` elements, the newline item's empty-paragraph rule, scrolling, and the `requestAnimationFrame` reschedule. The heading level and text the DOM would receive are modelled by `HeadingLevel` and `HeadingText`.
- `updateProgress`, the copy button's clipboard handler and the console messages: only the progress value and the copy button's visibility are kept in the state.
- Sections.GenerateBlogSections: the prompt template wrapped around `prompt_text` and the model parameters are inside the `stream` parameter.
- The wording of the prompts is a `Wording` value. The lemmas hold for any wording, and the methods use the source's text.
- The section loop of blog_generator.py is proved for any prompt builder (`Sections.SectionsWith`). `Sections.RunRaises` and `Sections.FailedSummaryRaises` hold for every builder that fails only where joining the summaries does, and `Sections.SourcePromptFails` shows that the source's builder is one of them.
- The `Document` wrapper is represented by its `page_content` string.
- A JSON object is a list of key/value pairs. A key listed twice keeps its last value, as `json.loads` and `JSON.parse` do. Iterating over an object visits the keys as listed. A parsed object never repeats a key, but the model does not enforce that.
- writer_agent.py, main.py and archived/main.py are not part of this model; they are entry points and an unrelated agent graph.
- `get_chat_url` in fetcher.py reads from the console and is left out.
- Creating the `ChatOpenAI` client is assumed to succeed. If it raised at blog_generator.py:121, the generator would fail before yielding anything. If it raised at blog_generator.py:98, outside the `try` of `summarize_section`, the loop's `except` at line 175 would catch it and `summaries` would keep its old value instead of becoming `[None]`. Neither case is modelled.
