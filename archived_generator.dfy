/**
 * archived/blog_generator.py: `generate_blog_sections`, which asks a chat
 * model for one blog section per segment of messages and appends each
 * stripped answer followed by a blank line; a segment whose call raises is
 * skipped. The completion call (including reading and stripping the reply
 * text, which can also raise) is the parameter `complete`, which gives
 * `None` when anything in the `try` raised. `show` is Python's `str()` of
 * a segment, as the f-string renders it.
 */
module ArchivedGenerator {
  import opened PyValues
  import opened Text

  /** One entry of the `messages` list sent to the chat completion endpoint. */
  datatype ChatMessage = ChatMessage(role: string, content: string)

  /**
   * The fixed text around the interpolated values: the system message, the
   * first prompt before and after the segment, and the continuation prompt
   * before the blog, between blog and segment, and after the segment. The
   * lemmas hold whatever the wording; `SourceWording` is the source's text.
   */
  datatype Wording = Wording(system: string, firstHead: string, firstTail: string,
                             nextHead: string, nextMiddle: string, nextTail: string)

  const SourceWording: Wording := Wording(
    "You are an expert content marketer and SEO friendly blog writer. You are designed to take chat conversations between users and ChatGPT and output detailed blog posts with insights and information from the provided user chat content.",
    "\n            You are a helpful assistant. Write a detailed blog section based on the following text. Use the most useful and publishworthy information from the attached chat conversation. Use the user's messages and create a narrative from user's perspective about the curiosity they chase in the conversation. Preserve all the important facts, terminologies, jargon, insights and information from the conversation from the attached conversation between the user and ChatGPT. \n            Your result should be comprehensive and engaging, focusing on key points and relevant details. Avoid introductory phrases like 'In this passage'. Provide a natural flow of information that fits seamlessly into a blog.\n            Writing style: Casual conversational, informational, insightful, deeply profound, engaging, talking directly to the reader, short simple linear active voice\n            DO NOT USE THESE WORDS - [It's like, It's about, Isn't about, Isn't just, Delve, Imagine, consequently, in addition to, In conclusion, transformative, fostering, but also, not only]\n            Write cohesive paragraph style blog style content. \n            Passage:\n            ",
    "\n            BLOG SECTION:\n            ",
    "\n            You are a helpful assistant. Continue writing a detailed blog that has the most useful and publishworthy information from the attached chat conversation. Preserve all the important facts, terminologies, jargon, insights and information from the conversation from the attached conversation between the user and ChatGPT. \n            Ensure the new section fits naturally and flows seamlessly with the previous sections. Avoid repetitive information and maintain coherence.\n            Writing style: Casual conversational, informational, insightful, deeply profound, engaging, talking directly to the reader, short simple linear active voice\n            DO NOT USE THESE WORDS  - [It's like, It's about, Isn't about, Isn't just, Delve, Imagine, consequently, in addition to, In conclusion, transformative, fostering, but also, not only]\n            Write cohesive paragraph style blog style content. Write human like content with variable size paragraphs and natural conversational content flow. \n            Current Blog Content:\n            ",
    "\n\n            New Messages:\n            ",
    "\n            CONTINUE BLOG SECTION:\n            ")

  /** The f-string for segment `i`: the first one stands alone, later ones embed the whole blog so far. */
  function Prompt(w: Wording, i: nat, segment: string, blog: string): string {
    if i == 0 then Concat([w.firstHead, segment, w.firstTail])
    else Concat([w.nextHead, blog, w.nextMiddle, segment, w.nextTail])
  }

  /** The request for one prompt: the system message, then the prompt as the user's message. */
  function Request(w: Wording, prompt: string): seq<ChatMessage> {
    [ChatMessage("system", w.system), ChatMessage("user", prompt)]
  }

  /** What the model answered for segment `i`, given the blog written before it; `None` when the call raised. */
  function Answer<T>(w: Wording, segments: seq<T>, i: nat, blog: string,
                     show: T -> string, complete: seq<ChatMessage> -> Option<string>): Option<string>
    requires i < |segments|
  {
    complete(Request(w, Prompt(w, i, show(segments[i]), blog)))
  }

  /** `blog_content` and, for the proofs, the sections appended to it so far. */
  datatype Written = Written(blog: string, sections: seq<string>)

  /** One segment: a call that raised leaves everything as it was; an answer is stripped and appended with a blank line. */
  function Next(st: Written, answer: Option<string>): Written {
    match answer
    case None => st
    case Some(text) =>
      var section := PyStrip(text);
      Written(st.blog + section + "\n\n", st.sections + [section])
  }

  /** What is written after the first `k` segments. */
  function Write<T>(w: Wording, segments: seq<T>, k: nat, show: T -> string, complete: seq<ChatMessage> -> Option<string>): Written
    requires k <= |segments|
    decreases k
  {
    if k == 0 then Written("", [])
    else
      var st := Write(w, segments, k - 1, show, complete);
      Next(st, Answer(w, segments, k - 1, st.blog, show, complete))
  }

  /** Each section followed by a blank line, in order. */
  function Paragraphs(sections: seq<string>): string
    decreases |sections|
  {
    if sections == [] then "" else Paragraphs(sections[..|sections| - 1]) + sections[|sections| - 1] + "\n\n"
  }

  /** `generate_blog_sections(segments)`. */
  method GenerateBlogSections<T>(segments: seq<T>, show: T -> string, complete: seq<ChatMessage> -> Option<string>)
    returns (blog: string)
    ensures blog == Write(SourceWording, segments, |segments|, show, complete).blog
  {
    blog := WriteSections(SourceWording, segments, show, complete);
  }

  /** The loop of `generate_blog_sections`, for any wording of the prompts. */
  method WriteSections<T>(w: Wording, segments: seq<T>, show: T -> string, complete: seq<ChatMessage> -> Option<string>)
    returns (blog: string)
    ensures blog == Write(w, segments, |segments|, show, complete).blog
  {
    blog := "";
    for i := 0 to |segments|
      invariant blog == Write(w, segments, i, show, complete).blog
    {
      var prompt := Prompt(w, i, show(segments[i]), blog);
      var response := complete(Request(w, prompt));
      if response.Some? {
        var section := PyStrip(response.value);
        blog := blog + section + "\n\n";
      }
    }
  }

  /** The blog is the successful sections, each followed by a blank line, in segment order. */
  lemma {:induction false} BlogIsSections<T>(w: Wording, segments: seq<T>, k: nat, show: T -> string, complete: seq<ChatMessage> -> Option<string>)
    requires k <= |segments|
    ensures Write(w, segments, k, show, complete).blog == Paragraphs(Write(w, segments, k, show, complete).sections)
    decreases k
  {
    if k > 0 {
      BlogIsSections(w, segments, k - 1, show, complete);
      var st := Write(w, segments, k - 1, show, complete);
      NextKeepsParagraphs(st, Answer(w, segments, k - 1, st.blog, show, complete));
    }
  }

  lemma NextKeepsParagraphs(st: Written, answer: Option<string>)
    requires st.blog == Paragraphs(st.sections)
    ensures Next(st, answer).blog == Paragraphs(Next(st, answer).sections)
  {
    if answer.Some? {
      var s := st.sections + [PyStrip(answer.value)];
      assert s[..|st.sections|] == st.sections;
    }
  }

  /** There is at most one section per segment, so none without segments, and every section is stripped. */
  lemma {:induction false} SectionsShape<T>(w: Wording, segments: seq<T>, k: nat, show: T -> string, complete: seq<ChatMessage> -> Option<string>)
    requires k <= |segments|
    ensures |Write(w, segments, k, show, complete).sections| <= k
    ensures AllStripped(Write(w, segments, k, show, complete).sections)
    decreases k
  {
    if k > 0 {
      SectionsShape(w, segments, k - 1, show, complete);
      var st := Write(w, segments, k - 1, show, complete);
      NextKeepsStripped(st, Answer(w, segments, k - 1, st.blog, show, complete));
    }
  }

  predicate AllStripped(sections: seq<string>) {
    forall j :: 0 <= j < |sections| ==> Stripped(sections[j])
  }

  lemma NextKeepsStripped(st: Written, answer: Option<string>)
    requires AllStripped(st.sections)
    ensures AllStripped(Next(st, answer).sections)
    ensures |Next(st, answer).sections| <= |st.sections| + 1
  {
    if answer.Some? {
      assert Stripped(PyStrip(answer.value));
    }
  }

  /** No leading or trailing whitespace. */
  predicate Stripped(s: string) {
    s == [] || (!IsPySpace(s[0]) && !IsPySpace(s[|s| - 1]))
  }

  /**
   * `blog_content` only grows: a segment leaves it unchanged exactly when
   * its call raised, and otherwise appends the stripped answer and a blank
   * line.
   */
  lemma BlogGrows<T>(w: Wording, segments: seq<T>, k: nat, show: T -> string, complete: seq<ChatMessage> -> Option<string>)
    requires k < |segments|
    ensures var before := Write(w, segments, k, show, complete).blog;
      var after := Write(w, segments, k + 1, show, complete).blog;
      var answer := Answer(w, segments, k, before, show, complete);
      && before <= after
      && (after == before <==> answer.None?)
      && (answer.Some? ==> after == before + PyStrip(answer.value) + "\n\n")
  {
    var before := Write(w, segments, k, show, complete).blog;
    var a := Answer(w, segments, k, before, show, complete);
    if a.Some? {
      var after := before + PyStrip(a.value) + "\n\n";
      assert |after| > |before|;
    }
  }

  /**
   * The first prompt does not depend on the blog; every later prompt holds
   * the whole current blog, right after the fixed opening text, with the
   * segment after it.
   */
  lemma PromptEmbedsBlog(w: Wording, i: nat, segment: string, blog: string, other: string)
    ensures i == 0 ==> Prompt(w, i, segment, blog) == Prompt(w, i, segment, other)
    ensures i > 0 ==> Prompt(w, i, segment, blog) == w.nextHead + blog + w.nextMiddle + segment + w.nextTail
    ensures i > 0 ==> Prompt(w, i, segment, blog)[|w.nextHead|..|w.nextHead| + |blog|] == blog
  {
    if i > 0 {
      ConcatFive(w.nextHead, blog, w.nextMiddle, segment, w.nextTail);
      var p := w.nextHead + blog + w.nextMiddle + segment + w.nextTail;
      assert p == w.nextHead + blog + (w.nextMiddle + segment + w.nextTail);
    }
  }

  lemma ConcatFive(a: string, b: string, c: string, d: string, e: string)
    ensures Concat([a, b, c, d, e]) == a + b + c + d + e
  {
    assert [a, b, c, d, e][..4] == [a, b, c, d];
    assert [a, b, c, d][..3] == [a, b, c];
    assert [a, b, c][..2] == [a, b];
    assert [a, b][..1] == [a];
    assert [a][..0] == [];
    assert Concat([a]) == a;
    assert Concat([a, b]) == a + b;
    assert Concat([a, b, c]) == a + b + c;
    assert Concat([a, b, c, d]) == a + b + c + d;
  }
}
