/**
 * Size-based chunking (`adjust_chunk_sizes`) and the trailing word window
 * (`extract_last_200_words`) of blog_generator.py. A document is represented
 * by its `page_content` string.
 */
module Chunking {
  import opened Text

  const DesiredChunkSize: int := 1500
  const Overlap: int := 200
  const WindowWords: nat := 200

  function Min(a: int, b: int): int { if a <= b then a else b }
  function Max(a: int, b: int): int { if a <= b then b else a }

  /** Python's `s[-overlap:]`; note that `s[-0:]` is the whole of `s`. */
  function TailSlice(s: string, overlap: int): (r: string)
    ensures |r| <= |s| && r == s[|s| - |r|..]
    ensures overlap > 0 ==> |r| == Min(overlap, |s|)
    ensures overlap == 0 ==> r == s
    ensures overlap < 0 ==> |r| == Max(0, |s| + overlap)
  {
    var start := -overlap;
    var from := if start < 0 then Max(0, start + |s|) else Min(start, |s|);
    s[from..]
  }

  // ---------------------------------------------------------------------------
  // The loop of adjust_chunk_sizes as a fold over the documents

  /** After some documents: the raw buffers emitted so far and the buffer `temp_text`. */
  datatype ChunkerState = ChunkerState(emitted: seq<string>, temp: string)

  /** One iteration: append the document and a space; emit and keep the tail once long enough. */
  function Feed(st: ChunkerState, doc: string, desired: int, overlap: int): ChunkerState {
    var t := st.temp + doc + " ";
    if |t| >= desired then ChunkerState(st.emitted + [t], TailSlice(t, overlap))
    else ChunkerState(st.emitted, t)
  }

  function FeedAll(docs: seq<string>, desired: int, overlap: int): ChunkerState
    decreases |docs|
  {
    if docs == [] then ChunkerState([], "")
    else Feed(FeedAll(docs[..|docs| - 1], desired, overlap), docs[|docs| - 1], desired, overlap)
  }

  function StripAll(bufs: seq<string>): (r: seq<string>)
    ensures |r| == |bufs| && forall j :: 0 <= j < |bufs| ==> r[j] == PyStrip(bufs[j])
  {
    seq(|bufs|, j requires 0 <= j < |bufs| => PyStrip(bufs[j]))
  }

  /** The documents `adjust_chunk_sizes` returns: every emitted buffer stripped, then the final flush. */
  function Chunks(docs: seq<string>, desired: int, overlap: int): seq<string> {
    var st := FeedAll(docs, desired, overlap);
    StripAll(st.emitted) + (if st.temp != "" then [PyStrip(st.temp)] else [])
  }

  /** `adjust_chunk_sizes(docs, desired_chunk_size, overlap)`. */
  method AdjustChunkSizes(docs: seq<string>, desired: int, overlap: int) returns (adjusted: seq<string>)
    ensures adjusted == Chunks(docs, desired, overlap)
    ensures docs == [] ==> adjusted == []
    ensures docs != [] ==> 1 <= |adjusted| <= |docs| + 1
  {
    adjusted := [];
    var temp := "";
    ghost var emitted: seq<string> := [];
    for i := 0 to |docs|
      invariant FeedAll(docs[..i], desired, overlap) == ChunkerState(emitted, temp)
      invariant adjusted == StripAll(emitted)
    {
      assert docs[..i + 1][..i] == docs[..i];
      temp := temp + docs[i] + " ";
      if |temp| >= desired {
        adjusted := adjusted + [PyStrip(temp)];
        emitted := emitted + [temp];
        temp := TailSlice(temp, overlap);
      }
    }
    assert docs[..|docs|] == docs;
    if temp != "" {
      adjusted := adjusted + [PyStrip(temp)];
    }
    FeedAllCount(docs, desired, overlap);
  }

  /** At most one buffer per document is emitted, and once a document is read something is pending or emitted. */
  lemma {:induction false} FeedAllCount(docs: seq<string>, desired: int, overlap: int)
    ensures var st := FeedAll(docs, desired, overlap);
      |st.emitted| <= |docs| && (docs != [] ==> st.emitted != [] || st.temp != "")
      && (docs == [] ==> st == ChunkerState([], ""))
    decreases |docs|
  {
    if docs != [] {
      FeedAllCount(docs[..|docs| - 1], desired, overlap);
    }
  }

  /** The carry a buffer starts from: nothing for the first, the overlap tail of the previous one otherwise. */
  function Carry(bufs: seq<string>, j: nat, overlap: int): string
    requires j <= |bufs|
  {
    if j == 0 then "" else TailSlice(bufs[j - 1], overlap)
  }

  function DropPrefix(s: string, n: nat): string {
    if n <= |s| then s[n..] else ""
  }

  /** The text the emitted buffers added beyond the carries they started from. */
  function FreshText(bufs: seq<string>, overlap: int): string
    decreases |bufs|
  {
    if bufs == [] then ""
    else FreshText(bufs[..|bufs| - 1], overlap) + DropPrefix(bufs[|bufs| - 1], |Carry(bufs, |bufs| - 1, overlap)|)
  }

  /** Every document followed by one space: the text the loop appends. */
  function DocsText(docs: seq<string>): string
    decreases |docs|
  {
    if docs == [] then "" else DocsText(docs[..|docs| - 1]) + docs[|docs| - 1] + " "
  }

  predicate AllLong(bufs: seq<string>, desired: int) {
    forall j :: 0 <= j < |bufs| ==> |bufs[j]| >= desired
  }

  predicate CarriesOk(st: ChunkerState, overlap: int) {
    && (forall j :: 0 <= j < |st.emitted| ==> Carry(st.emitted, j, overlap) <= st.emitted[j])
    && Carry(st.emitted, |st.emitted|, overlap) <= st.temp
  }

  /** Every emitted buffer had reached `desired` characters. */
  lemma {:induction false} EmittedLong(docs: seq<string>, desired: int, overlap: int)
    ensures AllLong(FeedAll(docs, desired, overlap).emitted, desired)
    decreases |docs|
  {
    if docs != [] {
      var init := docs[..|docs| - 1];
      EmittedLong(init, desired, overlap);
      var st := FeedAll(init, desired, overlap);
      var t := st.temp + docs[|docs| - 1] + " ";
      assert FeedAll(docs, desired, overlap) == Feed(st, docs[|docs| - 1], desired, overlap);
      if |t| >= desired {
        var E' := st.emitted + [t];
        assert FeedAll(docs, desired, overlap).emitted == E';
        forall j | 0 <= j < |E'| ensures |E'[j]| >= desired {
          if j < |st.emitted| { assert E'[j] == st.emitted[j]; }
        }
      } else {
        assert FeedAll(docs, desired, overlap).emitted == st.emitted;
      }
    }
  }

  lemma CarryAppend(bufs: seq<string>, t: string, j: nat, overlap: int)
    requires j <= |bufs|
    ensures Carry(bufs + [t], j, overlap) == Carry(bufs, j, overlap)
  {
    if j > 0 {
      assert (bufs + [t])[j - 1] == bufs[j - 1];
    }
  }

  /** One document read keeps every carry a prefix of the buffer it starts. */
  lemma FeedKeepsCarries(st: ChunkerState, d: string, desired: int, overlap: int)
    requires CarriesOk(st, overlap)
    ensures CarriesOk(Feed(st, d, desired, overlap), overlap)
  {
    var E := st.emitted;
    var t := st.temp + d + " ";
    assert st.temp <= t;
    if |t| >= desired {
      var E' := E + [t];
      forall j | 0 <= j < |E'| ensures Carry(E', j, overlap) <= E'[j] {
        CarryAppend(E, t, j, overlap);
        if j < |E| {
          assert E'[j] == E[j];
        }
      }
      assert Carry(E', |E'|, overlap) == TailSlice(t, overlap);
    }
  }

  /** Every buffer, emitted or pending, began with the overlap tail of the buffer emitted before it. */
  lemma {:induction false} CarriesArePrefixes(docs: seq<string>, desired: int, overlap: int)
    ensures CarriesOk(FeedAll(docs, desired, overlap), overlap)
    decreases |docs|
  {
    if docs != [] {
      var init := docs[..|docs| - 1];
      CarriesArePrefixes(init, desired, overlap);
      FeedKeepsCarries(FeedAll(init, desired, overlap), docs[|docs| - 1], desired, overlap);
    }
  }

  /** Carries aside, the buffers of `st` hold exactly `text`. */
  predicate Accounts(st: ChunkerState, text: string, overlap: int) {
    |Carry(st.emitted, |st.emitted|, overlap)| <= |st.temp|
    && FreshText(st.emitted, overlap) + st.temp[|Carry(st.emitted, |st.emitted|, overlap)|..] == text
  }

  lemma FreshTextAppend(bufs: seq<string>, t: string, overlap: int)
    ensures FreshText(bufs + [t], overlap) == FreshText(bufs, overlap) + DropPrefix(t, |Carry(bufs, |bufs|, overlap)|)
  {
    assert (bufs + [t])[..|bufs|] == bufs;
    CarryAppend(bufs, t, |bufs|, overlap);
  }

  /** One document read appends exactly that document and a space to the accounted text. */
  lemma FeedAccounts(st: ChunkerState, text: string, d: string, desired: int, overlap: int)
    requires CarriesOk(st, overlap) && Accounts(st, text, overlap)
    ensures Accounts(Feed(st, d, desired, overlap), text + d + " ", overlap)
  {
    var t := st.temp + d + " ";
    AppendedPart(text, st.temp, d);
    if |t| >= desired {
      EmitAccounts(st, text, t, overlap);
    } else {
      GrowAccounts(st, text, t, overlap);
    }
  }

  lemma AppendedPart(text: string, temp: string, d: string)
    ensures text + (temp + d + " ")[|temp|..] == text + d + " "
  {
    calc {
      text + (temp + d + " ")[|temp|..];
      { assert (temp + d + " ")[|temp|..] == d + " "; }
      text + (d + " ");
      text + d + " ";
    }
  }

  lemma GrowAccounts(st: ChunkerState, text: string, t: string, overlap: int)
    requires Accounts(st, text, overlap) && st.temp <= t
    ensures Accounts(ChunkerState(st.emitted, t), text + t[|st.temp|..], overlap)
  {
    var c := Carry(st.emitted, |st.emitted|, overlap);
    Regroup(FreshText(st.emitted, overlap), st.temp, t, text, |c|);
  }

  /** If `done` followed by `temp` from `i` on is `text`, then `done` followed by the longer `t` from `i` on is `text` and the rest of `t`. */
  lemma Regroup(done: string, temp: string, t: string, text: string, i: nat)
    requires i <= |temp| && temp <= t && done + temp[i..] == text
    ensures done + t[i..] == text + t[|temp|..]
  {
    assert t[i..] == temp[i..] + t[|temp|..];
  }

  lemma EmitAccounts(st: ChunkerState, text: string, t: string, overlap: int)
    requires Accounts(st, text, overlap) && st.temp <= t
    ensures Accounts(ChunkerState(st.emitted + [t], TailSlice(t, overlap)), text + t[|st.temp|..], overlap)
  {
    var E := st.emitted;
    var c := Carry(E, |E|, overlap);
    var tail := TailSlice(t, overlap);
    FreshTextAppend(E, t, overlap);
    assert Carry(E + [t], |E| + 1, overlap) == tail;
    assert tail[|tail|..] == "";
    Regroup(FreshText(E, overlap), st.temp, t, text, |c|);
  }

  /**
   * Carries aside, the emitted buffers and the pending one hold exactly the
   * appended text: no document text is dropped.
   */
  lemma {:induction false} NothingDropped(docs: seq<string>, desired: int, overlap: int)
    ensures Accounts(FeedAll(docs, desired, overlap), DocsText(docs), overlap)
    decreases |docs|
  {
    if docs != [] {
      var init := docs[..|docs| - 1];
      NothingDropped(init, desired, overlap);
      CarriesArePrefixes(init, desired, overlap);
      FeedAccounts(FeedAll(init, desired, overlap), DocsText(init), docs[|docs| - 1], desired, overlap);
    }
  }

  /**
   * Each chunk emitted inside the loop of `adjust_chunk_sizes` is a stripped
   * buffer of at least `desired` characters.
   */
  lemma ChunkIsLongBuffer(docs: seq<string>, desired: int, overlap: int, j: nat)
    requires j < |FeedAll(docs, desired, overlap).emitted|
    ensures Chunks(docs, desired, overlap)[j] == PyStrip(FeedAll(docs, desired, overlap).emitted[j])
    ensures |FeedAll(docs, desired, overlap).emitted[j]| >= desired
  {
    EmittedLong(docs, desired, overlap);
    var E := FeedAll(docs, desired, overlap).emitted;
    assert Chunks(docs, desired, overlap)[j] == StripAll(E)[j];
  }

  /** The buffer after an emitted one (emitted or pending) starts with its `overlap` tail. */
  lemma ChunkOverlap(docs: seq<string>, desired: int, overlap: int, j: nat)
    requires j < |FeedAll(docs, desired, overlap).emitted|
    ensures j + 1 < |FeedAll(docs, desired, overlap).emitted| ==>
      TailSlice(FeedAll(docs, desired, overlap).emitted[j], overlap) <= FeedAll(docs, desired, overlap).emitted[j + 1]
    ensures j + 1 == |FeedAll(docs, desired, overlap).emitted| ==>
      TailSlice(FeedAll(docs, desired, overlap).emitted[j], overlap) <= FeedAll(docs, desired, overlap).temp
  {
    CarriesArePrefixes(docs, desired, overlap);
    var E := FeedAll(docs, desired, overlap).emitted;
    assert Carry(E, j + 1, overlap) == TailSlice(E[j], overlap);
  }

  // ---------------------------------------------------------------------------
  // extract_last_200_words

  /** `" ".join(text.split()[-200:])`. */
  function ExtractLast200Words(text: string): string {
    var ws := Words(text);
    Join(" ", ws[|ws| - Min(WindowWords, |ws|)..])
  }

  /** The window holds the last min(200, n) words of the text, in order, and nothing else. */
  lemma LastWords(text: string)
    ensures var ws := Words(text);
      Words(ExtractLast200Words(text)) == ws[|ws| - Min(WindowWords, |ws|)..]
      && |Words(ExtractLast200Words(text))| == Min(WindowWords, |ws|)
  {
    var ws := Words(text);
    WordsOfJoin(ws[|ws| - Min(WindowWords, |ws|)..]);
  }
}
