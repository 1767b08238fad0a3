/**
 * String primitives shared by the Python back end and the browser client:
 * the two languages' whitespace classes, Python's `str.strip()` and
 * `str.split()`, JavaScript's `trim()` and `split('\n')`, and `join`.
 */
module Text {

  /** Python's `str.isspace()` (also what `\s` matches in a `str` regex). */
  predicate IsPySpace(c: char) {
    var k := c as int;
    (9 <= k <= 13) || (0x1C <= k <= 0x20) || k == 0x85 || k == 0xA0 || k == 0x1680
    || (0x2000 <= k <= 0x200A) || k == 0x2028 || k == 0x2029 || k == 0x202F
    || k == 0x205F || k == 0x3000
  }

  /** ECMAScript WhiteSpace and LineTerminator (what `trim()` and `\s` use). */
  predicate IsJsSpace(c: char) {
    var k := c as int;
    (9 <= k <= 13) || k == 0x20 || k == 0xA0 || k == 0x1680
    || (0x2000 <= k <= 0x200A) || k == 0x2028 || k == 0x2029 || k == 0x202F
    || k == 0x205F || k == 0x3000 || k == 0xFEFF
  }

  predicate AllSpace(s: string, ws: char -> bool) {
    forall i :: 0 <= i < |s| ==> ws(s[i])
  }

  /** `s` with its leading whitespace characters removed. */
  function TrimStart(s: string, ws: char -> bool): (r: string)
    ensures |r| <= |s|
    ensures r == [] || !ws(r[0])
    ensures AllSpace(s[..|s| - |r|], ws)
    decreases |s|
  {
    if s != [] && ws(s[0]) then TrimStart(s[1..], ws) else s
  }

  /** What `TrimStart` keeps is a suffix of its input. */
  lemma {:induction false} TrimStartSuffix(s: string, ws: char -> bool)
    ensures TrimStart(s, ws) == s[|s| - |TrimStart(s, ws)|..]
    decreases |s|
  {
    if s != [] && ws(s[0]) {
      TrimStartSuffix(s[1..], ws);
      assert s[1..][|s| - 1 - |TrimStart(s, ws)|..] == s[|s| - |TrimStart(s, ws)|..];
    }
  }

  /** `s` with its trailing whitespace characters removed. */
  function TrimEnd(s: string, ws: char -> bool): (r: string)
    ensures r <= s
    ensures r == [] || !ws(r[|r| - 1])
    ensures AllSpace(s[|r|..], ws)
    decreases |s|
  {
    if s != [] && ws(s[|s| - 1]) then TrimEnd(s[..|s| - 1], ws) else s
  }

  /** Both ends trimmed: Python `strip()` or JavaScript `trim()`. */
  function Trim(s: string, ws: char -> bool): (r: string)
    ensures |r| <= |s|
    ensures r == [] || (!ws(r[0]) && !ws(r[|r| - 1]))
  {
    TrimEnd(TrimStart(s, ws), ws)
  }

  /** The trimmed string is what remains of `s` once its leading and trailing whitespace runs are cut. */
  lemma TrimIsInfix(s: string, ws: char -> bool)
    ensures Lead(s, ws) + |Trim(s, ws)| <= |s| && s[Lead(s, ws)..Lead(s, ws) + |Trim(s, ws)|] == Trim(s, ws)
    ensures AllSpace(s[..Lead(s, ws)], ws) && AllSpace(s[Lead(s, ws) + |Trim(s, ws)|..], ws)
  {
    var t := TrimStart(s, ws);
    var r := TrimEnd(t, ws);
    TrimStartSuffix(s, ws);
    InfixOf(s, t, r, ws);
  }

  /** A prefix `r` of a suffix `t` of `s` sits inside `s`, between what `t` drops and what `r` drops. */
  lemma InfixOf(s: string, t: string, r: string, ws: char -> bool)
    requires |t| <= |s| && t == s[|s| - |t|..] && r <= t
    requires AllSpace(s[..|s| - |t|], ws) && AllSpace(t[|r|..], ws)
    ensures |s| - |t| + |r| <= |s| && s[|s| - |t|..|s| - |t| + |r|] == r
    ensures AllSpace(s[..|s| - |t|], ws) && AllSpace(s[|s| - |t| + |r|..], ws)
  {
    assert s[|s| - |t| + |r|..] == t[|r|..];
  }

  /** The number of leading whitespace characters of `s`. */
  function Lead(s: string, ws: char -> bool): nat {
    |s| - |TrimStart(s, ws)|
  }

  function PyStrip(s: string): string { Trim(s, IsPySpace) }

  function JsTrim(s: string): string { Trim(s, IsJsSpace) }

  lemma {:induction false} TrimStartAllSpace(s: string, ws: char -> bool)
    ensures TrimStart(s, ws) == [] <==> AllSpace(s, ws)
    decreases |s|
  {
    if s != [] && ws(s[0]) {
      TrimStartAllSpace(s[1..], ws);
      assert AllSpace(s, ws) <==> AllSpace(s[1..], ws) by {
        if AllSpace(s[1..], ws) {
          forall i | 0 <= i < |s| ensures ws(s[i]) { if i > 0 { assert s[i] == s[1..][i - 1]; } }
        }
      }
    }
  }

  /** Leading whitespace in front of `z` is trimmed away with the rest of `z`'s. */
  lemma {:induction false} TrimStartSpaces(w: string, z: string, ws: char -> bool)
    requires AllSpace(w, ws)
    ensures TrimStart(w + z, ws) == TrimStart(z, ws)
    decreases |w|
  {
    if w != [] {
      assert (w + z)[1..] == w[1..] + z;
      TrimStartSpaces(w[1..], z, ws);
    } else {
      assert w + z == z;
    }
  }

  /** Once trimming stops inside `x`, whatever follows `x` is kept. */
  lemma {:induction false} TrimStartKeep(x: string, r: string, ws: char -> bool)
    requires TrimStart(x, ws) != []
    ensures TrimStart(x + r, ws) == TrimStart(x, ws) + r
    decreases |x|
  {
    if ws(x[0]) {
      assert (x + r)[1..] == x[1..] + r;
      TrimStartKeep(x[1..], r, ws);
    }
  }

  /** A trimmed string is empty exactly when the original held only whitespace. */
  lemma TrimEmpty(s: string, ws: char -> bool)
    ensures Trim(s, ws) == [] <==> AllSpace(s, ws)
  {
    TrimStartAllSpace(s, ws);
  }

  // ---------------------------------------------------------------------------
  // Python `str.split()` (no argument) and `sep.join(...)`

  predicate IsWord(w: string) {
    w != [] && forall i :: 0 <= i < |w| ==> !IsPySpace(w[i])
  }

  /** The longest prefix of `s` without Python whitespace. */
  function TakeWord(s: string): (w: string)
    ensures w <= s
    ensures forall i :: 0 <= i < |w| ==> !IsPySpace(w[i])
    ensures |w| == |s| || IsPySpace(s[|w|])
    decreases |s|
  {
    if s == [] || IsPySpace(s[0]) then [] else [s[0]] + TakeWord(s[1..])
  }

  /** `s.split()`: the maximal runs of non-whitespace characters, in order. */
  function Words(s: string): (ws: seq<string>)
    ensures forall k :: 0 <= k < |ws| ==> IsWord(ws[k])
    decreases |s|
  {
    var t := TrimStart(s, IsPySpace);
    if t == [] then [] else
      var w := TakeWord(t);
      assert w != [] by { assert !IsPySpace(t[0]); }
      var rest := Words(t[|w|..]);
      var r := [w] + rest;
      assert forall k :: 1 <= k < |r| ==> r[k] == rest[k - 1];
      r
  }

  /** Regrouping a concatenation; stated apart so that proofs about recursive functions need not redo it. */
  lemma AppendAssoc<T>(x: seq<T>, y: seq<T>, z: seq<T>)
    ensures x + (y + z) == (x + y) + z
  {
  }

  /** `sep.join(ws)`. */
  function Join(sep: string, ws: seq<string>): string
    decreases |ws|
  {
    if ws == [] then "" else if |ws| == 1 then ws[0] else ws[0] + sep + Join(sep, ws[1..])
  }

  /** `"".join(ss)`. */
  function Concat(ss: seq<string>): string
    decreases |ss|
  {
    if ss == [] then "" else Concat(ss[..|ss| - 1]) + ss[|ss| - 1]
  }

  lemma {:induction false} ConcatAppend(ss: seq<string>, ts: seq<string>)
    ensures Concat(ss + ts) == Concat(ss) + Concat(ts)
    decreases |ts|
  {
    if ts == [] {
      assert ss + ts == ss;
    } else {
      var init, last := ts[..|ts| - 1], ts[|ts| - 1];
      assert (ss + ts)[..|ss + ts| - 1] == ss + init && (ss + ts)[|ss + ts| - 1] == last;
      ConcatAppend(ss, init);
      AppendAssoc(Concat(ss), Concat(init), last);
    }
  }

  lemma {:induction false} TakeWordOf(w: string, rest: string)
    requires forall i :: 0 <= i < |w| ==> !IsPySpace(w[i])
    requires rest == [] || IsPySpace(rest[0])
    ensures TakeWord(w + rest) == w
    decreases |w|
  {
    if w != [] {
      var s := w + rest;
      assert s[0] == w[0] && !IsPySpace(w[0]);
      assert s[1..] == w[1..] + rest;
      assert forall i :: 0 <= i < |w[1..]| ==> w[1..][i] == w[i + 1];
      TakeWordOf(w[1..], rest);
      assert [w[0]] + w[1..] == w;
    } else {
      assert w + rest == rest;
    }
  }

  /** Joining words with single spaces and splitting again gives the words back. */
  lemma {:induction false} WordsOfJoin(ws: seq<string>)
    requires forall k :: 0 <= k < |ws| ==> IsWord(ws[k])
    ensures Words(Join(" ", ws)) == ws
    decreases |ws|
  {
    if ws == [] {
    } else if |ws| == 1 {
      WordsCons(ws[0], "");
      assert ws[0] + "" == ws[0];
      SeqCons(ws);
    } else {
      var tail := ws[1..];
      assert forall k :: 0 <= k < |tail| ==> IsWord(tail[k]) by {
        forall k | 0 <= k < |tail| ensures IsWord(tail[k]) { assert tail[k] == ws[k + 1]; }
      }
      var rest := Join(" ", tail);
      assert Join(" ", ws) == ws[0] + (" " + rest);
      assert IsPySpace((" " + rest)[0]);
      WordsCons(ws[0], " " + rest);
      WordsSpace(rest);
      WordsOfJoin(tail);
      SeqCons(ws);
    }
  }

  lemma SeqCons<T>(xs: seq<T>)
    requires |xs| > 0
    ensures xs == [xs[0]] + xs[1..]
  {
  }

  lemma WordsCons(w: string, rest: string)
    requires IsWord(w)
    requires rest == [] || IsPySpace(rest[0])
    ensures Words(w + rest) == [w] + Words(rest)
  {
    var s := w + rest;
    assert s[0] == w[0];
    assert TrimStart(s, IsPySpace) == s;
    TakeWordOf(w, rest);
    assert s[|w|..] == rest;
  }

  lemma WordsSpace(rest: string)
    ensures Words(" " + rest) == Words(rest)
  {
    var t := " " + rest;
    assert t[1..] == rest;
    assert TrimStart(t, IsPySpace) == TrimStart(rest, IsPySpace);
  }

  lemma JoinStartsWithWord(ws: seq<string>)
    requires |ws| > 0 && forall k :: 0 <= k < |ws| ==> IsWord(ws[k])
    ensures Join(" ", ws) != [] && !IsPySpace(Join(" ", ws)[0])
  {
    if |ws| > 1 {
      assert Join(" ", ws)[0] == ws[0][0];
    }
  }

  // ---------------------------------------------------------------------------
  // JavaScript `s.split('\n')` and `lines.join('\n')`

  /** JavaScript `s.split('\n')`: never empty, pieces hold no newline, joining restores `s`. */
  function SplitLines(s: string): (r: seq<string>)
    ensures |r| >= 1
    ensures forall k :: 0 <= k < |r| ==> '\n' !in r[k]
    ensures Join("\n", r) == s
    decreases |s|
  {
    if '\n' !in s then [s] else
      var i := IndexOf(s, '\n');
      var tail := SplitLines(s[i + 1..]);
      assert s == s[..i] + "\n" + s[i + 1..];
      [s[..i]] + tail
  }

  function IndexOf(s: string, c: char): (i: nat)
    requires c in s
    ensures i < |s| && s[i] == c && c !in s[..i]
  {
    if s[0] == c then 0 else 1 + IndexOf(s[1..], c)
  }

  /** The pieces before the last `'\n'` joined back, then that newline, then the last piece. */
  lemma SplitLinesLast(s: string)
    ensures var r := SplitLines(s);
      ('\n' in s <==> |r| > 1) &&
      (|r| == 1 ==> r[0] == s) &&
      (|r| > 1 ==> Join("\n", r[..|r| - 1]) + "\n" + r[|r| - 1] == s)
  {
    var r := SplitLines(s);
    if |r| > 1 {
      JoinSplitLast(r);
    }
  }

  lemma {:induction false} JoinSplitLast(r: seq<string>)
    requires |r| > 1
    ensures Join("\n", r[..|r| - 1]) + "\n" + r[|r| - 1] == Join("\n", r)
    decreases |r|
  {
    if |r| > 2 {
      var init, last := r[..|r| - 1], r[|r| - 1];
      JoinSplitLast(r[1..]);
      assert r[1..][..|r[1..]| - 1] == init[1..];
      assert Join("\n", init) == init[0] + "\n" + Join("\n", init[1..]);
      Reassociate(r[0], "\n", Join("\n", init[1..]), "\n", last);
    }
  }

  lemma Reassociate<T>(a: seq<T>, b: seq<T>, c: seq<T>, d: seq<T>, e: seq<T>)
    ensures (a + b + c) + d + e == a + b + (c + d + e)
  {
  }

  /** Joining lines with `'\n'` equals following each but the last with `'\n'`. */
  function Terminated(lines: seq<string>): string
    decreases |lines|
  {
    if lines == [] then "" else Terminated(lines[..|lines| - 1]) + lines[|lines| - 1] + "\n"
  }

  lemma JoinTerminated(r: seq<string>)
    requires |r| >= 1
    ensures Join("\n", r) == Terminated(r[..|r| - 1]) + r[|r| - 1]
    decreases |r|
  {
    if |r| > 1 {
      JoinSplitLast(r);
      JoinTerminated(r[..|r| - 1]);
      assert r[..|r| - 1][..|r| - 2] == r[..|r| - 2];
    }
  }

  // ---------------------------------------------------------------------------
  // Decimal numerals

  function Digit(d: nat): (c: char)
    requires d < 10
    ensures '0' <= c <= '9'
  {
    (('0' as int) + d) as char
  }

  /** `str(n)` for a non-negative integer: its decimal digits, most significant first, without leading zeros. */
  function Decimal(n: nat): (r: string)
    ensures |r| >= 1 && forall k :: 0 <= k < |r| ==> '0' <= r[k] <= '9'
    ensures |r| > 1 ==> r[0] != '0'
    decreases n
  {
    if n < 10 then [Digit(n)]
    else
      var r := Decimal(n / 10) + [Digit(n % 10)];
      assert r[0] == Decimal(n / 10)[0];
      r
  }

  /** The number a string of decimal digits denotes. */
  function DigitsValue(s: string): int
    decreases |s|
  {
    if s == [] then 0 else 10 * DigitsValue(s[..|s| - 1]) + (s[|s| - 1] as int - '0' as int)
  }

  /** Reading the numeral back gives the number. */
  lemma {:induction false} DecimalValue(n: nat)
    ensures DigitsValue(Decimal(n)) == n
    decreases n
  {
    if n >= 10 {
      DecimalValue(n / 10);
      var r := Decimal(n);
      assert r[..|r| - 1] == Decimal(n / 10);
    }
  }
}
