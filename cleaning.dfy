/**
 * `clean_text` of blog_generator.py: four regular-expression rewrites applied
 * in order to the concatenated conversation text before it is chunked.
 */
module Cleaning {
  import opened Text

  /** Characters below U+0020, the class `[\x00-\x1F]`. */
  predicate IsControl(c: char) { c as int < 0x20 }

  /** Characters that no step of the cleaning may delete. */
  predicate Kept(c: char) { !IsControl(c) && !IsPySpace(c) && c != '-' }

  /** The characters of `s` satisfying `p`, in order. */
  function Filter(s: string, p: char -> bool): (r: string)
    ensures |r| <= |s|
    ensures forall i :: 0 <= i < |r| ==> p(r[i])
    decreases |s|
  {
    if s == [] then [] else (if p(s[0]) then [s[0]] else []) + Filter(s[1..], p)
  }

  lemma {:induction false} FilterAppend(a: string, b: string, p: char -> bool)
    ensures Filter(a + b, p) == Filter(a, p) + Filter(b, p)
    decreases |a|
  {
    if a == [] {
      assert a + b == b;
    } else {
      assert (a + b)[1..] == a[1..] + b;
      FilterAppend(a[1..], b, p);
    }
  }

  lemma {:induction false} FilterNone(a: string, p: char -> bool)
    requires forall i :: 0 <= i < |a| ==> !p(a[i])
    ensures Filter(a, p) == []
    decreases |a|
  {
    if a != [] {
      FilterNone(a[1..], p);
    }
  }

  lemma {:induction false} FilterAll(a: string, p: char -> bool)
    requires forall i :: 0 <= i < |a| ==> p(a[i])
    ensures Filter(a, p) == a
    decreases |a|
  {
    if a != [] {
      FilterAll(a[1..], p);
      SeqCons(a);
    }
  }

  // Step 1: `re.sub(r' +', ' ', text)`. Each run of spaces becomes one space;
  // written here as "drop a space that another space follows".
  function CollapseSpaces(s: string): (r: string)
    decreases |s|
  {
    if s == [] then []
    else if |s| >= 2 && s[0] == ' ' && s[1] == ' ' then CollapseSpaces(s[1..])
    else [s[0]] + CollapseSpaces(s[1..])
  }

  // Step 2: `re.sub(r'[\x00-\x1F]', '', ...)`.
  function DropControl(s: string): string {
    Filter(s, c => !IsControl(c))
  }

  // Step 3: `.replace('\n', ' ')`.
  function NewlinesToSpaces(s: string): (r: string)
    decreases |s|
  {
    if s == [] then [] else [if s[0] == '\n' then ' ' else s[0]] + NewlinesToSpaces(s[1..])
  }

  // Step 4: `re.sub(r'\s*-\s*', '', ...)`. The regex is tried at each position
  // from the left; it matches there exactly when the whitespace run starting
  // there is followed by a hyphen, and then also consumes the whitespace run
  // after the hyphen. Where it does not match, one character is kept.
  function StripHyphens(s: string): (r: string)
    ensures '-' !in r
    decreases |s|
  {
    if s == [] then []
    else
      var k := Lead(s, IsPySpace);
      if k < |s| && s[k] == '-' then StripHyphens(TrimStart(s[k + 1..], IsPySpace))
      else [s[0]] + StripHyphens(s[1..])
  }

  /** `clean_text(text)`. */
  function CleanText(s: string): string {
    StripHyphens(NewlinesToSpaces(DropControl(CollapseSpaces(s))))
  }

  // ---------------------------------------------------------------------------
  // What each step keeps

  /** Step 1 leaves no two adjacent spaces, never lengthens, and empties only the empty string. */
  lemma {:induction false} CollapseSpacesShape(s: string)
    ensures var r := CollapseSpaces(s);
      (forall i :: 0 <= i < |r| - 1 ==> !(r[i] == ' ' && r[i + 1] == ' '))
      && (r == [] <==> s == [])
      && |r| <= |s|
      && (r != [] ==> r[0] == s[0])
    decreases |s|
  {
    if s != [] {
      CollapseSpacesShape(s[1..]);
      var r := CollapseSpaces(s);
      var t := CollapseSpaces(s[1..]);
      if !(|s| >= 2 && s[0] == ' ' && s[1] == ' ') {
        assert r == [s[0]] + t;
        assert forall i :: 1 <= i < |r| ==> r[i] == t[i - 1];
      }
    }
  }

  /** Step 1 deletes only spaces: it keeps every kept character in order and adds nothing. */
  lemma {:induction false} CollapseSpacesKeeps(s: string)
    ensures var r := CollapseSpaces(s);
      Filter(r, Kept) == Filter(s, Kept) && multiset(r) <= multiset(s)
    decreases |s|
  {
    if s != [] {
      CollapseSpacesKeeps(s[1..]);
      var r := CollapseSpaces(s);
      var t := CollapseSpaces(s[1..]);
      SeqCons(s);
      FilterAppend([s[0]], s[1..], Kept);
      if |s| >= 2 && s[0] == ' ' && s[1] == ' ' {
        assert r == t;
        assert !Kept(s[0]);
      } else {
        assert r == [s[0]] + t;
        FilterAppend([s[0]], t, Kept);
      }
    }
  }

  /** Step 2 leaves no control character and keeps everything else in order. */
  lemma DropControlFacts(s: string)
    ensures var r := DropControl(s);
      (forall i :: 0 <= i < |r| ==> !IsControl(r[i]))
      && Filter(r, Kept) == Filter(s, Kept)
      && multiset(r) <= multiset(s)
  {
    FilterKeepsKept(s);
    FilterMultiset(s, c => !IsControl(c));
  }

  lemma {:induction false} FilterKeepsKept(s: string)
    ensures Filter(Filter(s, c => !IsControl(c)), Kept) == Filter(s, Kept)
    decreases |s|
  {
    if s != [] {
      FilterKeepsKept(s[1..]);
      var p := c => !IsControl(c);
      FilterAppend(if p(s[0]) then [s[0]] else [], Filter(s[1..], p), Kept);
    }
  }

  lemma {:induction false} FilterMultiset(s: string, p: char -> bool)
    ensures multiset(Filter(s, p)) <= multiset(s)
    decreases |s|
  {
    if s != [] {
      FilterMultiset(s[1..], p);
      SeqCons(s);
    }
  }

  /** Step 3 never fires: after step 2 there is no newline left (line 30 of the source is dead). */
  lemma {:induction false} NewlineStepIsDead(s: string)
    requires forall i :: 0 <= i < |s| ==> !IsControl(s[i])
    ensures NewlinesToSpaces(s) == s
    decreases |s|
  {
    if s != [] {
      NewlineStepIsDead(s[1..]);
      SeqCons(s);
    }
  }

  /** Step 4 deletes only whitespace and hyphens and introduces nothing; without a hyphen it changes nothing. */
  lemma {:induction false} StripHyphensFacts(s: string)
    ensures var r := StripHyphens(s);
      Filter(r, Kept) == Filter(s, Kept)
      && multiset(r) <= multiset(s)
      && |r| <= |s|
      && ('-' !in s ==> r == s)
    decreases |s|
  {
    if s != [] {
      var k := Lead(s, IsPySpace);
      var r := StripHyphens(s);
      if k < |s| && s[k] == '-' {
        var t := TrimStart(s[k + 1..], IsPySpace);
        StripHyphensFacts(t);
        HyphenMatch(s, k);
        assert r == StripHyphens(t);
      } else {
        StripHyphensFacts(s[1..]);
        SeqCons(s);
        FilterAppend([s[0]], s[1..], Kept);
        FilterAppend([s[0]], StripHyphens(s[1..]), Kept);
        assert r == [s[0]] + StripHyphens(s[1..]);
        assert multiset(r) == multiset([s[0]]) + multiset(StripHyphens(s[1..]));
        if '-' !in s {
          assert '-' !in s[1..];
        }
      }
    }
  }

  /**
   * Step 4 deletes each hyphen together with the whitespace runs right before
   * and right after it, and nothing else: text before the match, spaces
   * included, is kept as it is.
   */
  lemma HyphenRemoved(x: string, w1: string, w2: string, y: string)
    requires '-' !in x && (x == [] || !IsPySpace(x[|x| - 1]))
    requires AllSpace(w1, IsPySpace) && AllSpace(w2, IsPySpace)
    requires y == [] || !IsPySpace(y[0])
    ensures StripHyphens(x + w1 + "-" + w2 + y) == x + StripHyphens(y)
  {
    var m := w1 + "-" + w2 + y;
    AppendAssoc(x, w1, "-");
    AppendAssoc(x, w1 + "-", w2);
    AppendAssoc(x, w1 + "-" + w2, y);
    PrefixKept(x, m);
    HyphenAtStart(w1, w2, y);
  }

  /** A match at the very start: the whitespace, the hyphen and the whitespace after it go. */
  lemma HyphenAtStart(w1: string, w2: string, y: string)
    requires AllSpace(w1, IsPySpace) && AllSpace(w2, IsPySpace)
    requires y == [] || !IsPySpace(y[0])
    ensures StripHyphens(w1 + "-" + w2 + y) == StripHyphens(y)
  {
    AppendAssoc("-", w2, y);
    AppendAssoc(w1, "-" + w2, y);
    AppendAssoc(w1, "-", w2);
    MatchAt(w1, w2 + y);
    TrimStartSpaces(w2, y, IsPySpace);
    assert TrimStart(y, IsPySpace) == y;
  }

  /** One match of `\s*-\s*` at the start: the rewrite goes on after the whitespace that follows the hyphen. */
  lemma MatchAt(w: string, rest: string)
    requires AllSpace(w, IsPySpace)
    ensures StripHyphens(w + ("-" + rest)) == StripHyphens(TrimStart(rest, IsPySpace))
  {
    var after := "-" + rest;
    var s := w + after;
    TrimStartSpaces(w, after, IsPySpace);
    assert TrimStart(after, IsPySpace) == after;
    var k := Lead(s, IsPySpace);
    assert k == |w| && s[k] == '-';
    assert s[k + 1..] == after[1..] == rest;
  }

  /** Text without a hyphen that does not end in whitespace passes step 4 unchanged, whatever follows it. */
  lemma {:induction false} PrefixKept(x: string, m: string)
    requires '-' !in x && (x == [] || !IsPySpace(x[|x| - 1]))
    ensures StripHyphens(x + m) == x + StripHyphens(m)
    decreases |x|
  {
    if x == [] {
      assert x + m == m;
    } else {
      var t := x[1..];
      assert '-' !in t && (t == [] || t[|t| - 1] == x[|x| - 1]);
      FirstKept(x, m);
      PrefixKept(t, m);
      AppendAssoc([x[0]], t, StripHyphens(m));
      assert [x[0]] + t == x;
    }
  }

  /** No match can start at the head of such a text: the whitespace run there ends before a character that is not a hyphen. */
  lemma FirstKept(x: string, m: string)
    requires '-' !in x && x != [] && !IsPySpace(x[|x| - 1])
    ensures StripHyphens(x + m) == [x[0]] + StripHyphens(x[1..] + m)
  {
    assert (x + m)[1..] == x[1..] + m;
    var s := x + m;
    TrimStartAllSpace(x, IsPySpace);
    assert !AllSpace(x, IsPySpace);
    TrimStartKeep(x, m, IsPySpace);
    var k := Lead(s, IsPySpace);
    assert k == Lead(x, IsPySpace) < |x|;
    TrimStartSuffix(s, IsPySpace);
    TrimStartSuffix(x, IsPySpace);
    assert s[k] == TrimStart(s, IsPySpace)[0] == TrimStart(x, IsPySpace)[0] == x[k];
  }

  /** What one match of `\s*-\s*` consumes holds no kept character. */
  lemma HyphenMatch(s: string, k: nat)
    requires k == Lead(s, IsPySpace) && k < |s| && s[k] == '-'
    ensures var t := TrimStart(s[k + 1..], IsPySpace);
      Filter(t, Kept) == Filter(s, Kept) && multiset(t) <= multiset(s)
  {
    LeadRejected(s, k);
    TrimRejected(s[k + 1..]);
  }

  /** The whitespace before the hyphen and the hyphen itself hold no kept character. */
  lemma LeadRejected(s: string, k: nat)
    requires k == Lead(s, IsPySpace) && k < |s| && s[k] == '-'
    ensures Filter(s[k + 1..], Kept) == Filter(s, Kept) && multiset(s[k + 1..]) <= multiset(s)
  {
    assert AllSpace(s[..k], IsPySpace);
    forall i | 0 <= i < k + 1 ensures !Kept(s[i]) {
      if i < k { assert s[..k][i] == s[i]; }
    }
    DropRejectedPrefix(s, k + 1);
  }

  /** Leading whitespace holds no kept character. */
  lemma TrimRejected(u: string)
    ensures var t := TrimStart(u, IsPySpace);
      Filter(t, Kept) == Filter(u, Kept) && multiset(t) <= multiset(u)
  {
    var t := TrimStart(u, IsPySpace);
    var j := |u| - |t|;
    assert AllSpace(u[..j], IsPySpace);
    forall i | 0 <= i < j ensures !Kept(u[i]) { assert u[..j][i] == u[i]; }
    DropRejectedPrefix(u, j);
    TrimStartSuffix(u, IsPySpace);
    assert u[j..] == t;
  }

  lemma {:induction false} DropRejectedPrefix(s: string, n: nat)
    requires n <= |s|
    requires forall i :: 0 <= i < n ==> !Kept(s[i])
    ensures Filter(s, Kept) == Filter(s[n..], Kept)
    ensures multiset(s[n..]) <= multiset(s)
    decreases n
  {
    if n > 0 {
      DropRejectedPrefix(s[1..], n - 1);
      assert s[1..][n - 1..] == s[n..];
      SeqCons(s);
    }
  }

  // ---------------------------------------------------------------------------
  // clean_text as a whole

  /**
   * The cleaned text holds no character U+0000..U+001F (so no newline or tab)
   * and no hyphen, is never longer than the input, is empty for empty input,
   * introduces no character, and keeps every other non-whitespace character
   * of the input in its original order.
   */
  lemma CleanTextFacts(s: string)
    ensures var r := CleanText(s);
      (forall i :: 0 <= i < |r| ==> !IsControl(r[i]))
      && '-' !in r
      && |r| <= |s|
      && (s == [] ==> r == [])
      && multiset(r) <= multiset(s)
      && Filter(r, Kept) == Filter(s, Kept)
  {
    var a := CollapseSpaces(s);
    var b := DropControl(a);
    CollapseSpacesShape(s);
    CollapseSpacesKeeps(s);
    DropControlFacts(a);
    NewlineStepIsDead(b);
    StripHyphensFacts(b);
    var r := CleanText(s);
    assert r == StripHyphens(b);
    forall i | 0 <= i < |r| ensures !IsControl(r[i]) {
      assert r[i] in multiset(b);
    }
  }

  /**
   * Cleaning twice is not cleaning once: spaces are collapsed before control
   * characters are deleted, so deleting U+0001 in "x \u0001 y" leaves a
   * double space that only a second pass collapses.
   */
  lemma CleanTextNotIdempotent()
    ensures var x := ['x', ' ', 1 as char, ' ', 'y'];
      CleanText(x) == "x  y" && CleanText(CleanText(x)) == "x y"
  {
    FirstPass();
    SecondPass();
  }

  lemma FirstPass()
    ensures CleanText(['x', ' ', 1 as char, ' ', 'y']) == "x  y"
  {
    FirstCollapse();
    FirstDrop();
    NoHyphenUnchanged(['x', ' ', ' ', 'y']);
  }

  /** No two spaces are adjacent yet, so the first rewrite changes nothing. */
  lemma FirstCollapse()
    ensures CollapseSpaces(['x', ' ', 1 as char, ' ', 'y']) == ['x', ' ', 1 as char, ' ', 'y']
  {
    var x := ['x', ' ', 1 as char, ' ', 'y'];
    assert x[1..] == [' ', 1 as char, ' ', 'y'] && x[2..] == [1 as char, ' ', 'y'];
    assert x[3..] == [' ', 'y'] && x[4..] == ['y'] && x[5..] == [];
    assert CollapseSpaces(x[4..]) == x[4..];
    assert CollapseSpaces(x[3..]) == x[3..];
    assert CollapseSpaces(x[2..]) == x[2..];
    assert CollapseSpaces(x[1..]) == x[1..];
  }

  /** Deleting the control character brings the two spaces together. */
  lemma FirstDrop()
    ensures DropControl(['x', ' ', 1 as char, ' ', 'y']) == ['x', ' ', ' ', 'y']
  {
    var x := ['x', ' ', 1 as char, ' ', 'y'];
    var p := c => !IsControl(c);
    assert x[1..] == [' ', 1 as char, ' ', 'y'] && x[2..] == [1 as char, ' ', 'y'];
    assert x[3..] == [' ', 'y'] && x[4..] == ['y'] && x[5..] == [];
    assert Filter(x[4..], p) == ['y'];
    assert Filter(x[3..], p) == [' ', 'y'];
    assert Filter(x[2..], p) == [' ', 'y'];
    assert Filter(x[1..], p) == [' ', ' ', 'y'];
  }

  lemma SecondPass()
    ensures CleanText("x  y") == "x y"
  {
    var y := ['x', ' ', ' ', 'y'];
    var z := ['x', ' ', 'y'];
    assert CollapseSpaces(y) == z by {
      assert y[1..] == [' ', ' ', 'y'] && y[2..] == [' ', 'y'] && y[3..] == ['y'] && y[4..] == [];
      assert CollapseSpaces(y[3..]) == y[3..];
      assert CollapseSpaces(y[2..]) == y[2..];
      assert CollapseSpaces(y[1..]) == y[2..];
    }
    assert DropControl(z) == z by {
      FilterAll(z, c => !IsControl(c));
    }
    NoHyphenUnchanged(z);
    assert y == "x  y" && z == "x y";
  }

  lemma NoHyphenUnchanged(s: string)
    requires forall i :: 0 <= i < |s| ==> !IsControl(s[i])
    requires '-' !in s
    ensures StripHyphens(NewlinesToSpaces(s)) == s
  {
    NewlineStepIsDead(s);
    StripHyphensFacts(s);
  }
}
