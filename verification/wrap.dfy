/**
 * The greedy word wrapper of the bitmap preview: words are added to the current
 * line while the measured line still fits; a word that does not fit starts a new
 * line, and only the first three lines are kept.
 */
module Wrap {
  import opened Basics
  import opened Text

  /** The wrapper between two words: the finished lines and the line being filled. */
  datatype WrapState = WrapState(lines: seq<string>, line: string)

  /** The finished lines, with the open line added when it is not empty. */
  function Finish(st: WrapState): seq<string> {
    if st.line != "" then st.lines + [st.line] else st.lines
  }

  /** One turn of the loop over the words. */
  function Step(measure: string -> real, maxWidth: real, st: WrapState, word: string): WrapState {
    var test := Strip(st.line + " " + word);
    if measure(test) <= maxWidth then WrapState(st.lines, test)
    else WrapState(if st.line != "" then st.lines + [st.line] else st.lines, word)
  }

  /** The state after the loop has seen `words`. */
  function Run(measure: string -> real, maxWidth: real, words: seq<string>): WrapState {
    if words == [] then WrapState([], "")
    else Step(measure, maxWidth, Run(measure, maxWidth, words[..|words| - 1]), words[|words| - 1])
  }

  /** What `wrap_text` returns: the words of `text` wrapped, at most three lines. */
  function Wrapped(measure: string -> real, text: string, maxWidth: real): seq<string> {
    Take(Finish(Run(measure, maxWidth, Split(text))), 3)
  }

  /** `wrap_text`, with the font's bounding-box width as `measure`. */
  method WrapText(measure: string -> real, text: string, maxWidth: real) returns (result: seq<string>)
    ensures result == Wrapped(measure, text, maxWidth)
  {
    var words := Split(text);
    var lines: seq<string> := [];
    var line := "";
    for k := 0 to |words|
      invariant WrapState(lines, line) == Run(measure, maxWidth, words[..k])
    {
      var word := words[k];
      assert words[..k + 1][..k] == words[..k];
      var test := Strip(line + " " + word);
      if measure(test) <= maxWidth {
        line := test;
      } else {
        if line != "" {
          lines := lines + [line];
        }
        line := word;
      }
    }
    assert words[..|words|] == words;
    if line != "" {
      lines := lines + [line];
    }
    result := Take(lines, 3);
  }

  /** Each line closed before the last was closed because its next word would not fit. */
  predicate Greedy(measure: string -> real, maxWidth: real, ls: seq<string>) {
    forall i :: 0 <= i < |ls| - 1 ==> measure(ls[i] + " " + WordPrefix(ls[i + 1])) > maxWidth
  }

  /** Every line fits, or is a single word that does not fit on its own. */
  predicate FitsOrWord(measure: string -> real, maxWidth: real, ls: seq<string>) {
    forall i :: 0 <= i < |ls| ==> measure(ls[i]) <= maxWidth || IsWord(ls[i])
  }

  predicate NoEmptyLine(ls: seq<string>) {
    forall i :: 0 <= i < |ls| ==> ls[i] != ""
  }

  /** The first word of `a + " " + b` is the first word of `a`. */
  lemma {:induction false} WordPrefixExtend(a: string, b: string)
    ensures WordPrefix(a + " " + b) == WordPrefix(a)
    decreases |a|
  {
    if a == [] {
      assert a + " " + b == " " + b;
    } else if !IsSpace(a[0]) {
      assert (a + " " + b)[1..] == a[1..] + " " + b;
      WordPrefixExtend(a[1..], b);
    }
  }

  /** `" ".join` over a sequence whose last line grows by one word. */
  lemma JoinWordsGrowLast(lines: seq<string>, line: string, w: string)
    ensures JoinWords(lines + [line + " " + w]) == JoinWords(lines + [line]) + " " + w
  {
    if lines == [] {
      assert [line + " " + w] == [] + [line + " " + w];
      assert [line] == [] + [line];
    } else {
      JoinWordsAppend(lines, [line + " " + w]);
      JoinWordsAppend(lines, [line]);
    }
  }

  /**
   * What the loop keeps true of the words seen so far: the open line is empty only
   * before the first word and is trimmed; the lines are non-empty, each fitting or
   * a single word, each closed only when the next word would overflow it; and
   * joined by spaces they give back the words.
   */
  predicate Inv(measure: string -> real, maxWidth: real, words: seq<string>, st: WrapState) {
    (st.line == "" <==> words == []) && (words == [] ==> st.lines == []) &&
    (st.line != "" ==> !IsSpace(st.line[0]) && !IsSpace(st.line[|st.line| - 1])) &&
    NoEmptyLine(Finish(st)) && FitsOrWord(measure, maxWidth, Finish(st)) &&
    Greedy(measure, maxWidth, Finish(st)) && JoinWords(Finish(st)) == JoinWords(words)
  }

  lemma {:induction false} RunInvariant(measure: string -> real, maxWidth: real, words: seq<string>)
    requires AllWords(words)
    ensures Inv(measure, maxWidth, words, Run(measure, maxWidth, words))
    decreases |words|
  {
    if words != [] {
      var init := words[..|words| - 1];
      var w := words[|words| - 1];
      assert words == init + [w];
      assert AllWords(init) by {
        forall k | 0 <= k < |init| ensures IsWord(init[k]) { assert init[k] == words[k]; }
      }
      RunInvariant(measure, maxWidth, init);
      StepInvariant(measure, maxWidth, init, Run(measure, maxWidth, init), w);
    }
  }

  lemma StepInvariant(measure: string -> real, maxWidth: real, init: seq<string>, st: WrapState, w: string)
    requires Inv(measure, maxWidth, init, st) && IsWord(w)
    ensures Inv(measure, maxWidth, init + [w], Step(measure, maxWidth, st, w))
  {
    if st.line == "" {
      StepFirst(measure, maxWidth, init, st, w);
    } else {
      var joined := st.line + " " + w;
      assert Trimmed(joined) by {
        assert joined[0] == st.line[0];
        assert joined[|joined| - 1] == w[|w| - 1];
      }
      StripTrimmed(joined);
      JoinWordsSnoc(init, w);
      if measure(joined) <= maxWidth {
        StepFits(measure, maxWidth, init, st, w);
      } else {
        StepCloses(measure, maxWidth, init, st, w);
      }
    }
  }

  lemma StepFirst(measure: string -> real, maxWidth: real, init: seq<string>, st: WrapState, w: string)
    requires Inv(measure, maxWidth, init, st) && IsWord(w) && st.line == ""
    ensures Inv(measure, maxWidth, init + [w], Step(measure, maxWidth, st, w))
  {
    assert st.line + " " + w == " " + w;
    StripLeadingSpace(w);
    assert init + [w] == [w];
    var next := Step(measure, maxWidth, st, w);
    assert next == WrapState([], w);
    assert Finish(next) == [w];
  }

  lemma StepFits(measure: string -> real, maxWidth: real, init: seq<string>, st: WrapState, w: string)
    requires Inv(measure, maxWidth, init, st) && IsWord(w) && st.line != ""
    requires Strip(st.line + " " + w) == st.line + " " + w && measure(st.line + " " + w) <= maxWidth
    requires JoinWords(init + [w]) == JoinWords(init) + " " + w
    ensures Inv(measure, maxWidth, init + [w], Step(measure, maxWidth, st, w))
  {
    var joined := st.line + " " + w;
    var f := Finish(st);
    var next := Step(measure, maxWidth, st, w);
    assert next == WrapState(st.lines, joined);
    var g := Finish(next);
    assert g == st.lines + [joined] && f == st.lines + [st.line];
    JoinWordsGrowLast(st.lines, st.line, w);
    WordPrefixExtend(st.line, w);
    assert joined[0] == st.line[0] && joined[|joined| - 1] == w[|w| - 1];
    assert forall i :: 0 <= i < |st.lines| ==> g[i] == f[i];
  }

  lemma StepCloses(measure: string -> real, maxWidth: real, init: seq<string>, st: WrapState, w: string)
    requires Inv(measure, maxWidth, init, st) && IsWord(w) && st.line != ""
    requires Strip(st.line + " " + w) == st.line + " " + w && measure(st.line + " " + w) > maxWidth
    requires JoinWords(init + [w]) == JoinWords(init) + " " + w
    ensures Inv(measure, maxWidth, init + [w], Step(measure, maxWidth, st, w))
  {
    var f := Finish(st);
    var next := Step(measure, maxWidth, st, w);
    assert next == WrapState(st.lines + [st.line], w);
    assert Finish(next) == f + [w];
    JoinWordsSnoc(f, w);
    WordPrefixOfWord(w, "");
    assert w + "" == w;
  }

  /** A prefix of the lines keeps every property that holds line by line or pair by pair. */
  lemma PrefixKeeps(measure: string -> real, maxWidth: real, f: seq<string>, n: nat)
    requires NoEmptyLine(f) && FitsOrWord(measure, maxWidth, f) && Greedy(measure, maxWidth, f)
    ensures var r := Take(f, n);
            NoEmptyLine(r) && FitsOrWord(measure, maxWidth, r) && Greedy(measure, maxWidth, r)
  {
    var r := Take(f, n);
    assert forall i :: 0 <= i < |r| ==> r[i] == f[i];
  }

  /**
   * `wrap_text` returns at most three lines, none of them empty, each fitting or a
   * single word, each closed only when the next word would not fit; they are the
   * first lines of a wrapping whose lines, joined by spaces, are the words of the
   * text joined by spaces; and a blank text gives no line.
   */
  lemma WrappedMeaning(measure: string -> real, text: string, maxWidth: real)
    ensures var r := Wrapped(measure, text, maxWidth);
            |r| <= 3 && NoEmptyLine(r) && FitsOrWord(measure, maxWidth, r) && Greedy(measure, maxWidth, r)
    ensures var f := Finish(Run(measure, maxWidth, Split(text)));
            Wrapped(measure, text, maxWidth) == f[..|Wrapped(measure, text, maxWidth)|] &&
            JoinWords(f) == JoinWords(Split(text))
    ensures Wrapped(measure, text, maxWidth) == [] <==> IsBlank(text)
  {
    var words := Split(text);
    SplitWords(text);
    SplitBlank(text);
    RunInvariant(measure, maxWidth, words);
    var f := Finish(Run(measure, maxWidth, words));
    PrefixKeeps(measure, maxWidth, f, 3);
  }
}
