/**
 * The handful of Python `str` operations the tag engine relies on: `isspace`,
 * `strip`, `split()`, `" ".join`, `lower`, `isdigit` and `replace('.', '')`.
 */
module Text {

  /** Python's `str.isspace()` for one character. */
  predicate IsSpace(c: char) {
    var n := c as int;
    (9 <= n <= 13) || (28 <= n <= 32) || n == 0x85 || n == 0xA0 || n == 0x1680
    || (0x2000 <= n <= 0x200A) || n == 0x2028 || n == 0x2029 || n == 0x202F
    || n == 0x205F || n == 0x3000
  }

  predicate IsBlank(s: string) {
    forall i :: 0 <= i < |s| ==> IsSpace(s[i])
  }

  /** A word as `split()` yields it: non-empty and free of whitespace. */
  predicate IsWord(w: string) {
    w != [] && forall i :: 0 <= i < |w| ==> !IsSpace(w[i])
  }

  predicate AllWords(words: seq<string>) {
    forall k :: 0 <= k < |words| ==> IsWord(words[k])
  }

  /** Both ends of `s`, if any, are not whitespace. */
  predicate Trimmed(s: string) {
    s == [] || (!IsSpace(s[0]) && !IsSpace(s[|s| - 1]))
  }

  function TrimStart(s: string): (r: string)
    ensures |r| <= |s|
  {
    if s != [] && IsSpace(s[0]) then TrimStart(s[1..]) else s
  }

  /** `TrimStart` drops a blank prefix and keeps the rest, which starts with no whitespace. */
  lemma {:induction false} TrimStartParts(s: string)
    ensures var r := TrimStart(s);
            r == s[|s| - |r|..] && (r == [] || !IsSpace(r[0])) && IsBlank(s[..|s| - |r|])
    decreases |s|
  {
    if s != [] && IsSpace(s[0]) {
      TrimStartParts(s[1..]);
      var r := TrimStart(s[1..]);
      var k := |s| - |r|;
      assert s[1..][|s[1..]| - |r|..] == s[k..];
      forall i | 0 <= i < k ensures IsSpace(s[..k][i]) {
        if i > 0 {
          assert s[..k][i] == s[1..][..|s[1..]| - |r|][i - 1];
        }
      }
    }
  }

  function TrimEnd(s: string): (r: string)
    ensures |r| <= |s|
  {
    if s != [] && IsSpace(s[|s| - 1]) then TrimEnd(s[..|s| - 1]) else s
  }

  /** `TrimEnd` drops a blank suffix and keeps the rest, which ends with no whitespace. */
  lemma {:induction false} TrimEndParts(s: string)
    ensures var r := TrimEnd(s);
            r == s[..|r|] && (r == [] || !IsSpace(r[|r| - 1])) && IsBlank(s[|r|..])
    decreases |s|
  {
    if s != [] && IsSpace(s[|s| - 1]) {
      var init := s[..|s| - 1];
      TrimEndParts(init);
      var r := TrimEnd(init);
      assert init[..|r|] == s[..|r|];
      forall i | 0 <= i < |s| - |r| ensures IsSpace(s[|r|..][i]) {
        if i < |s| - 1 - |r| {
          assert s[|r|..][i] == init[|r|..][i];
        }
      }
    }
  }

  /** Python's `str.strip()` with no argument. */
  function Strip(s: string): (r: string)
    ensures |r| <= |s|
  {
    TrimEnd(TrimStart(s))
  }

  /** `strip()` leaves no whitespace at either end, and nothing at all exactly when the text is blank. */
  lemma StripMeaning(s: string)
    ensures Trimmed(Strip(s))
    ensures Strip(s) == [] <==> IsBlank(s)
  {
    var t := TrimStart(s);
    var r := TrimEnd(t);
    TrimStartParts(s);
    TrimEndParts(t);
    assert r == [] ==> IsBlank(s) by {
      if r == [] {
        assert IsBlank(t[..|t|]);
        assert s == s[..|s| - |t|] + t;
      }
    }
    if r != [] {
      assert r[0] == t[0];
    }
  }

  /** `strip()` keeps a middle stretch of the text, with only whitespace cut off on either side. */
  lemma StripKeepsMiddle(s: string)
    ensures var i := |s| - |TrimStart(s)|;
            var j := i + |Strip(s)|;
            0 <= i <= j <= |s| && Strip(s) == s[i..j] && IsBlank(s[..i]) && IsBlank(s[j..])
  {
    var t := TrimStart(s);
    var r := TrimEnd(t);
    TrimStartParts(s);
    TrimEndParts(t);
    var i := |s| - |t|;
    var j := i + |r|;
    assert s[i..j] == t[..|r|];
    assert s[j..] == t[|r|..];
  }

  lemma StripTrimmed(s: string)
    requires Trimmed(s)
    ensures Strip(s) == s
  {
    assert TrimStart(s) == s;
    assert TrimEnd(s) == s;
  }

  lemma StripLeadingSpace(w: string)
    requires IsWord(w)
    ensures Strip(" " + w) == w
  {
    var s := " " + w;
    assert s[1..] == w;
    assert TrimStart(w) == w;
    assert TrimStart(s) == w;
    assert TrimEnd(w) == w;
  }

  /** The longest prefix of `s` free of whitespace. */
  function WordPrefix(s: string): (w: string)
    ensures |w| <= |s|
  {
    if s == [] || IsSpace(s[0]) then [] else [s[0]] + WordPrefix(s[1..])
  }

  /** `WordPrefix` is a prefix without whitespace, ended by the end or by whitespace. */
  lemma {:induction false} WordPrefixParts(s: string)
    ensures var w := WordPrefix(s);
            w == s[..|w|] && (forall i :: 0 <= i < |w| ==> !IsSpace(w[i])) && (|w| == |s| || IsSpace(s[|w|]))
    decreases |s|
  {
    if s != [] && !IsSpace(s[0]) {
      WordPrefixParts(s[1..]);
      var v := WordPrefix(s[1..]);
      assert s[..|v| + 1] == [s[0]] + s[1..][..|v|];
      forall i | 0 <= i < |v| + 1 ensures !IsSpace(([s[0]] + v)[i]) {
        if i > 0 {
          assert ([s[0]] + v)[i] == v[i - 1];
        }
      }
      if |v| < |s[1..]| {
        assert s[|v| + 1] == s[1..][|v|];
      }
    }
  }

  /** Python's `str.split()` with no argument: the maximal runs of non-whitespace. */
  function Split(s: string): seq<string>
    decreases |s|
  {
    var t := TrimStart(s);
    if t == [] then []
    else
      TrimStartParts(s);
      var w := WordPrefix(t);
      assert |w| > 0;
      [w] + Split(t[|w|..])
  }

  /** Every piece `split()` returns is a word. */
  lemma {:induction false} SplitWords(s: string)
    ensures AllWords(Split(s))
    decreases |s|
  {
    var t := TrimStart(s);
    if t != [] {
      TrimStartParts(s);
      var w := WordPrefix(t);
      WordPrefixParts(t);
      SplitWords(t[|w|..]);
      var rest := Split(t[|w|..]);
      assert Split(s) == [w] + rest;
      forall k | 0 <= k < |[w] + rest| ensures IsWord(([w] + rest)[k]) {
        if k > 0 {
          assert ([w] + rest)[k] == rest[k - 1];
        }
      }
    }
  }

  lemma SplitBlank(s: string)
    ensures Split(s) == [] <==> IsBlank(s)
  {
    var t := TrimStart(s);
    TrimStartParts(s);
    if t == [] {
      assert s == s[..|s|];
    } else {
      assert s[|s| - |t|] == t[0];
    }
  }

  /** Python's `" ".join(words)`. */
  function JoinWords(words: seq<string>): string {
    if words == [] then ""
    else if |words| == 1 then words[0]
    else words[0] + " " + JoinWords(words[1..])
  }

  lemma {:induction false} JoinWordsShape(words: seq<string>)
    requires AllWords(words)
    ensures words == [] <==> JoinWords(words) == []
    ensures Trimmed(JoinWords(words))
    ensures words != [] ==> JoinWords(words)[0] == words[0][0]
  {
    if |words| > 1 {
      JoinWordsShape(words[1..]);
    }
  }

  lemma {:induction false} JoinWordsSnoc(words: seq<string>, w: string)
    requires words != []
    ensures JoinWords(words + [w]) == JoinWords(words) + " " + w
  {
    if |words| > 1 {
      assert (words + [w])[1..] == words[1..] + [w];
      JoinWordsSnoc(words[1..], w);
    }
  }

  lemma {:induction false} JoinWordsAppend(a: seq<string>, b: seq<string>)
    requires a != [] && b != []
    ensures JoinWords(a + b) == JoinWords(a) + " " + JoinWords(b)
  {
    if |a| > 1 {
      assert (a + b)[1..] == a[1..] + b;
      JoinWordsAppend(a[1..], b);
    } else {
      assert (a + b)[1..] == b;
    }
  }

  lemma WordPrefixOfWord(w: string, rest: string)
    requires IsWord(w)
    requires rest == [] || IsSpace(rest[0])
    ensures WordPrefix(w + rest) == w
    decreases |w|
  {
    if |w| > 1 {
      assert (w + rest)[1..] == w[1..] + rest;
      WordPrefixOfWord(w[1..], rest);
    } else {
      assert (w + rest)[1..] == rest;
    }
  }

  lemma SplitLeadingSpace(s: string)
    ensures Split(" " + s) == Split(s)
  {
    assert (" " + s)[1..] == s;
  }

  lemma SplitWordThen(w: string, rest: string)
    requires IsWord(w)
    ensures Split(w + " " + rest) == [w] + Split(rest)
  {
    var s := w + " " + rest;
    assert s == w + (" " + rest);
    WordPrefixOfWord(w, " " + rest);
    assert TrimStart(s) == s;
    assert s[|w|..] == " " + rest;
    SplitLeadingSpace(rest);
  }

  lemma SplitWord(w: string)
    requires IsWord(w)
    ensures Split(w) == [w]
  {
    WordPrefixOfWord(w, "");
    assert w + "" == w;
    assert TrimStart(w) == w;
    assert w[|w|..] == "";
  }

  /** `split()` undoes `" ".join` on words: no word is lost, merged or reordered. */
  lemma {:induction false} SplitJoinWords(words: seq<string>)
    requires AllWords(words)
    ensures Split(JoinWords(words)) == words
  {
    if words == [] {
    } else if |words| == 1 {
      SplitWord(words[0]);
    } else {
      assert JoinWords(words) == words[0] + " " + JoinWords(words[1..]);
      SplitJoinWords(words[1..]);
      SplitWordThen(words[0], JoinWords(words[1..]));
      assert words == [words[0]] + words[1..];
    }
  }

  /** Python's `str.lower()` on the Latin and Cyrillic letters that occur in column headers. */
  function LowerChar(c: char): (d: char)
    ensures 'A' <= c <= 'Z' ==> d as int == c as int + 32
    ensures !('A' <= c <= 'Z') && !(0x400 <= c as int <= 0x42F) ==> d == c
  {
    var n := c as int;
    if 'A' <= c <= 'Z' then (n + 32) as char
    else if 0x410 <= n <= 0x42F then (n + 32) as char
    else if 0x400 <= n <= 0x40F then (n + 80) as char
    else c
  }

  function Lower(s: string): (r: string)
    ensures |r| == |s| && forall i :: 0 <= i < |s| ==> r[i] == LowerChar(s[i])
  {
    seq(|s|, i requires 0 <= i < |s| => LowerChar(s[i]))
  }

  /** Python's `str.isdigit()`, restricted to the ASCII digits. */
  predicate IsDigits(s: string) {
    s != [] && forall i :: 0 <= i < |s| ==> '0' <= s[i] <= '9'
  }

  /** Python's `s.replace('.', '')`. */
  function RemoveDots(s: string): (r: string)
    ensures '.' !in r
    ensures forall c :: c != '.' ==> multiset(r)[c] == multiset(s)[c]
  {
    if s == [] then ""
    else
      assert s == [s[0]] + s[1..];
      if s[0] == '.' then RemoveDots(s[1..])
      else [s[0]] + RemoveDots(s[1..])
  }

  /** Dots are removed piece by piece: every other character stays, in its order. */
  lemma {:induction false} RemoveDotsAppend(a: string, b: string)
    ensures RemoveDots(a + b) == RemoveDots(a) + RemoveDots(b)
    decreases |a|
  {
    if a == [] {
      assert a + b == b;
    } else {
      assert (a + b)[1..] == a[1..] + b;
      RemoveDotsAppend(a[1..], b);
    }
  }
}
