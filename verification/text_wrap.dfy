/** Greedy word wrapping of the AI panel's decision text: whitespace-separated words
    are packed into lines by a running length count. */
module TextWrap {

  /** The whitespace characters that separate words: the ASCII whitespace, the
      information separators, NEL and the no-break space. */
  predicate IsSpace(c: char) {
    c in {' ', '\t', '\n', '\r', '\U{000B}', '\U{000C}', '\U{001C}', '\U{001D}',
          '\U{001E}', '\U{001F}', '\U{0085}', '\U{00A0}'}
  }

  predicate IsWord(w: string) {
    |w| > 0 && forall i :: 0 <= i < |w| ==> !IsSpace(w[i])
  }

  /** Length of the run of non-space characters at the start of `s`. */
  function WordLen(s: string): (n: nat)
    ensures n <= |s|
    ensures forall i :: 0 <= i < n ==> !IsSpace(s[i])
    ensures n < |s| ==> IsSpace(s[n])
  {
    if |s| == 0 || IsSpace(s[0]) then 0 else 1 + WordLen(s[1..])
  }

  /** The words of `s`, as splitting on runs of whitespace gives them. */
  function Words(s: string): (ws: seq<string>)
    ensures forall i :: 0 <= i < |ws| ==> IsWord(ws[i])
    decreases |s|
  {
    if |s| == 0 then []
    else if IsSpace(s[0]) then Words(s[1..])
    else
      var n := WordLen(s);
      [s[..n]] + Words(s[n..])
  }

  /** Words joined by single spaces. */
  function Join(ws: seq<string>): string
    decreases |ws|
  {
    if |ws| == 0 then ""
    else if |ws| == 1 then ws[0]
    else Join(ws[..|ws| - 1]) + " " + ws[|ws| - 1]
  }

  /** The groups concatenated in order. */
  function Flatten(gs: seq<seq<string>>): seq<string>
    decreases |gs|
  {
    if |gs| == 0 then [] else Flatten(gs[..|gs| - 1]) + gs[|gs| - 1]
  }

  /** The wrapping loop as written: `len` is the running count, which adds one for a
      separating space after every word accepted into a line that started empty but
      not after the word that opens a later line. A word is accepted while
      len + |word| + 1 <= maxChars; otherwise the current line, even an empty one, is
      emitted and the word opens the next. */
  function WrapLoop(ws: seq<string>, maxChars: int, lines: seq<seq<string>>, cur: seq<string>, len: int)
    : seq<seq<string>>
    decreases |ws|
  {
    if |ws| == 0 then (if |cur| > 0 then lines + [cur] else lines)
    else if len + |ws[0]| + 1 <= maxChars then
      WrapLoop(ws[1..], maxChars, lines, cur + [ws[0]], len + |ws[0]| + 1)
    else WrapLoop(ws[1..], maxChars, lines + [cur], [ws[0]], |ws[0]|)
  }

  /** The word groups of the wrapped lines. */
  function Groups(ws: seq<string>, maxChars: int): seq<seq<string>> {
    WrapLoop(ws, maxChars, [], [], 0)
  }

  function JoinAll(gs: seq<seq<string>>): (lines: seq<string>)
    ensures |lines| == |gs| && forall i :: 0 <= i < |gs| ==> lines[i] == Join(gs[i])
  {
    seq(|gs|, i requires 0 <= i < |gs| => Join(gs[i]))
  }

  /** `wrap_text` of the analysis panel. */
  function WrapText(text: string, maxChars: int): (lines: seq<string>)
    ensures |lines| == |Groups(Words(text), maxChars)|
  {
    JoinAll(Groups(Words(text), maxChars))
  }

  // ---------------------------------------------------------------------------
  // Words and Join are inverse on groups of words

  /** Any length with the two properties of WordLen is WordLen. */
  lemma WordLenUnique(s: string, m: nat)
    requires m <= |s|
    requires forall i :: 0 <= i < m ==> !IsSpace(s[i])
    requires m < |s| ==> IsSpace(s[m])
    ensures WordLen(s) == m
  {
  }

  lemma WordsOfWord(w: string)
    requires IsWord(w)
    ensures Words(w) == [w]
  {
    WordLenUnique(w, |w|);
    assert w[..|w|] == w;
    assert w[|w|..] == "";
  }

  /** The first word is not lengthened by text after a whitespace seam. */
  lemma WordLenConcat(a: string, b: string)
    requires |a| > 0
    requires |b| == 0 || IsSpace(a[|a| - 1]) || IsSpace(b[0])
    ensures WordLen(a + b) == WordLen(a)
  {
    var n := WordLen(a);
    var s := a + b;
    forall i | 0 <= i < n
      ensures !IsSpace(s[i])
    {
      assert s[i] == a[i];
    }
    if n < |a| {
      assert s[n] == a[n];
    } else if |b| > 0 {
      assert !IsSpace(a[|a| - 1]);
      assert s[n] == b[0];
    }
    WordLenUnique(s, n);
  }

  /** Splitting distributes over a concatenation whose seam is whitespace. */
  lemma {:induction false} WordsConcat(a: string, b: string)
    requires |a| == 0 || |b| == 0 || IsSpace(a[|a| - 1]) || IsSpace(b[0])
    ensures Words(a + b) == Words(a) + Words(b)
    decreases |a|
  {
    if |a| == 0 {
      assert a + b == b;
    } else if IsSpace(a[0]) {
      assert (a + b)[1..] == a[1..] + b;
      WordsConcat(a[1..], b);
    } else {
      var n := WordLen(a);
      var s := a + b;
      WordLenConcat(a, b);
      assert s[..n] == a[..n];
      assert s[n..] == a[n..] + b;
      WordsConcat(a[n..], b);
    }
  }

  /** Splitting the joined words of a group gives back the group. */
  lemma {:induction false} WordsOfJoin(g: seq<string>)
    requires forall i :: 0 <= i < |g| ==> IsWord(g[i])
    ensures Words(Join(g)) == g
    decreases |g|
  {
    if |g| == 1 {
      WordsOfWord(g[0]);
    } else if |g| > 1 {
      var init := g[..|g| - 1];
      var last := g[|g| - 1];
      WordsOfJoin(init);
      assert Join(g) == Join(init) + (" " + last);
      WordsConcat(Join(init), " " + last);
      assert (" " + last)[1..] == last;
      WordsOfWord(last);
      assert init + [last] == g;
    }
  }

  lemma FlattenAppend(gs: seq<seq<string>>, g: seq<string>)
    ensures Flatten(gs + [g]) == Flatten(gs) + g
  {
    assert (gs + [g])[..|gs|] == gs;
  }

  lemma JoinAppendLength(g: seq<string>, w: string)
    requires |g| > 0
    ensures |Join(g + [w])| == |Join(g)| + 1 + |w|
  {
    assert (g + [w])[..|g|] == g;
  }

  // ---------------------------------------------------------------------------
  // Properties of the wrapping loop

  /** Every word is kept, in order: the groups concatenate to the input words. */
  lemma {:induction false} WrapLoopKeepsWords(ws: seq<string>, m: int, lines: seq<seq<string>>, cur: seq<string>, len: int)
    ensures Flatten(WrapLoop(ws, m, lines, cur, len)) == Flatten(lines) + cur + ws
    decreases |ws|
  {
    if |ws| == 0 {
      if |cur| > 0 {
        FlattenAppend(lines, cur);
      }
    } else if len + |ws[0]| + 1 <= m {
      WrapLoopKeepsWords(ws[1..], m, lines, cur + [ws[0]], len + |ws[0]| + 1);
      assert cur + [ws[0]] + ws[1..] == cur + ws;
    } else {
      WrapLoopKeepsWords(ws[1..], m, lines + [cur], [ws[0]], |ws[0]|);
      FlattenAppend(lines, cur);
      assert [ws[0]] + ws[1..] == ws;
    }
  }

  predicate NonEmptyFrom(gs: seq<seq<string>>, k: nat) {
    forall i :: k <= i < |gs| ==> |gs[i]| > 0
  }

  /** Once a line holds a word, every line emitted after it holds one too, and the
      lines already emitted stay as they are. */
  lemma {:induction false} WrapLoopNonEmpty(ws: seq<string>, m: int, lines: seq<seq<string>>, cur: seq<string>, len: int, k: nat)
    requires |cur| > 0 && k <= |lines| && NonEmptyFrom(lines, k)
    ensures var res := WrapLoop(ws, m, lines, cur, len);
      |lines| <= |res| && res[..|lines|] == lines && NonEmptyFrom(res, k)
    decreases |ws|
  {
    if |ws| > 0 {
      if len + |ws[0]| + 1 <= m {
        WrapLoopNonEmpty(ws[1..], m, lines, cur + [ws[0]], len + |ws[0]| + 1, k);
      } else {
        var res := WrapLoop(ws, m, lines, cur, len);
        WrapLoopNonEmpty(ws[1..], m, lines + [cur], [ws[0]], |ws[0]|, k);
        assert res[..|lines| + 1][..|lines|] == res[..|lines|];
      }
    }
  }

  /** The running count matches the line being built: the joined length plus one on
      the first line, the joined length on later lines. */
  predicate CountTracks(lines: seq<seq<string>>, cur: seq<string>, len: int) {
    if |lines| == 0 then (|cur| == 0 && len == 0) || (|cur| > 0 && len == |Join(cur)| + 1)
    else |cur| > 0 && len == |Join(cur)|
  }

  /** A line of two or more words fits within the limit. */
  predicate Fits(g: seq<string>, m: int) {
    |g| >= 2 ==> |Join(g)| <= m
  }

  predicate AllFit(gs: seq<seq<string>>, m: int) {
    forall i :: 0 <= i < |gs| ==> Fits(gs[i], m)
  }

  lemma {:induction false} WrapLoopFits(ws: seq<string>, m: int, lines: seq<seq<string>>, cur: seq<string>, len: int)
    requires CountTracks(lines, cur, len)
    requires Fits(cur, m) && AllFit(lines, m)
    ensures AllFit(WrapLoop(ws, m, lines, cur, len), m)
    decreases |ws|
  {
    if |ws| == 0 {
      if |cur| > 0 {
        assert AllFit(lines + [cur], m);
      }
    } else {
      var w := ws[0];
      if len + |w| + 1 <= m {
        if |cur| > 0 {
          JoinAppendLength(cur, w);
          assert |Join(cur + [w])| == len + |w| + (if |lines| == 0 then 0 else 1);
        } else {
          assert cur + [w] == [w];
          assert Join([w]) == w;
        }
        assert CountTracks(lines, cur + [w], len + |w| + 1);
        assert Fits(cur + [w], m);
        WrapLoopFits(ws[1..], m, lines, cur + [w], len + |w| + 1);
        assert WrapLoop(ws, m, lines, cur, len) == WrapLoop(ws[1..], m, lines, cur + [w], len + |w| + 1);
      } else {
        assert Join([w]) == w;
        assert AllFit(lines + [cur], m);
        WrapLoopFits(ws[1..], m, lines + [cur], [w], |w|);
        assert WrapLoop(ws, m, lines, cur, len) == WrapLoop(ws[1..], m, lines + [cur], [w], |w|);
      }
    }
  }

  // ---------------------------------------------------------------------------
  // Properties of wrap_text

  /** The words of each line. */
  function LineWords(lines: seq<string>): (r: seq<seq<string>>)
    ensures |r| == |lines| && forall i :: 0 <= i < |lines| ==> r[i] == Words(lines[i])
  {
    seq(|lines|, i requires 0 <= i < |lines| => Words(lines[i]))
  }

  /** The words of the output lines, read in order, are exactly the words of the text. */
  lemma WrapKeepsWords(text: string, m: int)
    ensures Flatten(LineWords(WrapText(text, m))) == Words(text)
  {
    var ws := Words(text);
    var gs := Groups(ws, m);
    WrapLoopKeepsWords(ws, m, [], [], 0);
    assert Flatten([]) + [] + ws == ws;
    var lines := WrapText(text, m);
    assert lines == JoinAll(gs);
    forall i | 0 <= i < |gs|
      ensures Words(lines[i]) == gs[i]
    {
      GroupsAreWords(ws, m, i);
      WordsOfJoin(gs[i]);
    }
    var split := LineWords(lines);
    assert split == gs;
    assert Flatten(split) == ws;
  }

  /** Every group consists of words of the input. */
  lemma GroupsAreWords(ws: seq<string>, m: int, i: int)
    requires forall j :: 0 <= j < |ws| ==> IsWord(ws[j])
    requires 0 <= i < |Groups(ws, m)|
    ensures forall j :: 0 <= j < |Groups(ws, m)[i]| ==> IsWord(Groups(ws, m)[i][j])
  {
    var gs := Groups(ws, m);
    WrapLoopKeepsWords(ws, m, [], [], 0);
    assert Flatten(gs) == ws;
    FlattenContains(gs, i);
  }

  lemma {:induction false} FlattenContains(gs: seq<seq<string>>, i: int)
    requires 0 <= i < |gs|
    ensures forall j :: 0 <= j < |gs[i]| ==> gs[i][j] in Flatten(gs)
    decreases |gs|
  {
    var init := gs[..|gs| - 1];
    if i < |gs| - 1 {
      FlattenContains(init, i);
      assert init[i] == gs[i];
    }
  }

  /** A line longer than the limit holds at most one word. */
  lemma LongLineIsOneWord(text: string, m: int, i: int)
    requires 0 <= i < |WrapText(text, m)|
    requires |WrapText(text, m)[i]| > m
    ensures |Words(WrapText(text, m)[i])| <= 1
  {
    var ws := Words(text);
    var gs := Groups(ws, m);
    assert WrapText(text, m)[i] == Join(gs[i]);
    var none: seq<seq<string>> := [];
    var empty: seq<string> := [];
    assert CountTracks(none, empty, 0) && Fits(empty, m);
    WrapLoopFits(ws, m, none, empty, 0);
    assert gs == WrapLoop(ws, m, none, empty, 0);
    assert Fits(gs[i], m);
    GroupsAreWords(ws, m, i);
    WordsOfJoin(gs[i]);
  }

  /** The empty line appears only first, and exactly when the first word is at least
      as long as the limit. */
  lemma EmptyLineOnlyFirst(text: string, m: int)
    ensures var lines := WrapText(text, m);
      && (forall i :: 0 < i < |lines| ==> lines[i] != "")
      && (|lines| > 0 && lines[0] == "" <==> |Words(text)| > 0 && |Words(text)[0]| >= m)
  {
    var ws := Words(text);
    var gs := Groups(ws, m);
    if |ws| > 0 {
      var w := ws[0];
      var none: seq<seq<string>> := [];
      var empty: seq<string> := [];
      assert empty + [w] == [w];
      assert none + [empty] == [[]];
      if |w| + 1 <= m {
        assert gs == WrapLoop(ws[1..], m, [], [w], |w| + 1);
        WrapLoopNonEmpty(ws[1..], m, [], [w], |w| + 1, 0);
      } else {
        assert gs == WrapLoop(ws[1..], m, [[]], [w], |w|);
        WrapLoopNonEmpty(ws[1..], m, [[]], [w], |w|, 1);
        assert gs[0] == gs[..1][0] == [];
      }
      forall i | 0 <= i < |gs| && |gs[i]| > 0
        ensures Join(gs[i]) != ""
      {
        GroupsAreWords(ws, m, i);
        JoinNonEmpty(gs[i]);
      }
    }
  }

  lemma {:induction false} JoinNonEmpty(g: seq<string>)
    requires |g| > 0 && forall i :: 0 <= i < |g| ==> IsWord(g[i])
    ensures |Join(g)| > 0
    decreases |g|
  {
    if |g| > 1 {
      JoinNonEmpty(g[..|g| - 1]);
    }
  }

  /** Text of whitespace only wraps to no lines at all. */
  lemma {:induction false} BlankTextNoLines(text: string, m: int)
    requires forall i :: 0 <= i < |text| ==> IsSpace(text[i])
    ensures Words(text) == [] && WrapText(text, m) == []
    decreases |text|
  {
    if |text| > 0 {
      BlankTextNoLines(text[1..], m);
    }
  }

  // ---------------------------------------------------------------------------
  // The count as written starts a line at 0 and charges a space after every word,
  // so a first word of at least maxChars characters emits an empty line before
  // itself, and the first line holds one character less than the later ones.

  /** A single word as long as the limit is preceded by an empty line. */
  lemma EmptyFirstLineExample()
    ensures WrapText("abc", 3) == ["", "abc"]
  {
    assert WordLen("abc") == 3 by { WordLenUnique("abc", 3); }
    assert "abc"[..3] == "abc" && "abc"[3..] == "";
    assert Words("abc") == ["abc"];
    var empty: seq<string> := [];
    assert Groups(["abc"], 3) == [empty, ["abc"]];
  }

  /** Two words that fit the limit exactly are split when they open the text. */
  lemma ShortFirstLineExample()
    ensures WrapText("ab cd", 5) == ["ab", "cd"]
  {
    var t := "ab cd";
    assert WordLen(t) == 2 by { WordLenUnique(t, 2); }
    assert t[..2] == "ab" && t[2..] == " cd" && " cd"[1..] == "cd";
    WordsOfWord("cd");
    assert Words(t) == ["ab", "cd"];
    var ws := ["ab", "cd"];
    var none: seq<seq<string>> := [];
    var empty: seq<string> := [];
    assert ws[1..] == ["cd"] && ws[1..][1..] == [];
    assert empty + ["ab"] == ["ab"];
    assert WrapLoop(ws, 5, none, empty, 0) == WrapLoop(["cd"], 5, none, ["ab"], 3);
    assert WrapLoop(["cd"], 5, none, ["ab"], 3) == WrapLoop([], 5, [["ab"]], ["cd"], 2);
    assert Groups(ws, 5) == [["ab"], ["cd"]];
  }

  /** Wrapping with the evident intent: a word joins the current line when the line
      is empty or the joined line stays within the limit. */
  function WrapLoopFixed(ws: seq<string>, maxChars: int, lines: seq<seq<string>>, cur: seq<string>)
    : (res: seq<seq<string>>)
    ensures |cur| > 0 && NonEmptyFrom(lines, 0) ==> NonEmptyFrom(res, 0)
    ensures |cur| == 0 && |lines| == 0 ==> NonEmptyFrom(res, 0)
    decreases |ws|
  {
    if |ws| == 0 then (if |cur| > 0 then lines + [cur] else lines)
    else if |cur| == 0 || |Join(cur)| + 1 + |ws[0]| <= maxChars then
      WrapLoopFixed(ws[1..], maxChars, lines, cur + [ws[0]])
    else WrapLoopFixed(ws[1..], maxChars, lines + [cur], [ws[0]])
  }

  function WrapTextFixed(text: string, maxChars: int): (lines: seq<string>)
    ensures forall i :: 0 <= i < |lines| ==> lines[i] != ""
  {
    var ws := Words(text);
    var gs := WrapLoopFixed(ws, maxChars, [], []);
    forall i | 0 <= i < |gs|
      ensures Join(gs[i]) != ""
    {
      GroupsFixedAreWords(ws, maxChars, i);
      JoinNonEmpty(gs[i]);
    }
    JoinAll(gs)
  }

  lemma {:induction false} WrapLoopFixedKeepsWords(ws: seq<string>, m: int, lines: seq<seq<string>>, cur: seq<string>)
    ensures Flatten(WrapLoopFixed(ws, m, lines, cur)) == Flatten(lines) + cur + ws
    decreases |ws|
  {
    if |ws| == 0 {
      if |cur| > 0 {
        FlattenAppend(lines, cur);
      }
    } else if |cur| == 0 || |Join(cur)| + 1 + |ws[0]| <= m {
      WrapLoopFixedKeepsWords(ws[1..], m, lines, cur + [ws[0]]);
      assert cur + [ws[0]] + ws[1..] == cur + ws;
    } else {
      WrapLoopFixedKeepsWords(ws[1..], m, lines + [cur], [ws[0]]);
      FlattenAppend(lines, cur);
      assert [ws[0]] + ws[1..] == ws;
    }
  }

  lemma {:induction false} WrapLoopFixedFits(ws: seq<string>, m: int, lines: seq<seq<string>>, cur: seq<string>)
    requires Fits(cur, m) && AllFit(lines, m)
    ensures AllFit(WrapLoopFixed(ws, m, lines, cur), m)
    decreases |ws|
  {
    if |ws| == 0 {
      if |cur| > 0 {
        assert AllFit(lines + [cur], m);
      }
    } else {
      var w := ws[0];
      if |cur| == 0 || |Join(cur)| + 1 + |w| <= m {
        if |cur| > 0 {
          JoinAppendLength(cur, w);
        } else {
          assert cur + [w] == [w];
        }
        WrapLoopFixedFits(ws[1..], m, lines, cur + [w]);
      } else {
        assert AllFit(lines + [cur], m);
        WrapLoopFixedFits(ws[1..], m, lines + [cur], [w]);
      }
    }
  }

  lemma GroupsFixedAreWords(ws: seq<string>, m: int, i: int)
    requires forall j :: 0 <= j < |ws| ==> IsWord(ws[j])
    requires 0 <= i < |WrapLoopFixed(ws, m, [], [])|
    ensures forall j :: 0 <= j < |WrapLoopFixed(ws, m, [], [])[i]| ==> IsWord(WrapLoopFixed(ws, m, [], [])[i][j])
  {
    var gs := WrapLoopFixed(ws, m, [], []);
    WrapLoopFixedKeepsWords(ws, m, [], []);
    assert Flatten(gs) == ws;
    FlattenContains(gs, i);
  }

  /** The corrected wrap keeps every word in order, emits no empty line, and every
      line of two or more words fits within the limit. */
  lemma WrapFixedIsWrapping(text: string, m: int)
    ensures Flatten(LineWords(WrapTextFixed(text, m))) == Words(text)
    ensures forall i :: 0 <= i < |WrapTextFixed(text, m)| ==>
      |WrapTextFixed(text, m)[i]| > m ==> |Words(WrapTextFixed(text, m)[i])| == 1
  {
    var ws := Words(text);
    var none: seq<seq<string>> := [];
    var empty: seq<string> := [];
    var gs := WrapLoopFixed(ws, m, none, empty);
    var lines := WrapTextFixed(text, m);
    assert lines == JoinAll(gs);
    WrapLoopFixedKeepsWords(ws, m, none, empty);
    WrapLoopFixedFits(ws, m, none, empty);
    forall i | 0 <= i < |gs|
      ensures Words(lines[i]) == gs[i]
    {
      GroupsFixedAreWords(ws, m, i);
      WordsOfJoin(gs[i]);
    }
    assert LineWords(lines) == gs;
    forall i | 0 <= i < |lines| && |lines[i]| > m
      ensures |Words(lines[i])| == 1
    {
      assert Fits(gs[i], m);
      assert |gs[i]| > 0;
    }
  }

  /** On the first example above the corrected wrap keeps the long word on one line. */
  lemma FixedExampleLongWord()
    ensures WrapTextFixed("abc", 3) == ["abc"]
  {
    assert WordLen("abc") == 3 by { WordLenUnique("abc", 3); }
    assert "abc"[..3] == "abc" && "abc"[3..] == "";
    assert Words("abc") == ["abc"];
    var none: seq<seq<string>> := [];
    var empty: seq<string> := [];
    assert empty + ["abc"] == ["abc"];
    assert WrapLoopFixed(["abc"], 3, none, empty) == WrapLoopFixed([], 3, none, ["abc"]);
    assert Join(["abc"]) == "abc";
  }

  /** On the second example the corrected wrap puts both words on one line. */
  lemma FixedExampleTwoWords()
    ensures WrapTextFixed("ab cd", 5) == ["ab cd"]
  {
    var t := "ab cd";
    assert WordLen(t) == 2 by { WordLenUnique(t, 2); }
    assert t[..2] == "ab" && t[2..] == " cd" && " cd"[1..] == "cd";
    WordsOfWord("cd");
    assert Words(t) == ["ab", "cd"];
    var ws := ["ab", "cd"];
    var none: seq<seq<string>> := [];
    var empty: seq<string> := [];
    assert ws[1..] == ["cd"] && ws[1..][1..] == [];
    assert empty + ["ab"] == ["ab"];
    assert WrapLoopFixed(ws, 5, none, empty) == WrapLoopFixed(["cd"], 5, none, ["ab"]);
    assert Join(["ab"]) == "ab";
    assert ["ab"] + ["cd"] == ["ab", "cd"];
    assert WrapLoopFixed(["cd"], 5, none, ["ab"]) == WrapLoopFixed([], 5, none, ["ab", "cd"]);
    assert Join(["ab", "cd"]) == "ab cd";
  }
}
