/** Greedy word wrapping of a caption, as the meme renderer does it: the
    caption is cut into words at single spaces, every word is followed by one
    space, and a word starts a new line only when appending it to the current
    line would make that line measure wider than the limit and it is not the
    very first word. The measuring function is the canvas's text metric and is
    a parameter here. */
module Layout {
  import opened TextOps

  /** The text the wrap loop accumulates for the words `ws[a..b]`: each word
      followed by one space. */
  function Run(ws: seq<string>, a: nat, b: nat): string
    requires a <= b <= |ws|
    decreases b - a
  {
    if a == b then "" else ws[a] + " " + Run(ws, a + 1, b)
  }

  /** Appending the next word to a run is how the loop extends a line. */
  lemma {:induction false} RunSnoc(ws: seq<string>, a: nat, b: nat)
    requires a <= b < |ws|
    ensures Run(ws, a, b + 1) == Run(ws, a, b) + ws[b] + " "
    decreases b - a
  {
    if a < b {
      RunSnoc(ws, a + 1, b);
    }
  }

  /** The run of all words from `a` on is their space-join plus one space. */
  lemma {:induction false} RunIsJoin(ws: seq<string>, a: nat)
    requires a < |ws|
    ensures Run(ws, a, |ws|) == Join(ws[a..], ' ') + " "
    decreases |ws| - a
  {
    if a + 1 == |ws| {
      assert ws[a..] == [ws[a]];
    } else {
      RunIsJoin(ws, a + 1);
      assert ws[a..][1..] == ws[a + 1..];
    }
  }

  /** The line the loop tests when it appends word `k` to the line that
      starts at word `a`. */
  function Appended(ws: seq<string>, a: nat, k: nat): string
    requires a <= k < |ws|
  {
    Run(ws, a, k + 1)
  }

  /** The loop's state after some words: the closed lines, the open line and
      the index of the first word of every line, the open one included. */
  datatype WrapState = WrapState(lines: seq<string>, line: string, starts: seq<nat>)

  /** The state of the wrap loop after it has seen the first `n` words. */
  function Fold(ws: seq<string>, measure: string -> real, maxWidth: real, n: nat): WrapState
    requires n <= |ws|
  {
    if n == 0 then WrapState([], "", [0])
    else
      var st := Fold(ws, measure, maxWidth, n - 1);
      var test := st.line + ws[n - 1] + " ";
      if measure(test) > maxWidth && n - 1 > 0 then
        WrapState(st.lines + [st.line], ws[n - 1] + " ", st.starts + [n - 1])
      else
        WrapState(st.lines, test, st.starts)
  }

  /** The lines the wrap loop produces for the words `ws`: the closed lines
      followed by the open line, which is always flushed. */
  function Wrap(ws: seq<string>, measure: string -> real, maxWidth: real): (lines: seq<string>)
    ensures |lines| >= 1
  {
    var st := Fold(ws, measure, maxWidth, |ws|);
    st.lines + [st.line]
  }

  /** The line starts of `Wrap`. */
  function WrapStarts(ws: seq<string>, measure: string -> real, maxWidth: real): seq<nat>
  {
    Fold(ws, measure, maxWidth, |ws|).starts
  }

  /** Index one past the last word of line `i`. */
  function End(starts: seq<nat>, n: nat, i: nat): nat
    requires i < |starts|
  {
    if i + 1 < |starts| then starts[i + 1] else n
  }

  /** `starts` is a strictly increasing list of word indexes below `n` that
      begins with the first word. */
  ghost predicate ValidStarts(starts: seq<nat>, n: nat)
  {
    && |starts| >= 1
    && starts[0] == 0
    && (forall i, j :: 0 <= i < j < |starts| ==> starts[i] < starts[j])
    && (forall i :: 0 <= i < |starts| ==> starts[i] < n)
  }

  /** Line `i` is the run of the words from `starts[i]` up to the next start. */
  ghost predicate LinesAreRuns(ws: seq<string>, n: nat, lines: seq<string>, starts: seq<nat>)
    requires n <= |ws| && ValidStarts(starts, n)
  {
    |lines| == |starts| &&
    forall i :: 0 <= i < |lines| ==> lines[i] == Run(ws, starts[i], End(starts, n, i))
  }

  /** Every word after the first of its line fitted when it was appended. */
  ghost predicate WordsFit(ws: seq<string>, measure: string -> real, maxWidth: real,
                           n: nat, starts: seq<nat>)
    requires n <= |ws| && ValidStarts(starts, n)
  {
    forall i, k :: 0 <= i < |starts| && starts[i] < k < End(starts, n, i) ==>
      measure(Appended(ws, starts[i], k)) <= maxWidth
  }

  /** The first word of every line but the first overflowed the line before. */
  ghost predicate BreaksOverflow(ws: seq<string>, measure: string -> real, maxWidth: real,
                                 n: nat, starts: seq<nat>)
    requires n <= |ws| && ValidStarts(starts, n)
  {
    forall i :: 0 < i < |starts| ==> measure(Appended(ws, starts[i - 1], starts[i])) > maxWidth
  }

  /** The greedy layout of the first `n` words, stated without the loop:
      the lines are consecutive runs of words that start at `starts`; the
      first line starts with the first word; every word after the first of its
      line fitted when it was appended; and the first word of every later line
      overflowed when appended to the line before it. */
  ghost predicate GreedyLayout(ws: seq<string>, measure: string -> real, maxWidth: real,
                               n: nat, lines: seq<string>, starts: seq<nat>)
    requires n <= |ws|
  {
    && 1 <= n
    && ValidStarts(starts, n)
    && LinesAreRuns(ws, n, lines, starts)
    && WordsFit(ws, measure, maxWidth, n, starts)
    && BreaksOverflow(ws, measure, maxWidth, n, starts)
  }

  /** Starting a new line with word `n - 1` keeps the lines runs of words. */
  lemma BreakStepLines(ws: seq<string>, n: nat, L: seq<string>, S: seq<nat>)
    requires 2 <= n <= |ws|
    requires ValidStarts(S, n - 1) && LinesAreRuns(ws, n - 1, L, S)
    ensures ValidStarts(S + [n - 1], n)
    ensures LinesAreRuns(ws, n, L + [ws[n - 1] + " "], S + [n - 1])
  {
    var lines, S' := L + [ws[n - 1] + " "], S + [n - 1];
    assert ValidStarts(S', n);
    assert Run(ws, n - 1, n) == ws[n - 1] + " ";
    forall i | 0 <= i < |lines| ensures lines[i] == Run(ws, S'[i], End(S', n, i)) {
      if i < |S| {
        assert lines[i] == L[i] && S'[i] == S[i] && End(S', n, i) == End(S, n - 1, i);
      }
    }
  }

  /** Starting a new line keeps every earlier appended word fitting. */
  lemma BreakStepFit(ws: seq<string>, measure: string -> real, maxWidth: real, n: nat, S: seq<nat>)
    requires 2 <= n <= |ws|
    requires ValidStarts(S, n - 1) && WordsFit(ws, measure, maxWidth, n - 1, S)
    requires ValidStarts(S + [n - 1], n)
    ensures WordsFit(ws, measure, maxWidth, n, S + [n - 1])
  {
    var S' := S + [n - 1];
    forall i, k | 0 <= i < |S'| && S'[i] < k < End(S', n, i)
      ensures measure(Appended(ws, S'[i], k)) <= maxWidth
    {
      assert i < |S| && S'[i] == S[i] && End(S', n, i) == End(S, n - 1, i);
    }
  }

  /** Starting a new line with an overflowing word keeps every break an
      overflow. */
  lemma BreakStepBreaks(ws: seq<string>, measure: string -> real, maxWidth: real, n: nat, S: seq<nat>)
    requires 2 <= n <= |ws|
    requires ValidStarts(S, n - 1) && BreaksOverflow(ws, measure, maxWidth, n - 1, S)
    requires ValidStarts(S + [n - 1], n)
    requires measure(Appended(ws, S[|S| - 1], n - 1)) > maxWidth
    ensures BreaksOverflow(ws, measure, maxWidth, n, S + [n - 1])
  {
    var S' := S + [n - 1];
    forall i | 0 < i < |S'| ensures measure(Appended(ws, S'[i - 1], S'[i])) > maxWidth {
      if i < |S| {
        assert S'[i - 1] == S[i - 1] && S'[i] == S[i];
      }
    }
  }

  /** Appending word `n - 1` to the open line keeps the lines runs of words. */
  lemma JoinStepLines(ws: seq<string>, n: nat, L: seq<string>, S: seq<nat>)
    requires 2 <= n <= |ws|
    requires ValidStarts(S, n - 1) && LinesAreRuns(ws, n - 1, L, S)
    ensures ValidStarts(S, n)
    ensures LinesAreRuns(ws, n, L[..|L| - 1] + [Appended(ws, S[|S| - 1], n - 1)], S)
  {
    var last := |S| - 1;
    var lines := L[..last] + [Appended(ws, S[last], n - 1)];
    forall i | 0 <= i < |lines| ensures lines[i] == Run(ws, S[i], End(S, n, i)) {
      if i < last {
        assert lines[i] == L[i] && End(S, n, i) == End(S, n - 1, i);
      }
    }
  }

  /** Appending a word that fits keeps every appended word fitting. */
  lemma JoinStepFit(ws: seq<string>, measure: string -> real, maxWidth: real, n: nat, S: seq<nat>)
    requires 2 <= n <= |ws|
    requires ValidStarts(S, n - 1) && WordsFit(ws, measure, maxWidth, n - 1, S)
    requires measure(Appended(ws, S[|S| - 1], n - 1)) <= maxWidth
    ensures ValidStarts(S, n)
    ensures WordsFit(ws, measure, maxWidth, n, S)
  {
    var last := |S| - 1;
    forall i, k | 0 <= i < |S| && S[i] < k < End(S, n, i)
      ensures measure(Appended(ws, S[i], k)) <= maxWidth
    {
      if i != last || k != n - 1 {
        assert k < End(S, n - 1, i);
      }
    }
  }

  /** A word that overflows the open line starts a new line, and the layout
      stays greedy. */
  lemma GreedyBreakStep(ws: seq<string>, measure: string -> real, maxWidth: real,
                        n: nat, L: seq<string>, S: seq<nat>)
    requires 2 <= n <= |ws|
    requires GreedyLayout(ws, measure, maxWidth, n - 1, L, S)
    requires measure(Appended(ws, S[|S| - 1], n - 1)) > maxWidth
    ensures GreedyLayout(ws, measure, maxWidth, n, L + [ws[n - 1] + " "], S + [n - 1])
  {
    BreakStepLines(ws, n, L, S);
    BreakStepFit(ws, measure, maxWidth, n, S);
    BreakStepBreaks(ws, measure, maxWidth, n, S);
  }

  /** A word that fits joins the open line, and the layout stays greedy. */
  lemma GreedyJoinStep(ws: seq<string>, measure: string -> real, maxWidth: real,
                       n: nat, L: seq<string>, S: seq<nat>)
    requires 2 <= n <= |ws|
    requires GreedyLayout(ws, measure, maxWidth, n - 1, L, S)
    requires measure(Appended(ws, S[|S| - 1], n - 1)) <= maxWidth
    ensures GreedyLayout(ws, measure, maxWidth, n, L[..|L| - 1] + [Appended(ws, S[|S| - 1], n - 1)], S)
  {
    JoinStepLines(ws, n, L, S);
    JoinStepFit(ws, measure, maxWidth, n, S);
    assert BreaksOverflow(ws, measure, maxWidth, n, S);
  }

  /** After the first word, the loop's state is the one-line greedy layout. */
  lemma FoldGreedyFirst(ws: seq<string>, measure: string -> real, maxWidth: real)
    requires 1 <= |ws|
    ensures var st := Fold(ws, measure, maxWidth, 1);
            GreedyLayout(ws, measure, maxWidth, 1, st.lines + [st.line], st.starts)
  {
    assert Fold(ws, measure, maxWidth, 0) == WrapState([], "", [0]);
    assert "" + ws[0] + " " == ws[0] + " ";
    assert Fold(ws, measure, maxWidth, 1) == WrapState([], ws[0] + " ", [0]);
    assert Run(ws, 0, 1) == ws[0] + " ";
  }

  /** One more word keeps the loop's state a greedy layout. */
  lemma FoldGreedyStep(ws: seq<string>, measure: string -> real, maxWidth: real, n: nat)
    requires 2 <= n <= |ws|
    requires var prev := Fold(ws, measure, maxWidth, n - 1);
             GreedyLayout(ws, measure, maxWidth, n - 1, prev.lines + [prev.line], prev.starts)
    ensures var st := Fold(ws, measure, maxWidth, n);
            GreedyLayout(ws, measure, maxWidth, n, st.lines + [st.line], st.starts)
  {
    var prev := Fold(ws, measure, maxWidth, n - 1);
    var L := prev.lines + [prev.line];
    var S := prev.starts;
    var last := |S| - 1;
    var test := prev.line + ws[n - 1] + " ";
    assert prev.line == L[last];
    RunSnoc(ws, S[last], n - 1);
    assert Appended(ws, S[last], n - 1) == test;
    if measure(test) > maxWidth {
      assert Fold(ws, measure, maxWidth, n) == WrapState(prev.lines + [prev.line], ws[n - 1] + " ", S + [n - 1]);
      GreedyBreakStep(ws, measure, maxWidth, n, L, S);
    } else {
      assert Fold(ws, measure, maxWidth, n) == WrapState(prev.lines, test, S);
      GreedyJoinStep(ws, measure, maxWidth, n, L, S);
      assert L[..last] == prev.lines;
    }
  }

  /** The wrap loop's state after `n >= 1` words is the greedy layout of
      those words. */
  lemma {:induction false} FoldIsGreedy(ws: seq<string>, measure: string -> real, maxWidth: real, n: nat)
    requires 1 <= n <= |ws|
    ensures var st := Fold(ws, measure, maxWidth, n);
            GreedyLayout(ws, measure, maxWidth, n, st.lines + [st.line], st.starts)
  {
    if n == 1 {
      FoldGreedyFirst(ws, measure, maxWidth);
    } else {
      FoldIsGreedy(ws, measure, maxWidth, n - 1);
      FoldGreedyStep(ws, measure, maxWidth, n);
    }
  }

  /** `Wrap` lays out every non-empty word list greedily. */
  lemma WrapIsGreedy(ws: seq<string>, measure: string -> real, maxWidth: real)
    requires |ws| >= 1
    ensures GreedyLayout(ws, measure, maxWidth, |ws|, Wrap(ws, measure, maxWidth),
                         WrapStarts(ws, measure, maxWidth))
  {
    FoldIsGreedy(ws, measure, maxWidth, |ws|);
  }

  /** Two greedy layouts that agree on where line `i` starts agree on where
      it ends. */
  lemma EndsAgree(ws: seq<string>, measure: string -> real, maxWidth: real, n: nat,
                  l1: seq<string>, s1: seq<nat>, l2: seq<string>, s2: seq<nat>, i: nat)
    requires n <= |ws|
    requires GreedyLayout(ws, measure, maxWidth, n, l1, s1)
    requires GreedyLayout(ws, measure, maxWidth, n, l2, s2)
    requires i < |s1| && i < |s2| && s1[i] == s2[i]
    ensures End(s1, n, i) == End(s2, n, i)
  {
    var e1, e2 := End(s1, n, i), End(s2, n, i);
    if e1 < e2 {
      assert false;
    } else if e2 < e1 {
      assert false;
    }
  }

  /** Two greedy layouts of the same words start their first `i + 1` lines
      at the same words. */
  lemma {:induction false} StartsAgree(ws: seq<string>, measure: string -> real, maxWidth: real, n: nat,
                                       l1: seq<string>, s1: seq<nat>, l2: seq<string>, s2: seq<nat>, i: nat)
    requires n <= |ws|
    requires GreedyLayout(ws, measure, maxWidth, n, l1, s1)
    requires GreedyLayout(ws, measure, maxWidth, n, l2, s2)
    requires i < |s1| && i < |s2|
    ensures forall j :: 0 <= j <= i ==> s1[j] == s2[j]
  {
    if i > 0 {
      StartsAgree(ws, measure, maxWidth, n, l1, s1, l2, s2, i - 1);
      EndsAgree(ws, measure, maxWidth, n, l1, s1, l2, s2, i - 1);
    }
  }

  /** There is only one greedy layout of a word list. */
  lemma GreedyLayoutUnique(ws: seq<string>, measure: string -> real, maxWidth: real, n: nat,
                           l1: seq<string>, s1: seq<nat>, l2: seq<string>, s2: seq<nat>)
    requires n <= |ws|
    requires GreedyLayout(ws, measure, maxWidth, n, l1, s1)
    requires GreedyLayout(ws, measure, maxWidth, n, l2, s2)
    ensures l1 == l2 && s1 == s2
  {
    var m := if |s1| < |s2| then |s1| else |s2|;
    StartsAgree(ws, measure, maxWidth, n, l1, s1, l2, s2, m - 1);
    EndsAgree(ws, measure, maxWidth, n, l1, s1, l2, s2, m - 1);
    assert |s1| == |s2|;
    assert s1 == s2;
    forall i | 0 <= i < |l1| ensures l1[i] == l2[i] { }
  }

  /** The greedy layout of a non-empty word list is exactly what `Wrap`
      produces: the loop and the declarative description agree. */
  lemma GreedyLayoutIsWrap(ws: seq<string>, measure: string -> real, maxWidth: real,
                           lines: seq<string>, starts: seq<nat>)
    requires GreedyLayout(ws, measure, maxWidth, |ws|, lines, starts)
    ensures lines == Wrap(ws, measure, maxWidth)
    ensures starts == WrapStarts(ws, measure, maxWidth)
  {
    WrapIsGreedy(ws, measure, maxWidth);
    GreedyLayoutUnique(ws, measure, maxWidth, |ws|, lines, starts,
                       Wrap(ws, measure, maxWidth), WrapStarts(ws, measure, maxWidth));
  }

  /** No wrapped line measures wider than the limit unless it holds a single
      word. */
  lemma WrapNoOverflow(ws: seq<string>, measure: string -> real, maxWidth: real, i: nat)
    requires |ws| >= 1
    requires i < |Wrap(ws, measure, maxWidth)|
    ensures var starts := WrapStarts(ws, measure, maxWidth);
            i < |starts| &&
            (End(starts, |ws|, i) - starts[i] >= 2 ==>
               measure(Wrap(ws, measure, maxWidth)[i]) <= maxWidth)
  {
    WrapIsGreedy(ws, measure, maxWidth);
    var starts := WrapStarts(ws, measure, maxWidth);
    var e := End(starts, |ws|, i);
    if e - starts[i] >= 2 {
      assert starts[i] < e - 1 < e;
      assert Appended(ws, starts[i], e - 1) == Wrap(ws, measure, maxWidth)[i];
    }
  }

  /** A text measure that never shrinks when text is added on either side. */
  ghost predicate Monotone(measure: string -> real)
  {
    forall a: string, b: string :: measure(a) <= measure(a + b) && measure(b) <= measure(a + b)
  }

  /** The line that holds word `k`. */
  lemma LineOf(starts: seq<nat>, n: nat, k: nat) returns (i: nat)
    requires ValidStarts(starts, n) && k < n
    ensures i < |starts| && starts[i] <= k < End(starts, n, i)
  {
    i := 0;
    while i + 1 < |starts| && starts[i + 1] <= k
      invariant i < |starts| && starts[i] <= k
      decreases |starts| - i
    {
      i := i + 1;
    }
  }

  /** Under a monotone measure, a word is no wider than any line that
      reaches it by appending. */
  lemma WordWithinRun(ws: seq<string>, measure: string -> real, a: nat, k: nat)
    requires Monotone(measure) && a < k < |ws|
    ensures measure(ws[k] + " ") <= measure(Appended(ws, a, k))
  {
    RunSnoc(ws, a, k);
    assert Appended(ws, a, k) == Run(ws, a, k) + (ws[k] + " ");
  }

  /** Under a monotone measure, a word is no wider than the line it starts
      once the next word is appended. */
  lemma WordBeforeNext(ws: seq<string>, measure: string -> real, k: nat)
    requires Monotone(measure) && k + 1 < |ws|
    ensures measure(ws[k] + " ") <= measure(Appended(ws, k, k + 1))
  {
    assert Run(ws, k + 1, k + 2) == ws[k + 1] + " " + Run(ws, k + 2, k + 2);
    assert Run(ws, k + 1, k + 2) == ws[k + 1] + " ";
    assert Appended(ws, k, k + 1) == ws[k] + " " + Run(ws, k + 1, k + 2);
    assert Appended(ws, k, k + 1) == (ws[k] + " ") + (ws[k + 1] + " ");
  }

  /** Under a monotone measure, a word that is wider than the limit on its
      own occupies a line by itself: its line starts with it and ends after
      it. */
  lemma OverflowingWordAlone(ws: seq<string>, measure: string -> real, maxWidth: real, k: nat)
    returns (i: nat)
    requires k < |ws|
    requires Monotone(measure)
    requires measure(ws[k] + " ") > maxWidth
    ensures var starts := WrapStarts(ws, measure, maxWidth);
            i < |starts| && starts[i] == k && End(starts, |ws|, i) == k + 1
  {
    WrapIsGreedy(ws, measure, maxWidth);
    var starts := WrapStarts(ws, measure, maxWidth);
    i := LineOf(starts, |ws|, k);
    if starts[i] < k {
      WordWithinRun(ws, measure, starts[i], k);
    }
    if k + 1 < End(starts, |ws|, i) {
      WordBeforeNext(ws, measure, k);
    }
  }

  /** The lines concatenated. */
  function Concat(lines: seq<string>): string
  {
    if lines == [] then "" else Concat(lines[..|lines| - 1]) + lines[|lines| - 1]
  }

  /** Closing one more line appends it to the concatenation. */
  lemma ConcatSnoc(lines: seq<string>, line: string)
    ensures Concat(lines + [line]) == Concat(lines) + line
  {
    var ls := lines + [line];
    assert ls[..|ls| - 1] == lines && ls[|ls| - 1] == line;
  }

  /** One step of the wrap loop keeps every word seen so far, either in
      the line it closes or in the open line. */
  lemma FoldKeepsWordsStep(ws: seq<string>, measure: string -> real, maxWidth: real, n: nat)
    requires 0 < n <= |ws|
    requires var prev := Fold(ws, measure, maxWidth, n - 1);
             Concat(prev.lines) + prev.line == Run(ws, 0, n - 1)
    ensures var st := Fold(ws, measure, maxWidth, n);
            Concat(st.lines) + st.line == Run(ws, 0, n)
  {
    RunSnoc(ws, 0, n - 1);
    var prev := Fold(ws, measure, maxWidth, n - 1);
    var word := ws[n - 1] + " ";
    var test := prev.line + ws[n - 1] + " ";
    assert Run(ws, 0, n) == Concat(prev.lines) + prev.line + word;
    if measure(test) > maxWidth && n - 1 > 0 {
      assert Fold(ws, measure, maxWidth, n) == WrapState(prev.lines + [prev.line], word, prev.starts + [n - 1]);
      ConcatSnoc(prev.lines, prev.line);
    } else {
      assert Fold(ws, measure, maxWidth, n) == WrapState(prev.lines, test, prev.starts);
      assert Concat(prev.lines) + test == Concat(prev.lines) + prev.line + word;
    }
  }

  /** The wrap loop loses and adds nothing: the closed lines and the open
      line together are every word seen so far, each followed by a space. */
  lemma {:induction false} FoldKeepsWords(ws: seq<string>, measure: string -> real, maxWidth: real, n: nat)
    requires n <= |ws|
    ensures var st := Fold(ws, measure, maxWidth, n);
            Concat(st.lines) + st.line == Run(ws, 0, n)
  {
    if n > 0 {
      FoldKeepsWords(ws, measure, maxWidth, n - 1);
      FoldKeepsWordsStep(ws, measure, maxWidth, n);
    }
  }

  /** The words of a caption can be read back from its lines: the lines
      concatenated are the caption with one space appended. */
  lemma WrapKeepsText(text: string, measure: string -> real, maxWidth: real)
    ensures Concat(Wrap(Split(text, ' '), measure, maxWidth)) == text + " "
  {
    var ws := Split(text, ' ');
    var st := Fold(ws, measure, maxWidth, |ws|);
    FoldKeepsWords(ws, measure, maxWidth, |ws|);
    RunIsJoin(ws, 0);
    assert ws[0..] == ws;
    JoinSplit(text, ' ');
    var lines := st.lines + [st.line];
    assert lines[..|lines| - 1] == st.lines;
  }
}
